/**
 * Motion and privacy zones: 25 masks of 12 bits cover a grid of 20 by 15 cells, three rows and four columns to a
 * mask. Privacy zones switch cells off; the camera-wide motion word summarises the masks.
 *
 * A machine word is the set of the positions of its one bits: `w & !(1 << k)` removes k, `w | 1 << k` adds it.
 */
module ZoneMasks {
  import opened Wrappers

  const WIDTH: nat := 20
  const HEIGHT: nat := 15
  const MASKS: nat := 25

  type Word = set<nat>

  const MICRO_MASK: Word := set k | 0 <= k < 12
  const REGIONS: Word := set k | 0 <= k < 25
  const RESTRICTED: nat := 30

  /** A coordinate or extent as the API sends it. */
  newtype Byte = n: int | 0 <= n < 256

  datatype Zone = Zone(x: Byte, y: Byte, w: Byte, h: Byte)

  datatype ZoneError = InvalidSetting | SettingsUnsupported

  // ---------- cells and bits

  function Basic(x: nat, y: nat): (b: nat)
    requires x < WIDTH && y < HEIGHT
    ensures b < MASKS
  {
    y / 3 * 5 + x / 4
  }

  function Micro(x: nat, y: nat): (k: nat)
    requires x < WIDTH && y < HEIGHT
    ensures k < 12
  {
    y % 3 * 4 + x % 4
  }

  function Column(b: nat, k: nat): (x: nat)
    requires b < MASKS && k < 12
    ensures x < WIDTH
  {
    b % 5 * 4 + k % 4
  }

  function Row(b: nat, k: nat): (y: nat)
    requires b < MASKS && k < 12
    ensures y < HEIGHT
  {
    b / 5 * 3 + k / 4
  }

  lemma Split3(q: nat, r: nat)
    requires r < 3
    ensures (q * 3 + r) / 3 == q && (q * 3 + r) % 3 == r
  {
  }

  lemma Split4(q: nat, r: nat)
    requires r < 4
    ensures (q * 4 + r) / 4 == q && (q * 4 + r) % 4 == r
  {
  }

  lemma Split5(q: nat, r: nat)
    requires r < 5
    ensures (q * 5 + r) / 5 == q && (q * 5 + r) % 5 == r
  {
  }

  /** Every cell is one bit of one mask ... */
  lemma CellOfBit(x: nat, y: nat)
    requires x < WIDTH && y < HEIGHT
    ensures Column(Basic(x, y), Micro(x, y)) == x && Row(Basic(x, y), Micro(x, y)) == y
  {
    Split5(y / 3, x / 4);
    Split4(y % 3, x % 4);
  }

  lemma Rejoined(band: nat, block: nat, line: nat, column: nat)
    requires block < 5 && line < 3 && column < 4
    ensures (band * 3 + line) / 3 * 5 + (block * 4 + column) / 4 == band * 5 + block
    ensures (band * 3 + line) % 3 * 4 + (block * 4 + column) % 4 == line * 4 + column
  {
    Split3(band, line);
    Split4(block, column);
  }

  /** ... and every bit of every mask is one cell. */
  lemma BitOfCell(b: nat, k: nat)
    requires b < MASKS && k < 12
    ensures Basic(Column(b, k), Row(b, k)) == b && Micro(Column(b, k), Row(b, k)) == k
  {
    Rejoined(b / 5, b % 5, k / 4, k % 4);
  }

  predicate On(masks: seq<Word>, x: nat, y: nat)
    requires |masks| == MASKS && x < WIDTH && y < HEIGHT
  {
    Micro(x, y) in masks[Basic(x, y)]
  }

  predicate Micros(masks: seq<Word>) {
    forall m :: m in masks ==> m <= MICRO_MASK
  }

  /** The cells that are on determine the masks. */
  lemma CellsMakeMasks(a: seq<Word>, b: seq<Word>)
    requires |a| == |b| == MASKS && Micros(a) && Micros(b)
    requires forall x, y :: 0 <= x < WIDTH && 0 <= y < HEIGHT ==> On(a, x, y) == On(b, x, y)
    ensures a == b
  {
    hide Basic, Micro, Column, Row;
    forall i | 0 <= i < MASKS
      ensures a[i] == b[i]
    {
      assert a[i] in a && b[i] in b;
      forall k: nat
        ensures k in a[i] <==> k in b[i]
      {
        if k < 12 {
          BitOfCell(i, k);
          assert On(a, Column(i, k), Row(i, k)) == On(b, Column(i, k), Row(i, k));
        }
      }
    }
  }

  // ---------- privacy

  predicate ValidZone(z: Zone) {
    z.w != 0 && z.h != 0 && z.x as int + z.w as int <= WIDTH && z.y as int + z.h as int <= HEIGHT
  }

  predicate ValidPrivacy(zones: seq<Zone>) {
    |zones| <= 2 && forall z :: z in zones ==> ValidZone(z)
  }

  predicate Covers(z: Zone, x: nat, y: nat) {
    z.x as int <= x < z.x as int + z.w as int && z.y as int <= y < z.y as int + z.h as int
  }

  predicate Private(zones: seq<Zone>, x: nat, y: nat) {
    exists z :: z in zones && Covers(z, x, y)
  }

  /** A cell stays on exactly if it was on and lies in no zone. */
  ghost predicate Masked(before: seq<Word>, after: seq<Word>, zones: seq<Zone>) {
    && |before| == |after| == MASKS && Micros(before) && Micros(after)
    && forall x, y :: 0 <= x < WIDTH && 0 <= y < HEIGHT ==>
         (On(after, x, y) <==> On(before, x, y) && !Private(zones, x, y))
  }

  /** Masking twice is masking once. */
  lemma MaskingIsIdempotent(before: seq<Word>, once: seq<Word>, twice: seq<Word>, zones: seq<Zone>)
    requires Masked(before, once, zones) && Masked(once, twice, zones)
    ensures once == twice
  {
    hide On;
    CellsMakeMasks(once, twice);
  }

  function Cleared(masks: seq<Word>, x: nat, y: nat): seq<Word>
    requires |masks| == MASKS && x < WIDTH && y < HEIGHT
  {
    masks[Basic(x, y) := masks[Basic(x, y)] - {Micro(x, y)}]
  }

  lemma ClearedCell(masks: seq<Word>, x: nat, y: nat, p: nat, q: nat)
    requires |masks| == MASKS && x < WIDTH && y < HEIGHT && p < WIDTH && q < HEIGHT
    ensures On(Cleared(masks, x, y), p, q) == (On(masks, p, q) && (p != x || q != y))
  {
    hide Basic, Micro, Column, Row;
    CellOfBit(x, y);
    CellOfBit(p, q);
  }

  /** Off so far: the cells of `zones`, and those of `z` above row `y` or in that row left of column `x`. */
  ghost predicate Off(before: seq<Word>, now: seq<Word>, zones: seq<Zone>, z: Zone, x: nat, y: nat) {
    && |before| == |now| == MASKS && Micros(before) && Micros(now)
    && forall p, q :: 0 <= p < WIDTH && 0 <= q < HEIGHT ==>
         (On(now, p, q) <==> On(before, p, q) && !Private(zones, p, q)
                             && !(Covers(z, p, q) && (q < y || (q == y && p < x))))
  }

  lemma OffOneMore(before: seq<Word>, now: seq<Word>, zones: seq<Zone>, z: Zone, x: nat, y: nat)
    requires Off(before, now, zones, z, x, y) && x < WIDTH && y < HEIGHT && Covers(z, x, y)
    ensures Off(before, Cleared(now, x, y), zones, z, x + 1, y)
  {
    var after := Cleared(now, x, y);
    assert Micros(after) by {
      assert now[Basic(x, y)] in now;
    }
    hide Private, Cleared, On, Micros;
    forall p, q | 0 <= p < WIDTH && 0 <= q < HEIGHT
      ensures On(after, p, q) <==> On(before, p, q) && !Private(zones, p, q)
                                   && !(Covers(z, p, q) && (q < y || (q == y && p < x + 1)))
    {
      ClearedCell(now, x, y, p, q);
    }
  }

  method ApplyPrivacy(masks: array<Word>, zones: seq<Zone>)
    requires masks.Length == MASKS && Micros(masks[..]) && ValidPrivacy(zones)
    modifies masks
    ensures Masked(old(masks[..]), masks[..], zones)
  {
    hide On, Private, Off, Masked, Micros;
    ghost var before := masks[..];
    NothingMasked(before);
    for i := 0 to |zones|
      invariant Masked(before, masks[..], zones[..i])
    {
      var zone := zones[i];
      assert zone in zones && ValidZone(zone);
      var left, right := zone.x as nat, (zone.x + zone.w) as nat;
      var top, bottom := zone.y as nat, (zone.y + zone.h) as nat;
      ZoneBegins(before, masks[..], zones[..i], zone);
      for y := top to bottom
        invariant Off(before, masks[..], zones[..i], zone, left, y)
      {
        for x := left to right
          invariant Off(before, masks[..], zones[..i], zone, x, y)
        {
          OffOneMore(before, masks[..], zones[..i], zone, x, y);
          var basic := y / 3 * 5 + x / 4;
          var bit := y % 3 * 4 + x % 4;
          ghost var now := masks[..];
          masks[basic] := masks[basic] - {bit};
          assert masks[..] == Cleared(now, x, y);
        }
        RowEnds(before, masks[..], zones[..i], zone, y);
      }
      ZoneEnds(before, masks[..], zones, i);
    }
    assert zones[..|zones|] == zones;
  }

  /** Cell (x, y) lies in a zone from its upper left corner on, over its width and height. */
  predicate InZone(zones: seq<Zone>, x: nat, y: nat) {
    exists i :: 0 <= i < |zones|
                && zones[i].x as int <= x < zones[i].x as int + zones[i].w as int
                && zones[i].y as int <= y < zones[i].y as int + zones[i].h as int
  }

  lemma InZoneIsPrivate(zones: seq<Zone>, x: nat, y: nat)
    ensures Private(zones, x, y) <==> InZone(zones, x, y)
  {
    if Private(zones, x, y) {
      var z :| z in zones && Covers(z, x, y);
      var i :| 0 <= i < |zones| && zones[i] == z;
    }
    if InZone(zones, x, y) {
      var i :| 0 <= i < |zones| && zones[i].x as int <= x < zones[i].x as int + zones[i].w as int
               && zones[i].y as int <= y < zones[i].y as int + zones[i].h as int;
      assert zones[i] in zones && Covers(zones[i], x, y);
    }
  }

  /** Cell (x, y) is bit 4 (y mod 3) + x mod 4 of mask 5 (y / 3) + x / 4. */
  predicate InGrid(masks: seq<Word>, x: nat, y: nat)
    requires |masks| == 25 && x < 20 && y < 15
  {
    y % 3 * 4 + x % 4 in masks[y / 3 * 5 + x / 4]
  }

  lemma OnIsInGrid(masks: seq<Word>, x: nat, y: nat)
    requires |masks| == 25 && x < 20 && y < 15
    ensures On(masks, x, y) <==> InGrid(masks, x, y)
  {
  }

  /** Masking switches off the cells within a zone and leaves the others as they were. */
  lemma MaskedMeans(before: seq<Word>, after: seq<Word>, zones: seq<Zone>)
    requires Masked(before, after, zones)
    ensures |before| == |after| == 25
    ensures forall x, y :: 0 <= x < 20 && 0 <= y < 15 ==>
              (InGrid(after, x, y) <==> InGrid(before, x, y) && !InZone(zones, x, y))
  {
    hide Private, InZone, InGrid, On;
    forall x, y | 0 <= x < 20 && 0 <= y < 15
      ensures InGrid(after, x, y) <==> InGrid(before, x, y) && !InZone(zones, x, y)
    {
      InZoneIsPrivate(zones, x, y);
      OnIsInGrid(before, x, y);
      OnIsInGrid(after, x, y);
    }
  }

  lemma NothingMasked(before: seq<Word>)
    requires |before| == MASKS && Micros(before)
    ensures Masked(before, before, [])
  {
    hide On;
  }

  lemma ZoneBegins(before: seq<Word>, now: seq<Word>, zones: seq<Zone>, z: Zone)
    requires Masked(before, now, zones)
    ensures Off(before, now, zones, z, z.x as nat, z.y as nat)
  {
    hide On, Private;
  }

  lemma RowEnds(before: seq<Word>, now: seq<Word>, zones: seq<Zone>, z: Zone, y: nat)
    requires Off(before, now, zones, z, z.x as nat + z.w as nat, y)
    ensures Off(before, now, zones, z, z.x as nat, y + 1)
  {
    hide On, Private;
  }

  lemma ZoneEnds(before: seq<Word>, now: seq<Word>, zones: seq<Zone>, i: nat)
    requires i < |zones|
    requires Off(before, now, zones[..i], zones[i], zones[i].x as nat, zones[i].y as nat + zones[i].h as nat)
    ensures Masked(before, now, zones[..i + 1])
  {
    hide On;
    assert zones[..i + 1] == zones[..i] + [zones[i]];
    forall p, q | 0 <= p < WIDTH && 0 <= q < HEIGHT
      ensures Private(zones[..i + 1], p, q) == (Private(zones[..i], p, q) || Covers(zones[i], p, q))
    {
      PrivateOneMore(zones[..i], zones[i], p, q);
    }
    hide Private;
  }

  lemma PrivateOneMore(zones: seq<Zone>, z: Zone, x: nat, y: nat)
    ensures Private(zones + [z], x, y) == (Private(zones, x, y) || Covers(z, x, y))
  {
    hide Covers;
    if w :| w in zones && Covers(w, x, y) {
      assert w in zones + [z];
    }
    assert z in zones + [z];
  }

  // ---------- accepting an update

  datatype Zones = Zones(masks: seq<Word>, zones: seq<Zone>, supported: bool)

  /** Some cell is on outside every zone. */
  ghost predicate SomeCellLeft(masks: seq<Word>, zones: seq<Zone>)
    requires |masks| == MASKS
  {
    exists x, y :: 0 <= x < WIDTH && 0 <= y < HEIGHT && On(masks, x, y) && !Private(zones, x, y)
  }

  /** Well formed, allowed for the camera, and leaving some cell on. */
  ghost predicate Accepts(before: Zones, masks: seq<Word>, zones: seq<Zone>) {
    && |masks| == MASKS && Micros(masks) && ValidPrivacy(zones)
    && (before.supported || zones == before.zones)
    && SomeCellLeft(masks, zones)
  }

  /** After masking, all masks are zero exactly when no cell was left. */
  lemma AllZeroIff(before: seq<Word>, after: seq<Word>, zones: seq<Zone>)
    requires Masked(before, after, zones)
    ensures (forall i :: 0 <= i < MASKS ==> after[i] == {}) <==> !SomeCellLeft(before, zones)
  {
    hide Basic, Micro, Column, Row, Private;
    if SomeCellLeft(before, zones) {
      var x, y :| 0 <= x < WIDTH && 0 <= y < HEIGHT && On(before, x, y) && !Private(zones, x, y);
      assert On(after, x, y);
      assert Micro(x, y) in after[Basic(x, y)];
    } else {
      forall i | 0 <= i < MASKS
        ensures after[i] == {}
      {
        assert after[i] in after;
        forall k: nat
          ensures k !in after[i]
        {
          if k < 12 {
            BitOfCell(i, k);
            assert !On(after, Column(i, k), Row(i, k));
          }
        }
      }
    }
  }

  /** At most two zones, none empty, none beyond 20 columns and 15 rows. */
  predicate WithinGrid(zones: seq<Zone>) {
    && |zones| <= 2
    && forall i :: 0 <= i < |zones| ==>
         && zones[i].w as int > 0 && zones[i].h as int > 0
         && zones[i].x as int + zones[i].w as int <= 20 && zones[i].y as int + zones[i].h as int <= 15
  }

  /** An update is accepted exactly for 25 words of 12 bits, zones within the grid that may be set, and a cell left. */
  lemma AcceptsMeans(before: Zones, masks: seq<Word>, zones: seq<Zone>)
    ensures Accepts(before, masks, zones) <==>
              && |masks| == 25 && (forall m, k :: m in masks && k in m ==> k < 12)
              && WithinGrid(zones) && (before.supported || zones == before.zones)
              && exists x, y :: 0 <= x < 20 && 0 <= y < 15 && InGrid(masks, x, y) && !InZone(zones, x, y)
  {
    hide Private, InZone, InGrid, WithinGrid, ValidPrivacy, Micros, SomeCellLeft;
    WellFormedMeans(masks, zones);
    if |masks| == 25 {
      CellLeftMeans(masks, zones);
    }
  }

  lemma WellFormedMeans(masks: seq<Word>, zones: seq<Zone>)
    ensures Micros(masks) <==> forall m, k :: m in masks && k in m ==> k < 12
    ensures ValidPrivacy(zones) <==> WithinGrid(zones)
  {
    assert forall i :: 0 <= i < |zones| ==> zones[i] in zones;
  }

  lemma CellLeftMeans(masks: seq<Word>, zones: seq<Zone>)
    requires |masks| == 25
    ensures SomeCellLeft(masks, zones)
            <==> exists x, y :: 0 <= x < 20 && 0 <= y < 15 && InGrid(masks, x, y) && !InZone(zones, x, y)
  {
    hide Private, InZone, InGrid, On;
    if SomeCellLeft(masks, zones) {
      var x, y :| 0 <= x < WIDTH && 0 <= y < HEIGHT && On(masks, x, y) && !Private(zones, x, y);
      OnIsInGrid(masks, x, y);
      InZoneIsPrivate(zones, x, y);
    }
    if x, y :| 0 <= x < 20 && 0 <= y < 15 && InGrid(masks, x, y) && !InZone(zones, x, y) {
      OnIsInGrid(masks, x, y);
      InZoneIsPrivate(zones, x, y);
    }
  }

  method ValidatedUpdate(before: Zones, masks: seq<Word>, zones: seq<Zone>) returns (r: Result<Zones, ZoneError>)
    ensures r.Ok? <==> Accepts(before, masks, zones)
    ensures r.Ok? ==>
              Masked(masks, r.value.masks, zones) && r.value.zones == zones && r.value.supported == before.supported
    ensures r == Err(SettingsUnsupported) <==>
              && |masks| == MASKS && Micros(masks) && ValidPrivacy(zones)
              && !before.supported && zones != before.zones
  {
    hide On, Masked, SomeCellLeft, ValidPrivacy;
    if |masks| != MASKS || exists m :: m in masks && !(m <= MICRO_MASK) {
      return Err(InvalidSetting);
    }
    if !ValidPrivacy(zones) {
      return Err(InvalidSetting);
    }
    if !before.supported && zones != before.zones {
      return Err(SettingsUnsupported);
    }
    var grid := new Word[MASKS](i requires 0 <= i < MASKS => masks[i]);
    assert grid[..] == masks;
    ApplyPrivacy(grid, zones);
    AllZeroIff(masks, grid[..], zones);
    if forall i :: 0 <= i < MASKS ==> grid[i] == {} {
      return Err(InvalidSetting);
    }
    r := Ok(Zones(grid[..], zones, before.supported));
  }

  /** What was accepted is accepted again, and comes out unchanged. */
  lemma AcceptedIsAFixpoint(before: Zones, masks: seq<Word>, zones: seq<Zone>, after: Zones, again: seq<Word>)
    requires Accepts(before, masks, zones) && Masked(masks, after.masks, zones)
    requires after.zones == zones && after.supported == before.supported
    requires Masked(after.masks, again, zones)
    ensures Accepts(after, after.masks, after.zones) && again == after.masks
  {
    MaskingIsIdempotent(masks, after.masks, again, zones);
    hide On, Private;
    var x, y :| 0 <= x < WIDTH && 0 <= y < HEIGHT && On(masks, x, y) && !Private(zones, x, y);
    assert On(after.masks, x, y) && !Private(zones, x, y);
  }

  // ---------- the motion word

  /** Bit i says whether mask i has a cell on, bit 30 whether any mask is not full; the provider's bits stay. */
  method UpdateBody(original: Word, masks: seq<Word>) returns (motion: Word)
    requires |masks| == MASKS
    ensures forall i :: 0 <= i < 25 ==> (i in motion <==> masks[i] != {})
    ensures 30 in motion <==> exists m :: m in masks && m != MICRO_MASK
    ensures forall k :: k >= 25 && k != 30 ==> (k in motion <==> k in original)
  {
    motion := original - REGIONS - {RESTRICTED};
    for index := 0 to MASKS
      invariant forall i :: 0 <= i < MASKS ==> (i in motion <==> i < index && masks[i] != {})
      invariant RESTRICTED !in motion
      invariant forall k :: k >= 25 && k != 30 ==> (k in motion <==> k in original)
    {
      if masks[index] != {} {
        motion := motion + {index};
      }
    }
    if exists m :: m in masks && m != MICRO_MASK {
      motion := motion + {RESTRICTED};
    }
  }

  /** A camera with every cell on is unrestricted; reading the word back tells which masks are in use. */
  lemma FullGridIsUnrestricted(masks: seq<Word>, motion: Word)
    requires |masks| == MASKS && Micros(masks)
    requires 30 in motion <==> exists m :: m in masks && m != MICRO_MASK
    ensures 30 !in motion <==> forall x, y :: 0 <= x < 20 && 0 <= y < 15 ==> InGrid(masks, x, y)
  {
    hide Basic, Micro, Column, Row, InGrid;
    if RESTRICTED in motion {
      var i :| 0 <= i < MASKS && masks[i] != MICRO_MASK;
      assert masks[i] in masks;
      assert !(MICRO_MASK <= masks[i]);
      var k :| k in MICRO_MASK && k !in masks[i];
      BitOfCell(i, k);
      var x, y := Column(i, k), Row(i, k);
      OnIsInGrid(masks, x, y);
    } else {
      forall x, y | 0 <= x < 20 && 0 <= y < 15
        ensures InGrid(masks, x, y)
      {
        OnIsInGrid(masks, x, y);
        assert masks[Basic(x, y)] in masks;
        assert Micro(x, y) in MICRO_MASK;
      }
    }
  }
}
