/**
 * Stable aliases: a camera keeps the alias it was first given, absent cameras keep theirs reserved, and a new camera
 * gets a fresh one made from its name and, if taken, the first free number.
 */
module AliasStore {
  import opened Wrappers

  datatype Camera = Camera(id: string, alias: string)

  datatype StoreError = Encoding | Payload | Io

  /** How a read of the file ends; a missing file reads as the empty map. */
  datatype Read = Readable | Malformed | Unreadable

  /** How a save ends: written, left alone, or replaced before the directory sync failed. */
  datatype Save = Synced | Failed | Unsynced

  const LONGEST: nat := 64
  const BASE_LENGTH: nat := 54

  predicate AliasChar(c: char) {
    'a' <= c <= 'z' || '0' <= c <= '9' || c == '_' || c == '-'
  }

  predicate Valid(alias: string) {
    0 < |alias| <= LONGEST && forall c :: c in alias ==> AliasChar(c)
  }

  /** A valid alias has 1 to 64 characters: a to z, 0 to 9, hyphen or underscore, by their codes. */
  lemma ValidIff(alias: string)
    ensures Valid(alias) <==>
              && 1 <= |alias| <= 64
              && forall c :: c in alias ==>
                   0x61 <= c as int <= 0x7a || 0x30 <= c as int <= 0x39 || c as int == 0x2d || c as int == 0x5f
  {
  }

  /** What `load` accepts: every alias valid, no two cameras with one alias. */
  ghost predicate Loadable(aliases: map<string, string>) {
    && (forall id :: id in aliases ==> Valid(aliases[id]))
    && Injective(aliases)
  }

  ghost predicate Injective(aliases: map<string, string>) {
    forall a, b :: a in aliases && b in aliases && aliases[a] == aliases[b] ==> a == b
  }

  // ---------- numbered names

  function Digit(d: nat): char
    requires d < 10
  {
    (d + '0' as int) as char
  }

  function Decimal(n: nat): (s: string)
    ensures |s| > 0 && forall c :: c in s ==> '0' <= c <= '9'
  {
    if n < 10 then [Digit(n)] else Decimal(n / 10) + [Digit(n % 10)]
  }

  function Value(s: string): nat {
    if s == "" then 0
    else 10 * Value(s[..|s| - 1]) + if '0' <= s[|s| - 1] <= '9' then (s[|s| - 1] as int - '0' as int) as nat else 0
  }

  lemma {:induction false} DecimalReadsBack(n: nat)
    ensures Value(Decimal(n)) == n
    decreases n
  {
    if n >= 10 {
      DecimalReadsBack(n / 10);
      assert Decimal(n)[..|Decimal(n)| - 1] == Decimal(n / 10);
    } else {
      assert [Digit(n)][..0] == "";
    }
  }

  function PowerOfTen(k: nat): nat {
    if k == 0 then 1 else 10 * PowerOfTen(k - 1)
  }

  lemma {:induction false} DecimalLength(n: nat, k: nat)
    requires k > 0 && n < PowerOfTen(k)
    ensures |Decimal(n)| <= k
    decreases k
  {
    if n >= 10 {
      assert k > 1;
      DecimalLength(n / 10, k - 1);
    }
  }

  function Candidate(base: string, suffix: nat): string {
    base + "_" + Decimal(suffix)
  }

  lemma CandidatesDiffer(base: string, m: nat, n: nat)
    requires Candidate(base, m) == Candidate(base, n)
    ensures m == n
  {
    assert Candidate(base, m)[|base| + 1..] == Decimal(m);
    assert Candidate(base, n)[|base| + 1..] == Decimal(n);
    DecimalReadsBack(m);
    DecimalReadsBack(n);
  }

  lemma CandidateIsValid(base: string, suffix: nat)
    requires Valid(base) && |base| <= BASE_LENGTH && suffix < 1_000_000_000
    ensures Valid(Candidate(base, suffix))
  {
    assert PowerOfTen(9) == 1_000_000_000 by {
      assert PowerOfTen(3) == 1000;
      assert PowerOfTen(6) == 1000_000;
    }
    DecimalLength(suffix, 9);
    forall c | c in Candidate(base, suffix)
      ensures AliasChar(c)
    {
      assert c in base || c == '_' || c in Decimal(suffix);
    }
  }

  function Base(preferred: string): (base: string)
    ensures Valid(base) && |base| <= BASE_LENGTH
  {
    var short := if |preferred| <= BASE_LENGTH then preferred else preferred[..BASE_LENGTH];
    if Valid(short) then short else "camera"
  }

  ghost function Tried(base: string, suffix: nat): set<string> {
    set n | 2 <= n < suffix :: Candidate(base, n)
  }

  lemma {:induction false} TriedAreMany(base: string, suffix: nat)
    requires suffix >= 2
    ensures |Tried(base, suffix)| == suffix - 2
    decreases suffix
  {
    if suffix == 2 {
      assert Tried(base, 2) == {};
    } else {
      TriedAreMany(base, suffix - 1);
      forall x
        ensures x in Tried(base, suffix) <==> x in Tried(base, suffix - 1) || x == Candidate(base, suffix - 1)
      {
        if x in Tried(base, suffix) {
          var n :| 2 <= n < suffix && x == Candidate(base, n);
        }
      }
      assert Tried(base, suffix) == Tried(base, suffix - 1) + {Candidate(base, suffix - 1)};
      if Candidate(base, suffix - 1) in Tried(base, suffix - 1) {
        var n :| 2 <= n < suffix - 1 && Candidate(base, suffix - 1) == Candidate(base, n);
        CandidatesDiffer(base, suffix - 1, n);
      }
    }
  }

  /** More names were tried than are taken: one of them is free. */
  lemma Pigeonhole(base: string, suffix: nat, used: set<string>)
    requires suffix >= 2 && forall n :: 2 <= n < suffix ==> Candidate(base, n) in used
    ensures suffix - 2 <= |used|
  {
    TriedAreMany(base, suffix);
    assert Tried(base, suffix) <= used;
    SubsetIsSmaller(Tried(base, suffix), used);
  }

  /** A free name; the search ends within one try more than there are names in use. */
  method Unique(preferred: string, used: set<string>) returns (alias: string)
    ensures alias !in used
    ensures var short := if |preferred| <= 54 then preferred else preferred[..54];
            var base := if short != "" && forall c :: c in short ==>
                             'a' <= c <= 'z' || '0' <= c <= '9' || c == '_' || c == '-'
                        then short else "camera";
            alias == base
            || (base in used
                && exists n :: 2 <= n <= |used| + 2 && alias == base + "_" + Decimal(n)
                               && forall m :: 2 <= m < n ==> base + "_" + Decimal(m) in used)
    ensures |used| + 2 < 1_000_000_000 ==> Valid(alias)
  {
    var base := Base(preferred);
    if base !in used {
      return base;
    }
    var suffix := 2;
    alias := Candidate(base, suffix);
    Pigeonhole(base, suffix, used);
    while alias in used
      invariant 2 <= suffix <= |used| + 2 && alias == Candidate(base, suffix)
      invariant forall m :: 2 <= m < suffix ==> Candidate(base, m) in used
      decreases |used| + 2 - suffix
    {
      Pigeonhole(base, suffix + 1, used);
      suffix := suffix + 1;
      alias := Candidate(base, suffix);
    }
    forall m | 2 <= m < suffix
      ensures base + "_" + Decimal(m) in used
    {
      assert Candidate(base, m) in used;
    }
    assert alias == base + "_" + Decimal(suffix);
    if |used| + 2 < 1_000_000_000 {
      CandidateIsValid(base, suffix);
    }
  }

  // ---------- reconciling

  ghost predicate DistinctIds(cameras: seq<Camera>) {
    forall i, j :: 0 <= i < j < |cameras| ==> cameras[i].id != cameras[j].id
  }

  /** The aliases after the first cameras of a list were looked at. */
  ghost predicate Extends(previous: map<string, string>, aliases: map<string, string>, cameras: seq<Camera>) {
    && (forall id :: id in previous ==> id in aliases && aliases[id] == previous[id])
    && (forall id :: id in aliases ==> id in previous || exists i :: 0 <= i < |cameras| && cameras[i].id == id)
    && (forall i :: 0 <= i < |cameras| ==> cameras[i].id in aliases && cameras[i].alias == aliases[cameras[i].id])
    && Injective(aliases)
  }

  lemma ExtendsOneMore(previous: map<string, string>, aliases: map<string, string>, cameras: seq<Camera>, c: Camera)
    requires Extends(previous, aliases, cameras)
    requires forall i :: 0 <= i < |cameras| ==> cameras[i].id != c.id
    requires if c.id in previous then c.alias == previous[c.id]
             else forall id :: id in aliases ==> aliases[id] != c.alias
    ensures Extends(previous, aliases[c.id := c.alias], cameras + [c])
  {
    var all := cameras + [c];
    assert all[|cameras|] == c && forall i :: 0 <= i < |cameras| ==> all[i] == cameras[i];
    forall id | id in aliases[c.id := c.alias]
      ensures id in previous || exists i :: 0 <= i < |all| && all[i].id == id
    {
      if id != c.id && id !in previous {
        var i :| 0 <= i < |cameras| && cameras[i].id == id;
        assert all[i].id == id;
      }
    }
  }

  ghost predicate Owned(stored: map<string, string>, seen: set<string>, owners: set<string>) {
    forall alias :: alias in owners <==> exists id :: id in seen && id in stored && stored[id] == alias
  }

  /** The part of the stored map already looked at: valid aliases, each owned once. */
  ghost predicate Checked(stored: map<string, string>, seen: set<string>, owners: set<string>) {
    && seen <= stored.Keys && |owners| == |seen| && Owned(stored, seen, owners)
    && (forall id :: id in seen ==> Valid(stored[id]))
    && (forall a, b :: a in seen && b in seen && stored[a] == stored[b] ==> a == b)
  }

  lemma OwnedOneMore(stored: map<string, string>, seen: set<string>, owners: set<string>, id: string)
    requires Owned(stored, seen, owners) && id in stored
    ensures Owned(stored, seen + {id}, owners + {stored[id]})
  {
    forall alias
      ensures alias in owners + {stored[id]} <==> exists x :: x in seen + {id} && x in stored && stored[x] == alias
    {
      if alias in owners {
        var x :| x in seen && x in stored && stored[x] == alias;
        assert x in seen + {id};
      } else if alias == stored[id] {
        assert id in seen + {id};
      }
    }
  }

  lemma OwnerIsSeen(stored: map<string, string>, seen: set<string>, owners: set<string>, id: string)
    requires Owned(stored, seen, owners) && id in seen && id in stored
    ensures stored[id] in owners
  {
  }

  lemma CheckedOneMore(stored: map<string, string>, seen: set<string>, owners: set<string>, id: string)
    requires Checked(stored, seen, owners) && id in stored && id !in seen
    requires Valid(stored[id]) && stored[id] !in owners
    ensures Checked(stored, seen + {id}, owners + {stored[id]})
  {
    OwnedOneMore(stored, seen, owners, id);
    forall x | x in seen
      ensures stored[x] != stored[id]
    {
      OwnerIsSeen(stored, seen, owners, x);
    }
    hide Valid, Owned;
  }

  lemma NothingChecked(stored: map<string, string>)
    ensures Checked(stored, {}, {})
  {
  }

  lemma Clash(stored: map<string, string>, seen: set<string>, owners: set<string>, id: string)
    requires Checked(stored, seen, owners) && id in stored && id !in seen
    requires !Valid(stored[id]) || stored[id] in owners
    ensures !Loadable(stored)
  {
    hide Valid;
    if stored[id] in owners {
      var x :| x in seen && x in stored && stored[x] == stored[id];
      assert x != id;
    }
  }

  lemma CheckedAll(stored: map<string, string>, owners: set<string>)
    requires Checked(stored, stored.Keys, owners)
    ensures Loadable(stored) && owners == stored.Values && |owners| == |stored|
  {
    assert forall alias :: alias in owners <==> alias in stored.Values;
  }

  /** The names in use, the aliases so far, and the cameras dealt with. */
  ghost predicate Progress(
      previous: map<string, string>, aliases: map<string, string>, used: set<string>, done: seq<Camera>, few: bool) {
    && Extends(previous, aliases, done) && DistinctIds(done)
    && (forall id :: id in aliases ==> aliases[id] in used)
    && |used| <= |previous| + |done|
    && (few ==> forall id :: id in aliases ==> Valid(aliases[id]))
    && ((forall i :: 0 <= i < |done| ==> done[i].id in previous) ==> aliases == previous)
  }

  lemma ProgressStarts(previous: map<string, string>, used: set<string>, few: bool)
    requires Loadable(previous) && used == previous.Values && |used| == |previous|
    ensures Progress(previous, previous, used, [], few)
  {
    hide Valid;
  }

  lemma DistinctOneMore(done: seq<Camera>, c: Camera)
    requires DistinctIds(done) && forall i :: 0 <= i < |done| ==> done[i].id != c.id
    ensures DistinctIds(done + [c])
  {
  }

  lemma KnownOneMore(previous: map<string, string>, aliases: map<string, string>, done: seq<Camera>, c: Camera)
    requires Extends(previous, aliases, done)
    requires (forall i :: 0 <= i < |done| ==> done[i].id in previous) ==> aliases == previous
    requires c.id in previous ==> c.alias == previous[c.id]
    ensures (forall i :: 0 <= i < |done + [c]| ==> (done + [c])[i].id in previous) ==>
              aliases[c.id := c.alias] == previous
  {
    var all := done + [c];
    hide Injective;
    if forall i :: 0 <= i < |all| ==> all[i].id in previous {
      forall i | 0 <= i < |done|
        ensures done[i].id in previous
      {
        assert all[i] == done[i];
      }
      assert all[|done|] == c;
    }
  }

  lemma ProgressOneMore(previous: map<string, string>, aliases: map<string, string>, used: set<string>,
                        done: seq<Camera>, few: bool, c: Camera)
    requires Progress(previous, aliases, used, done, few)
    requires forall i :: 0 <= i < |done| ==> done[i].id != c.id
    requires if c.id in previous then c.alias == previous[c.id] else c.alias !in used && (few ==> Valid(c.alias))
    ensures Progress(previous, aliases[c.id := c.alias], used + {c.alias}, done + [c], few)
  {
    ExtendsOneMore(previous, aliases, done, c);
    DistinctOneMore(done, c);
    KnownOneMore(previous, aliases, done, c);
    PreviousIsUsed(previous, aliases, used, done, c.id);
    UsedOneMore(aliases, used, few, c);
    hide Valid, Extends, DistinctIds;
  }

  lemma UsedOneMore(aliases: map<string, string>, used: set<string>, few: bool, c: Camera)
    requires forall id :: id in aliases ==> aliases[id] in used
    requires few ==> forall id :: id in aliases ==> Valid(aliases[id])
    requires if c.alias in used then c.id in aliases && aliases[c.id] == c.alias else few ==> Valid(c.alias)
    ensures var after := aliases[c.id := c.alias];
            && (forall id :: id in after ==> after[id] in used + {c.alias})
            && (few ==> forall id :: id in after ==> Valid(after[id]))
    ensures |used + {c.alias}| <= |used| + 1
  {
    hide Valid;
  }

  /** Remembered aliases are in use, and stay valid as long as all are. */
  lemma PreviousIsUsed(previous: map<string, string>, aliases: map<string, string>, used: set<string>,
                       done: seq<Camera>, id: string)
    requires Extends(previous, aliases, done) && (forall x :: x in aliases ==> aliases[x] in used)
    ensures id in previous ==> previous[id] in used && id in aliases && aliases[id] == previous[id]
  {
  }

  class Store {
    var stored: map<string, string>

    constructor (stored: map<string, string>)
      ensures this.stored == stored
    {
      this.stored := stored;
    }

    /** The aliases on disk, if `load` accepts them, and the set of names in use. */
    method Load(read: Read) returns (r: Result<set<string>, StoreError>)
      ensures r.Ok? <==> read.Readable? && Loadable(stored)
      ensures r.Ok? ==> r.value == stored.Values && |r.value| == |stored|
      ensures r.Err? ==> r.error == match read case Readable => Encoding case Malformed => Payload case Unreadable => Io
    {
      hide Valid, Checked, Loadable;
      if !read.Readable? {
        return Err(if read.Malformed? then Payload else Io);
      }
      var left := stored.Keys;
      var owners: set<string> := {};
      NothingChecked(stored);
      assert stored.Keys - left == {};
      while left != {}
        invariant left <= stored.Keys && Checked(stored, stored.Keys - left, owners)
        decreases |left|
      {
        var id :| id in left;
        if !Valid(stored[id]) || stored[id] in owners {
          Clash(stored, stored.Keys - left, owners, id);
          return Err(Encoding);
        }
        CheckedOneMore(stored, stored.Keys - left, owners, id);
        assert stored.Keys - left + {id} == stored.Keys - (left - {id});
        left := left - {id};
        owners := owners + {stored[id]};
      }
      assert stored.Keys - left == stored.Keys;
      CheckedAll(stored, owners);
      return Ok(owners);
    }

    /**
     * Every listed camera gets its remembered alias, or a new one that no other camera, present or remembered, has.
     * Remembered aliases never change, and what is saved is accepted by the next load.
     */
    method Reconcile(cameras: array<Camera>, read: Read, save: Save) returns (r: Result<(), StoreError>)
      modifies this, cameras
      ensures forall i :: 0 <= i < cameras.Length ==> cameras[i].id == old(cameras[i].id)
      ensures r.Ok? <==>
                && read.Readable? && Loadable(old(stored)) && DistinctIds(old(cameras[..]))
                && (save.Synced? || forall i :: 0 <= i < cameras.Length ==> old(cameras[i]).id in old(stored))
      ensures r.Ok? ==> Extends(old(stored), stored, cameras[..])
      ensures r.Ok? && |old(stored)| + cameras.Length + 2 < 1_000_000_000 ==> Loadable(stored)
      ensures (r.Ok? && forall i :: 0 <= i < cameras.Length ==> old(cameras[i]).id in old(stored)) ==>
                stored == old(stored)
      ensures r.Err? ==> stored == old(stored) || (save.Unsynced? && Extends(old(stored), stored, cameras[..]))
    {
      hide Valid, Extends, Progress, Loadable;
      var loaded := Load(read);
      if loaded.Err? {
        return Err(loaded.error);
      }
      var previous := stored;
      var aliases := stored;
      var used := loaded.value;
      ghost var few := |previous| + cameras.Length + 2 < 1_000_000_000;
      ProgressStarts(previous, used, few);
      assert cameras[..0] == [];
      for i := 0 to cameras.Length
        invariant stored == previous == old(stored)
        invariant forall j :: 0 <= j < cameras.Length ==> cameras[j].id == old(cameras[j].id)
        invariant Progress(previous, aliases, used, cameras[..i], few)
      {
        var camera := cameras[i];
        if exists j :: 0 <= j < i && cameras[j].id == camera.id {
          assert !DistinctIds(old(cameras[..]));
          return Err(Encoding);
        }
        var preferred: string;
        if camera.id in previous {
          preferred := previous[camera.id];
        } else {
          preferred := Unique(camera.alias, used);
          ProgressBounds(previous, aliases, used, cameras[..i], few);
        }
        ProgressOneMore(previous, aliases, used, cameras[..i], few, Camera(camera.id, preferred));
        used := used + {preferred};
        cameras[i] := Camera(camera.id, preferred);
        assert cameras[..i + 1] == cameras[..i] + [Camera(camera.id, preferred)];
        aliases := aliases[camera.id := preferred];
      }
      assert cameras[..cameras.Length] == cameras[..];
      ProgressMeans(previous, aliases, used, cameras[..], few);
      SameIdsDistinct(cameras[..], old(cameras[..]));
      AliasesChangeIff(previous, aliases, cameras[..], used, few);
      if aliases != previous {
        if !save.Failed? {
          stored := aliases;
        }
        if !save.Synced? {
          return Err(Io);
        }
      }
      return Ok(());
    }
  }

  lemma ProgressBounds(previous: map<string, string>, aliases: map<string, string>, used: set<string>,
                       done: seq<Camera>, few: bool)
    requires Progress(previous, aliases, used, done, few)
    ensures |used| <= |previous| + |done|
  {
  }

  lemma ProgressMeans(previous: map<string, string>, aliases: map<string, string>, used: set<string>,
                      done: seq<Camera>, few: bool)
    requires Progress(previous, aliases, used, done, few)
    ensures Extends(previous, aliases, done) && DistinctIds(done) && (few ==> Loadable(aliases))
  {
    hide Valid;
  }

  lemma SameIdsDistinct(a: seq<Camera>, b: seq<Camera>)
    requires |a| == |b| && forall i :: 0 <= i < |a| ==> a[i].id == b[i].id
    ensures DistinctIds(a) == DistinctIds(b)
  {
  }

  /** Something is saved exactly when a listed camera was not remembered. */
  lemma AliasesChangeIff(previous: map<string, string>, aliases: map<string, string>, done: seq<Camera>,
                         used: set<string>, few: bool)
    requires Progress(previous, aliases, used, done, few)
    ensures aliases == previous <==> forall i :: 0 <= i < |done| ==> done[i].id in previous
  {
    hide Valid;
  }

  /** Reconciling the same cameras again changes nothing and saves nothing. */
  lemma AgainIsTheSame(previous: map<string, string>, aliases: map<string, string>, cameras: seq<Camera>,
                       after: map<string, string>, again: seq<Camera>)
    requires Extends(previous, aliases, cameras) && Extends(aliases, after, again) && |again| == |cameras|
    requires forall i :: 0 <= i < |cameras| ==> again[i].id == cameras[i].id
    ensures after == aliases && again == cameras
  {
    forall i | 0 <= i < |cameras|
      ensures again[i] == cameras[i]
    {
      assert cameras[i].id in aliases;
    }
    assert after.Keys == aliases.Keys;
  }
}
