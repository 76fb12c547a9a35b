/**
 * When there is a plan for a camera, and in which order it writes, in terms of the fields themselves: their keys by
 * name and their values as Python compares them.
 */
module PlanRules {
  import opened Wrappers
  import opened SettingsRestore

  // ---------- values

  /** Unequal in Python: `True` equals 1 and `False` equals 0, and nothing else equals a value of another type. */
  predicate Differ(a: Py, b: Py) {
    && a != b
    && !(a == Bool(true) && b == Int(1)) && !(a == Int(1) && b == Bool(true))
    && !(a == Bool(false) && b == Int(0)) && !(a == Int(0) && b == Bool(false))
  }

  lemma DifferIsUnequal(a: Py, b: Py)
    ensures Differ(a, b) <==> !PyEq(a, b)
  {
  }

  /** Text is ordered by the first character that differs, and a text comes after its prefixes. */
  ghost predicate Precedes(a: string, b: string) {
    exists n :: 0 <= n <= |a| && n < |b| && a[..n] == b[..n] && (n == |a| || a[n] < b[n])
  }

  lemma {:induction false} TextOrder(a: string, b: string)
    ensures TextLess(a, b) <==> Precedes(a, b)
    decreases |a|
  {
    if a != [] && b != [] {
      TextOrder(a[1..], b[1..]);
      if a[0] == b[0] && Precedes(a[1..], b[1..]) {
        var n :| 0 <= n <= |a[1..]| && n < |b[1..]| && a[1..][..n] == b[1..][..n]
                 && (n == |a[1..]| || a[1..][n] < b[1..][n]);
        assert a[..n + 1] == [a[0]] + a[1..][..n] && b[..n + 1] == [b[0]] + b[1..][..n];
        assert Precedes(a, b);
      }
      if Precedes(a, b) {
        var n :| 0 <= n <= |a| && n < |b| && a[..n] == b[..n] && (n == |a| || a[n] < b[n]);
        if n > 0 {
          assert a[..n][0] == b[..n][0];
          assert a[1..][..n - 1] == a[..n][1..] && b[1..][..n - 1] == b[..n][1..];
          assert Precedes(a[1..], b[1..]);
        }
      }
      if a[0] < b[0] {
        assert a[..0] == b[..0];
      }
    } else if b != [] {
      assert a[..0] == b[..0];
    }
  }

  /** Numbers compare as numbers, `True` as 1 and `False` as 0; texts compare as texts; all else raises. */
  lemma Comparison(m: int, n: int, p: bool, q: bool, a: string, b: string)
    ensures Less(Int(m), Int(n)) == Some(m < n) && Less(Bool(p), Bool(q)) == Some(!p && q)
    ensures Less(Bool(p), Int(n)) == Some(if p then 1 < n else 0 < n)
    ensures Less(Int(m), Bool(q)) == Some(if q then m < 1 else m < 0)
    ensures Less(Text(a), Text(b)) == Some(Precedes(a, b))
    ensures Less(Null, Int(n)) == Less(Int(n), Null) == Less(Null, Null) == Less(Text(a), Int(n)) == None
    ensures Less(Int(n), Text(a)) == Less(Text(a), Bool(p)) == Less(Bool(p), Text(a)) == None
    ensures Less(Null, Text(a)) == Less(Text(a), Null) == Less(Null, Bool(p)) == Less(Bool(p), Null) == None
  {
    TextOrder(a, b);
  }

  // ---------- fields by key

  /** Of fields with the same key the last one counts. */
  lemma {:induction false} LastFieldCounts(fields: seq<Field>, i: nat)
    requires i < |fields| && forall j :: i < j < |fields| ==> fields[j].key != fields[i].key
    ensures fields[i].key in Dict(fields) && Dict(fields)[fields[i].key] == fields[i]
    decreases |fields|
  {
    var n := |fields| - 1;
    if i < n {
      LastFieldCounts(fields[..n], i);
    }
  }

  lemma {:induction false} KeysAreThere(fields: seq<Field>, key: string)
    ensures key in Dict(fields) <==> exists i :: 0 <= i < |fields| && fields[i].key == key
    decreases |fields|
  {
    if fields != [] {
      var n := |fields| - 1;
      KeysAreThere(fields[..n], key);
      if i :| 0 <= i < |fields[..n]| && fields[..n][i].key == key {
        assert fields[i].key == key;
      }
    }
  }

  /** The keys are listed in the order of their first fields. */
  lemma {:induction false} FirstFieldOrders(fields: seq<Field>, i: nat, j: nat) returns (p: nat, q: nat)
    requires i < j < |fields|
    requires forall h :: 0 <= h < i ==> fields[h].key != fields[i].key
    requires forall h :: 0 <= h < j ==> fields[h].key != fields[j].key
    ensures p < q < |Keys(fields)| && Keys(fields)[p] == fields[i].key && Keys(fields)[q] == fields[j].key
    decreases |fields|
  {
    var n := |fields| - 1;
    if j < n {
      p, q := FirstFieldOrders(fields[..n], i, j);
    } else {
      KeysOfDict(fields[..n]);
      KeysAreThere(fields[..n], fields[j].key);
      KeysAreThere(fields[..n], fields[i].key);
      assert fields[..n][i].key in Dict(fields[..n]);
      assert fields[i].key in Keys(fields[..n]);
      p :| 0 <= p < |Keys(fields[..n])| && Keys(fields[..n])[p] == fields[i].key;
      q := |Keys(fields[..n])|;
    }
  }

  // ---------- when there is a plan

  predicate Writable(current: map<string, Field>, key: string) {
    key in current && current[key].writable
  }

  /** A threshold that is to change and is null now or in the backup. */
  predicate Unset(current: map<string, Field>, saved: map<string, Field>, key: string)
    requires key in current && key in saved
  {
    && (key == "temperature_min" || key == "temperature_max")
    && Differ(current[key].value, saved[key].value) && (current[key].value == Null || saved[key].value == Null)
  }

  /** A saved key stops the plan. */
  predicate Stops(current: map<string, Field>, saved: map<string, Field>, key: string)
    requires key in saved
  {
    !Writable(current, key) || Unset(current, saved, key)
  }

  /** A threshold is saved as a number, which a Python `bool` is too. */
  predicate SavedNumber(saved: map<string, Field>, key: string) {
    key in saved && (saved[key].value.Int? || saved[key].value.Bool?)
  }

  /** Alerts are to be on while a threshold is not saved as a number. */
  predicate AlertsWithoutThresholds(saved: map<string, Field>) {
    && "temperature_alerts" in saved && saved["temperature_alerts"].value == Bool(true)
    && (!SavedNumber(saved, "temperature_min") || !SavedNumber(saved, "temperature_max"))
  }

  /** A threshold that is to change between a number and a text, which Python does not compare. */
  predicate Mixed(current: map<string, Field>, saved: map<string, Field>, key: string) {
    key in saved && key in current && (current[key].value.Text? <==> !saved[key].value.Text?)
  }

  lemma StopsMeans(current: map<string, Field>, saved: map<string, Field>, key: string)
    requires key in saved
    ensures var error := ItemError(current, key, saved[key].value);
            if !Stops(current, saved, key) then error == None
            else error == Some(if Writable(current, key) then Uninitialised else NotWritable)
  {
    if key in current {
      DifferIsUnequal(current[key].value, saved[key].value);
    }
    hide PyEq, Differ;
  }

  lemma {:induction false} FirstStop(current: map<string, Field>, saved: map<string, Field>, keys: seq<string>)
    requires forall key :: key in keys ==> key in saved
    ensures match FirstError(current, saved, keys)
            case None => forall key :: key in keys ==> !Stops(current, saved, key)
            case Some(e) =>
              exists i :: 0 <= i < |keys| && Stops(current, saved, keys[i])
                          && (forall h :: 0 <= h < i ==> !Stops(current, saved, keys[h]))
                          && e == if Writable(current, keys[i]) then Uninitialised else NotWritable
    decreases |keys|
  {
    hide Stops, ItemError, Writable;
    if keys != [] {
      StopsMeans(current, saved, keys[0]);
      assert forall key :: key in keys <==> key == keys[0] || key in keys[1..];
      FirstStop(current, saved, keys[1..]);
      if ItemError(current, keys[0], saved[keys[0]].value).None? && FirstError(current, saved, keys[1..]).Some? {
        var e := FirstError(current, saved, keys[1..]).value;
        var i :| 0 <= i < |keys[1..]| && Stops(current, saved, keys[1..][i])
                 && (forall h :: 0 <= h < i ==> !Stops(current, saved, keys[1..][h]))
                 && e == if Writable(current, keys[1..][i]) then Uninitialised else NotWritable;
        assert keys[i + 1] == keys[1..][i];
        assert forall h :: 0 < h < i + 1 ==> keys[h] == keys[1..][h - 1];
        assert FirstError(current, saved, keys) == Some(e);
      }
    }
  }

  /**
   * There is a plan iff every saved key can be written, no threshold that changes is unset, alerts are not to be on
   * without thresholds saved as numbers, and no threshold changes between a number and a text. Otherwise the first
   * saved key that stops the plan gives the error, and the last two conditions come after it in this order.
   */
  lemma PlanExistsIff(currentFields: seq<Field>, savedFields: seq<Field>)
    ensures var current, saved, keys := Dict(currentFields), Dict(savedFields), Keys(savedFields);
            var plan := RestorePlan(currentFields, savedFields);
            var stopped := exists key :: key in saved && Stops(current, saved, key);
            var mixed := Mixed(current, saved, "temperature_min") || Mixed(current, saved, "temperature_max");
            && (plan.Ok? <==> !stopped && !AlertsWithoutThresholds(saved) && !mixed)
            && (stopped ==> exists i :: 0 <= i < |keys| && keys[i] in saved && Stops(current, saved, keys[i])
                                        && (forall h :: 0 <= h < i ==>
                                              keys[h] in saved && !Stops(current, saved, keys[h]))
                                        && plan == Err(if Writable(current, keys[i]) then Uninitialised
                                                       else NotWritable))
            && (!stopped && AlertsWithoutThresholds(saved) ==> plan == Err(AlertsNeedThresholds))
            && (!stopped && !AlertsWithoutThresholds(saved) && mixed ==> plan == Err(Incomparable))
  {
    hide Stops, Dict, Keys, AlertsAllowed, AlertsWithoutThresholds, Mixed, Rankable, Changed, FirstError, Items, Sort,
         WithRanks, Writable, RestorePlan, ItemError, Rank, PyEq;
    var current, saved, keys := Dict(currentFields), Dict(savedFields), Keys(savedFields);
    KeysOfDict(savedFields);
    FirstStop(current, saved, keys);
    PlanCases(currentFields, savedFields);
    if FirstError(current, saved, keys).None? {
      MixedIsUnrankable(current, saved, keys);
    }
    AlertsMeans(saved);
  }

  lemma PlanCases(currentFields: seq<Field>, savedFields: seq<Field>)
    ensures var current, saved, keys := Dict(currentFields), Dict(savedFields), Keys(savedFields);
            var plan := RestorePlan(currentFields, savedFields);
            && (forall key :: key in keys <==> key in saved)
            && match FirstError(current, saved, keys)
               case Some(e) => plan == Err(e)
               case None =>
                 && (forall key :: key in keys ==> key in current)
                 && (forall x :: x in Changed(current, saved, keys) <==>
                       x.key in keys && x.value == saved[x.key].value && !PyEq(current[x.key].value, x.value))
                 && var changed := Changed(current, saved, keys);
                    plan == if !AlertsAllowed(saved) then Err(AlertsNeedThresholds)
                            else if !Rankable(current, changed) then Err(Incomparable)
                            else Ok(Items(Sort(WithRanks(current, changed))))
  {
    hide Dict, Keys, AlertsAllowed, Rankable, Changed, FirstError, Items, Sort, WithRanks, Rank, PyEq;
    var current, saved, keys := Dict(currentFields), Dict(savedFields), Keys(savedFields);
    KeysOfDict(savedFields);
    NoErrorMeansWritable(current, saved, keys);
    if FirstError(current, saved, keys).None? {
      ChangedItems(current, saved, keys);
    }
  }

  lemma AlertsMeans(saved: map<string, Field>)
    ensures AlertsAllowed(saved) <==> !AlertsWithoutThresholds(saved)
  {
  }

  lemma MixedIsUnrankable(current: map<string, Field>, saved: map<string, Field>, keys: seq<string>)
    requires (forall key :: key in keys <==> key in saved) && forall key :: key in keys ==> key in current
    requires forall key :: key in saved ==> !Stops(current, saved, key)
    requires forall x :: x in Changed(current, saved, keys) <==>
               x.key in keys && x.value == saved[x.key].value && !PyEq(current[x.key].value, x.value)
    ensures Rankable(current, Changed(current, saved, keys)) <==>
              !Mixed(current, saved, "temperature_min") && !Mixed(current, saved, "temperature_max")
  {
    hide Changed;
    var changed := Changed(current, saved, keys);
    forall x | x in changed
      ensures Rank(current, x).Some?
              <==> !((x.key == "temperature_min" || x.key == "temperature_max") && Mixed(current, saved, x.key))
    {
      RankMeans(current, x);
      if x.key == "temperature_min" || x.key == "temperature_max" {
        StopsMeans(current, saved, x.key);
      }
    }
    MixedChanges(current, saved, keys, "temperature_min");
    MixedChanges(current, saved, keys, "temperature_max");
  }

  lemma MixedChanges(current: map<string, Field>, saved: map<string, Field>, keys: seq<string>, key: string)
    requires (forall k :: k in keys <==> k in saved) && forall k :: k in keys ==> k in current
    requires forall x :: x in Changed(current, saved, keys) <==>
               x.key in keys && x.value == saved[x.key].value && !PyEq(current[x.key].value, x.value)
    ensures Mixed(current, saved, key) ==> Item(key, saved[key].value) in Changed(current, saved, keys)
  {
    hide Changed;
  }

  /** Which place a write has: 0 and 4 for alerts, 1 and 3 for thresholds, 2 for everything else. */
  lemma RankMeans(current: map<string, Field>, x: Item)
    requires x.key in current
    ensures Rank(current, x).Some? <==>
              (x.key == "temperature_min" || x.key == "temperature_max") ==>
                Less(x.value, current[x.key].value).Some?
    ensures Rank(current, x).Some? ==> Rank(current, x).value == Place(current, x) - 1
  {
    hide TextLess;
  }

  // ---------- the order of a plan

  /**
   * The place of a write: alerts off, thresholds that move outwards, other settings, thresholds that move inwards or
   * stay, alerts on.
   */
  function Place(current: map<string, Field>, x: Item): int
    requires x.key in current
  {
    if x.key == "temperature_alerts" then if Off(x.value) then 0 else 4
    else if x.key == "temperature_min" then if Less(x.value, current[x.key].value) == Some(true) then 1 else 3
    else if x.key == "temperature_max" then if Less(current[x.key].value, x.value) == Some(true) then 1 else 3
    else 2
  }

  /** False in Python. */
  predicate Off(v: Py) {
    v == Null || v == Bool(false) || v == Int(0) || v == Text("")
  }

  /**
   * A plan writes by ascending place, and settings of the same place in the order in which their keys were saved.
   */
  lemma PlanOrder(currentFields: seq<Field>, savedFields: seq<Field>, i: nat, j: nat)
    requires RestorePlan(currentFields, savedFields).Ok?
    requires i < j < |RestorePlan(currentFields, savedFields).value|
    ensures var plan, current := RestorePlan(currentFields, savedFields).value, Dict(currentFields);
            && plan[i].key in current && plan[j].key in current
            && Place(current, plan[i]) <= Place(current, plan[j])
            && (Place(current, plan[i]) == Place(current, plan[j]) ==>
                  Before(Keys(savedFields), plan[i].key, plan[j].key))
  {
    hide Dict, Keys, AlertsAllowed, Changed, FirstError, Sort, WithRanks, RestorePlan, ItemError, Rank, PyEq, Place;
    PlanWritesTheDifferences(currentFields, savedFields);
    PlanCases(currentFields, savedFields);
    var current, saved, keys := Dict(currentFields), Dict(savedFields), Keys(savedFields);
    var plan := RestorePlan(currentFields, savedFields).value;
    assert plan[i] in plan && plan[j] in plan;
    RankMeans(current, plan[i]);
    RankMeans(current, plan[j]);
    assert Rank(current, plan[i]).value <= Rank(current, plan[j]).value;
    if Place(current, plan[i]) == Place(current, plan[j]) {
      SortedItems(WithRanks(current, Changed(current, saved, keys)), current, Changed(current, saved, keys), i);
      SortedItems(WithRanks(current, Changed(current, saved, keys)), current, Changed(current, saved, keys), j);
      SameRankKeepsOrder(current, saved, keys, i, j);
    }
  }

  lemma SortedItems(ranked: seq<Ranked>, current: map<string, Field>, items: seq<Item>, i: nat)
    requires Rankable(current, items) && ranked == WithRanks(current, items) && i < |Items(Sort(ranked))|
    ensures var x := Sort(ranked)[i];
            x.item == Items(Sort(ranked))[i] && x.item.key in current && Rank(current, x.item) == Some(x.rank)
  {
    SortSorts(ranked);
    SameMembers(Sort(ranked), ranked);
    hide Sort, Rank;
    assert Sort(ranked)[i] in ranked;
    var p :| 0 <= p < |ranked| && ranked[p] == Sort(ranked)[i];
    assert items[p] in items;
  }

  ghost predicate Before(keys: seq<string>, a: string, b: string) {
    exists p, q :: 0 <= p < q < |keys| && keys[p] == a && keys[q] == b
  }

  lemma SameRankKeepsOrder(current: map<string, Field>, saved: map<string, Field>, keys: seq<string>, i: nat, j: nat)
    requires forall key :: key in keys ==> key in saved && key in current
    requires Rankable(current, Changed(current, saved, keys))
    requires var sorted := Sort(WithRanks(current, Changed(current, saved, keys)));
             i < j < |sorted| && sorted[i].rank == sorted[j].rank
    ensures var sorted := Sort(WithRanks(current, Changed(current, saved, keys)));
            Before(keys, sorted[i].item.key, sorted[j].item.key)
  {
    var changed := Changed(current, saved, keys);
    var ranked := WithRanks(current, changed);
    var sorted := Sort(ranked);
    hide *;
    var rank := sorted[i].rank;
    SortIsStable(ranked, rank);
    var a, b := Picked(sorted, rank, i, j);
    var p, q := Origin(ranked, rank, a, b);
    RankedItem(current, changed, p);
    RankedItem(current, changed, q);
    ChangedInOrder(current, saved, keys, p, q);
  }

  lemma RankedItem(current: map<string, Field>, items: seq<Item>, p: nat)
    requires Rankable(current, items) && p < |items|
    ensures |WithRanks(current, items)| == |items| && WithRanks(current, items)[p].item == items[p]
  {
  }

  lemma {:induction false} Picked(s: seq<Ranked>, rank: int, i: nat, j: nat) returns (a: nat, b: nat)
    requires i < j < |s| && s[i].rank == s[j].rank == rank
    ensures a < b < |OfRank(s, rank)| && OfRank(s, rank)[a] == s[i] && OfRank(s, rank)[b] == s[j]
    decreases |s|
  {
    var n := |s| - 1;
    if j < n {
      a, b := Picked(s[..n], rank, i, j);
    } else {
      a := PickedOne(s[..n], rank, i);
      b := |OfRank(s[..n], rank)|;
    }
  }

  lemma {:induction false} PickedOne(s: seq<Ranked>, rank: int, i: nat) returns (a: nat)
    requires i < |s| && s[i].rank == rank
    ensures a < |OfRank(s, rank)| && OfRank(s, rank)[a] == s[i]
    decreases |s|
  {
    var n := |s| - 1;
    if i < n {
      a := PickedOne(s[..n], rank, i);
    } else {
      a := |OfRank(s[..n], rank)|;
    }
  }

  lemma {:induction false} Origin(s: seq<Ranked>, rank: int, a: nat, b: nat) returns (p: nat, q: nat)
    requires a < b < |OfRank(s, rank)|
    ensures p < q < |s| && s[p] == OfRank(s, rank)[a] && s[q] == OfRank(s, rank)[b]
    decreases |s|
  {
    var n := |s| - 1;
    if b < |OfRank(s[..n], rank)| {
      p, q := Origin(s[..n], rank, a, b);
    } else {
      p := OriginOfOne(s[..n], rank, a);
      q := n;
    }
  }

  lemma {:induction false} OriginOfOne(s: seq<Ranked>, rank: int, a: nat) returns (p: nat)
    requires a < |OfRank(s, rank)|
    ensures p < |s| && s[p] == OfRank(s, rank)[a]
    decreases |s|
  {
    var n := |s| - 1;
    if a < |OfRank(s[..n], rank)| {
      p := OriginOfOne(s[..n], rank, a);
    } else {
      p := n;
    }
  }

  lemma {:induction false} ChangedInOrder(current: map<string, Field>, saved: map<string, Field>, keys: seq<string>,
                                          p: nat, q: nat)
    requires forall key :: key in keys ==> key in saved && key in current
    requires p < q < |Changed(current, saved, keys)|
    ensures var changed := Changed(current, saved, keys);
            Before(keys, changed[p].key, changed[q].key)
    decreases |keys|
  {
    var rest := keys[1..];
    var changed, tail := Changed(current, saved, keys), Changed(current, saved, rest);
    hide PyEq;
    if changed == tail {
      ChangedInOrder(current, saved, rest, p, q);
      var x, y :| 0 <= x < y < |rest| && rest[x] == changed[p].key && rest[y] == changed[q].key;
      assert keys[x + 1] == rest[x] && keys[y + 1] == rest[y];
    } else if p > 0 {
      ChangedInOrder(current, saved, rest, p - 1, q - 1);
      var x, y :| 0 <= x < y < |rest| && rest[x] == changed[p].key && rest[y] == changed[q].key;
      assert keys[x + 1] == rest[x] && keys[y + 1] == rest[y];
    } else {
      assert changed[q] == tail[q - 1] && tail[q - 1] in tail;
      ChangedItems(current, saved, rest);
      var y :| 0 <= y < |rest| && rest[y] == changed[q].key;
      assert keys[0] == changed[0].key && keys[y + 1] == rest[y];
    }
  }
}
