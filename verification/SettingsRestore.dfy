/**
 * Restoring the saved settings of one camera: which settings are written, in which order, and what the camera holds
 * after every write. Values are Python's: `True == 1`, comparisons of unlike types raise, dictionaries keep the
 * position of the first insertion and the value of the last, and `sorted` is stable.
 */
module SettingsRestore {
  import opened Wrappers

  datatype Py = Null | Bool(b: bool) | Int(n: int) | Text(s: string)

  /** What the engine demands of a new value; of a choice the options that do not depend on the current value. */
  datatype Rule = Switch | Range(min: int, max: int, step: int) | Choice(support: seq<string>) | Words(longest: int)

  datatype Field = Field(key: string, value: Py, writable: bool, rule: Rule)

  datatype Item = Item(key: string, value: Py)

  const MIN: string := "temperature_min"
  const MAX: string := "temperature_max"
  const ALERTS: string := "temperature_alerts"

  predicate Number(v: Py) {
    v.Bool? || v.Int?
  }

  function AsInt(v: Py): int
    requires Number(v)
  {
    if v.Bool? then (if v.b then 1 else 0) else v.n
  }

  predicate PyEq(a: Py, b: Py) {
    if Number(a) && Number(b) then AsInt(a) == AsInt(b) else a == b
  }

  predicate TextLess(a: string, b: string) {
    b != [] && (a == [] || a[0] < b[0] || (a[0] == b[0] && TextLess(a[1..], b[1..])))
  }

  /** `a < b`; absent where Python raises TypeError. */
  function Less(a: Py, b: Py): Option<bool> {
    if Number(a) && Number(b) then Some(AsInt(a) < AsInt(b))
    else if a.Text? && b.Text? then Some(TextLess(a.s, b.s))
    else None
  }

  predicate Truthy(v: Py) {
    match v
    case Null => false
    case Bool(b) => b
    case Int(n) => n != 0
    case Text(s) => s != ""
  }

  // ---------- dictionaries built from lists of fields

  function Keys(fields: seq<Field>): seq<string> {
    if fields == [] then []
    else
      var before := Keys(fields[..|fields| - 1]);
      var key := fields[|fields| - 1].key;
      if key in before then before else before + [key]
  }

  function Dict(fields: seq<Field>): map<string, Field> {
    if fields == [] then map[] else Dict(fields[..|fields| - 1])[fields[|fields| - 1].key := fields[|fields| - 1]]
  }

  predicate Distinct(keys: seq<string>) {
    forall i, j :: 0 <= i < j < |keys| ==> keys[i] != keys[j]
  }

  lemma {:induction false} KeysOfDict(fields: seq<Field>)
    ensures Distinct(Keys(fields)) && forall key :: key in Keys(fields) <==> key in Dict(fields)
    ensures forall key :: key in Dict(fields) ==> Dict(fields)[key].key == key && Dict(fields)[key] in fields
    decreases |fields|
  {
    if fields != [] {
      KeysOfDict(fields[..|fields| - 1]);
    }
  }

  // ---------- the plan

  datatype PlanError = NotWritable | Uninitialised | AlertsNeedThresholds | Incomparable

  predicate Threshold(key: string) {
    key == MIN || key == MAX
  }

  function ItemError(current: map<string, Field>, key: string, value: Py): Option<PlanError> {
    if key !in current || !current[key].writable then Some(NotWritable)
    else if Threshold(key) && !PyEq(current[key].value, value) && (current[key].value.Null? || value.Null?)
    then Some(Uninitialised)
    else None
  }

  function FirstError(current: map<string, Field>, desired: map<string, Field>, keys: seq<string>): Option<PlanError>
    requires forall key :: key in keys ==> key in desired
  {
    if keys == [] then None
    else
      var error := ItemError(current, keys[0], desired[keys[0]].value);
      if error.Some? then error else FirstError(current, desired, keys[1..])
  }

  /** Alerts may go on only with both thresholds saved as integers; a Python bool is an integer. */
  predicate AlertsAllowed(desired: map<string, Field>) {
    ALERTS in desired && desired[ALERTS].value == Bool(true) ==>
      && MIN in desired && Number(desired[MIN].value)
      && MAX in desired && Number(desired[MAX].value)
  }

  /** What changes, in the order in which the keys were saved. */
  function Changed(current: map<string, Field>, desired: map<string, Field>, keys: seq<string>): seq<Item>
    requires forall key :: key in keys ==> key in desired && key in current
  {
    if keys == [] then []
    else
      var rest := Changed(current, desired, keys[1..]);
      if PyEq(current[keys[0]].value, desired[keys[0]].value) then rest
      else [Item(keys[0], desired[keys[0]].value)] + rest
  }

  function Rank(current: map<string, Field>, item: Item): Option<int>
    requires item.key in current
  {
    if item.key == ALERTS then Some(if Truthy(item.value) then 3 else -1)
    else if item.key == MIN then
      var widens := Less(item.value, current[MIN].value);
      if widens.None? then None else Some(if widens.value then 0 else 2)
    else if item.key == MAX then
      var widens := Less(current[MAX].value, item.value);
      if widens.None? then None else Some(if widens.value then 0 else 2)
    else Some(1)
  }

  predicate Rankable(current: map<string, Field>, items: seq<Item>) {
    forall x :: x in items ==> x.key in current && Rank(current, x).Some?
  }

  datatype Ranked = Ranked(item: Item, rank: int)

  function WithRanks(current: map<string, Field>, items: seq<Item>): seq<Ranked>
    requires Rankable(current, items)
  {
    seq(|items|, i requires 0 <= i < |items| => Ranked(items[i], Rank(current, items[i]).value))
  }

  function Items(ranked: seq<Ranked>): seq<Item> {
    seq(|ranked|, i requires 0 <= i < |ranked| => ranked[i].item)
  }

  /** Inserts behind everything of the same or a smaller rank. */
  function Insert(sorted: seq<Ranked>, x: Ranked): seq<Ranked> {
    if sorted == [] then [x]
    else if sorted[|sorted| - 1].rank <= x.rank then sorted + [x]
    else Insert(sorted[..|sorted| - 1], x) + [sorted[|sorted| - 1]]
  }

  /** Python's stable sort. */
  function Sort(items: seq<Ranked>): seq<Ranked> {
    if items == [] then [] else Insert(Sort(items[..|items| - 1]), items[|items| - 1])
  }

  function RestorePlan(currentFields: seq<Field>, savedFields: seq<Field>): Result<seq<Item>, PlanError> {
    var current := Dict(currentFields);
    var desired := Dict(savedFields);
    var keys := Keys(savedFields);
    KeysOfDict(savedFields);
    var error := FirstError(current, desired, keys);
    if error.Some? then Err(error.value)
    else if !AlertsAllowed(desired) then Err(AlertsNeedThresholds)
    else
      NoErrorMeansWritable(current, desired, keys);
      var changed := Changed(current, desired, keys);
      ChangedItems(current, desired, keys);
      if Rankable(current, changed) then Ok(Items(Sort(WithRanks(current, changed)))) else Err(Incomparable)
  }

  lemma {:induction false} NoErrorMeansWritable(current: map<string, Field>, desired: map<string, Field>,
                                            keys: seq<string>)
    requires forall key :: key in keys ==> key in desired
    ensures FirstError(current, desired, keys).None? <==>
            forall key :: key in keys ==> ItemError(current, key, desired[key].value).None?
    decreases |keys|
  {
    if keys != [] {
      assert keys[0] in keys;
      NoErrorMeansWritable(current, desired, keys[1..]);
      assert forall key :: key in keys ==> key == keys[0] || key in keys[1..];
    }
  }

  lemma {:induction false} ChangedItems(current: map<string, Field>, desired: map<string, Field>, keys: seq<string>)
    requires forall key :: key in keys ==> key in desired && key in current
    ensures forall x :: x in Changed(current, desired, keys) <==>
              x.key in keys && x.value == desired[x.key].value && !PyEq(current[x.key].value, x.value)
    ensures Distinct(keys) ==> WrittenOnce(Changed(current, desired, keys))
    decreases |keys|
  {
    if keys != [] {
      ChangedItems(current, desired, keys[1..]);
      assert forall key :: key in keys <==> key == keys[0] || key in keys[1..];
      assert Distinct(keys) ==> keys[0] !in keys[1..];
    }
  }

  // ---------- what a plan contains, and its order

  ghost predicate Ascending(sorted: seq<Ranked>) {
    forall i, j :: 0 <= i < j < |sorted| ==> sorted[i].rank <= sorted[j].rank
  }

  lemma {:induction false} InsertKeeps(sorted: seq<Ranked>, x: Ranked)
    ensures multiset(Insert(sorted, x)) == multiset(sorted) + multiset{x}
    decreases |sorted|
  {
    if sorted != [] {
      assert sorted == sorted[..|sorted| - 1] + [sorted[|sorted| - 1]];
      InsertKeeps(sorted[..|sorted| - 1], x);
    }
  }

  lemma SameMembers<T>(a: seq<T>, b: seq<T>)
    requires multiset(a) == multiset(b)
    ensures forall x :: x in a <==> x in b
  {
    assert forall x :: x in a <==> x in multiset(a);
    assert forall x :: x in b <==> x in multiset(b);
  }

  lemma AscendingAppend(sorted: seq<Ranked>, last: Ranked)
    requires Ascending(sorted) && forall y :: y in sorted ==> y.rank <= last.rank
    ensures Ascending(sorted + [last])
  {
  }

  lemma {:induction false} InsertKeepsOrder(sorted: seq<Ranked>, x: Ranked)
    requires Ascending(sorted)
    ensures Ascending(Insert(sorted, x))
    decreases |sorted|
  {
    if sorted != [] {
      var n := |sorted| - 1;
      assert forall y :: y in sorted ==> y.rank <= sorted[n].rank;
      if sorted[n].rank <= x.rank {
        AscendingAppend(sorted, x);
      } else {
        InsertKeepsOrder(sorted[..n], x);
        InsertKeeps(sorted[..n], x);
        SameMembers(Insert(sorted[..n], x), sorted[..n] + [x]);
        AscendingAppend(Insert(sorted[..n], x), sorted[n]);
      }
    }
  }

  lemma {:induction false} SortSorts(items: seq<Ranked>)
    ensures Ascending(Sort(items)) && multiset(Sort(items)) == multiset(items)
    decreases |items|
  {
    if items != [] {
      var init, last := items[..|items| - 1], items[|items| - 1];
      SortSorts(init);
      InsertKeepsOrder(Sort(init), last);
      InsertKeeps(Sort(init), last);
      hide Ascending, Insert;
      assert items == init + [last];
      assert multiset(items) == multiset(init) + multiset{last};
    }
  }

  function OfRank(items: seq<Ranked>, rank: int): seq<Ranked> {
    if items == [] then []
    else
      OfRank(items[..|items| - 1], rank)
      + if items[|items| - 1].rank == rank then [items[|items| - 1]] else []
  }

  lemma {:induction false} InsertIsStable(sorted: seq<Ranked>, x: Ranked, rank: int)
    ensures OfRank(Insert(sorted, x), rank) == OfRank(sorted, rank) + (if x.rank == rank then [x] else [])
    decreases |sorted|
  {
    var all := Insert(sorted, x);
    if sorted != [] {
      var n := |sorted| - 1;
      if sorted[n].rank <= x.rank {
        assert all[..|all| - 1] == sorted;
      } else {
        InsertIsStable(sorted[..n], x, rank);
        assert all[..|all| - 1] == Insert(sorted[..n], x);
      }
    }
  }

  /** Writes of equal rank keep the order of the backup. */
  lemma {:induction false} SortIsStable(items: seq<Ranked>, rank: int)
    ensures OfRank(Sort(items), rank) == OfRank(items, rank)
    decreases |items|
  {
    if items != [] {
      SortIsStable(items[..|items| - 1], rank);
      InsertIsStable(Sort(items[..|items| - 1]), items[|items| - 1], rank);
    }
  }

  ghost predicate RankedOrder(current: map<string, Field>, plan: seq<Item>)
    requires Rankable(current, plan)
  {
    forall i, j :: 0 <= i < j < |plan| ==> Rank(current, plan[i]).value <= Rank(current, plan[j]).value
  }

  ghost predicate WrittenOnce(plan: seq<Item>) {
    forall i, j :: 0 <= i < j < |plan| ==> plan[i].key != plan[j].key
  }

  lemma ItemsOfPermutation(a: seq<Ranked>, b: seq<Ranked>, x: Item)
    requires multiset(a) == multiset(b) && x in Items(a)
    ensures x in Items(b)
  {
    SameMembers(a, b);
    var i :| 0 <= i < |a| && Items(a)[i] == x;
    assert a[i] in b;
    var j :| 0 <= j < |b| && b[j] == a[i];
    assert Items(b)[j] == x;
  }

  /** Sorting decorated items keeps which items there are, orders them by rank and repeats no key. */
  lemma SortedPlan(current: map<string, Field>, changed: seq<Item>)
    requires Rankable(current, changed) && WrittenOnce(changed)
    ensures var plan := Items(Sort(WithRanks(current, changed)));
            && (forall x :: x in plan <==> x in changed)
            && Rankable(current, plan) && RankedOrder(current, plan) && WrittenOnce(plan)
  {
    var ranked := WithRanks(current, changed);
    var sorted := Sort(ranked);
    SortSorts(ranked);
    PermutationKeepsKeys(ranked, sorted);
    SameMembers(sorted, ranked);
    hide Rank, Sort;
    assert Items(ranked) == changed;
    forall x
      ensures x in Items(sorted) <==> x in changed
    {
      if x in changed {
        ItemsOfPermutation(ranked, sorted, x);
      } else if x in Items(sorted) {
        ItemsOfPermutation(sorted, ranked, x);
      }
    }
    forall i | 0 <= i < |sorted|
      ensures sorted[i].item in changed && sorted[i].rank == Rank(current, sorted[i].item).value
    {
      assert sorted[i] in ranked;
    }
  }

  /** The plan writes each saved key at most once, exactly those whose value differs, with the saved value. */
  lemma PlanWritesTheDifferences(current: seq<Field>, saved: seq<Field>)
    requires RestorePlan(current, saved).Ok?
    ensures var plan := RestorePlan(current, saved).value;
            && WrittenOnce(plan)
            && (forall key :: key in Dict(saved) ==> key in Dict(current) && Dict(current)[key].writable)
            && (forall x :: x in plan <==>
                  && x.key in Dict(saved) && x.value == Dict(saved)[x.key].value
                  && !PyEq(Dict(current)[x.key].value, x.value))
            && Rankable(Dict(current), plan) && RankedOrder(Dict(current), plan)
  {
    var cur, des, keys := Dict(current), Dict(saved), Keys(saved);
    KeysOfDict(saved);
    NoErrorMeansWritable(cur, des, keys);
    var changed := Changed(cur, des, keys);
    ChangedItems(cur, des, keys);
    SortedPlan(cur, changed);
  }

  lemma PermutationKeepsKeys(a: seq<Ranked>, b: seq<Ranked>)
    requires multiset(a) == multiset(b)
    requires forall i, j :: 0 <= i < j < |a| ==> a[i].item.key != a[j].item.key
    ensures forall i, j :: 0 <= i < j < |b| ==> b[i].item.key != b[j].item.key
  {
    SameMembers(a, b);
    forall i, j | 0 <= i < j < |b|
      ensures b[i].item.key != b[j].item.key
    {
      assert b[i] in a && b[j] in a;
      if b[i].item.key == b[j].item.key {
        var p :| 0 <= p < |a| && a[p] == b[i];
        var q :| 0 <= q < |a| && a[q] == b[j];
        assert p == q;
        TwiceInMultiset(b, i, j);
        OnceInMultiset(a, p);
      }
    }
  }

  lemma TwiceInMultiset(s: seq<Ranked>, i: nat, j: nat)
    requires i < j < |s| && s[i] == s[j]
    ensures multiset(s)[s[i]] >= 2
  {
    assert s == s[..j] + [s[j]] + s[j + 1..];
    assert s[i] in s[..j];
  }

  lemma OnceInMultiset(s: seq<Ranked>, p: nat)
    requires p < |s| && forall i, j :: 0 <= i < j < |s| ==> s[i].item.key != s[j].item.key
    ensures multiset(s)[s[p]] == 1
  {
    assert s == s[..p] + [s[p]] + s[p + 1..];
    assert s[p] !in s[..p] && s[p] !in s[p + 1..];
  }

  // ---------- replaying a plan

  function Update(fields: seq<Field>, key: string, value: Py): seq<Field> {
    if fields == [] then []
    else
      var last := fields[|fields| - 1];
      Update(fields[..|fields| - 1], key, value) + [if last.key == key then last.(value := value) else last]
  }

  function Replay(fields: seq<Field>, plan: seq<Item>): seq<Field> {
    if plan == [] then fields
    else
      var last := plan[|plan| - 1];
      Update(Replay(fields, plan[..|plan| - 1]), last.key, last.value)
  }

  function Overwritten(dict: map<string, Field>, key: string, value: Py): map<string, Field> {
    map x | x in dict :: if x == key then dict[x].(value := value) else dict[x]
  }

  lemma {:induction false} DictOfUpdate(fields: seq<Field>, key: string, value: Py)
    ensures Dict(Update(fields, key, value)) == Overwritten(Dict(fields), key, value)
    decreases |fields|
  {
    if fields != [] {
      var updated := Update(fields, key, value);
      DictOfUpdate(fields[..|fields| - 1], key, value);
      assert updated[..|updated| - 1] == Update(fields[..|fields| - 1], key, value);
    }
  }

  /** The value a plan gives to `key`, or `before` when it does not write it. */
  function Latest(plan: seq<Item>, key: string, before: Py): Py {
    if plan == [] then before
    else if plan[|plan| - 1].key == key then plan[|plan| - 1].value
    else Latest(plan[..|plan| - 1], key, before)
  }

  lemma {:induction false} ReplayReads(fields: seq<Field>, plan: seq<Item>)
    ensures Dict(Replay(fields, plan))
            == map x | x in Dict(fields) :: Dict(fields)[x].(value := Latest(plan, x, Dict(fields)[x].value))
    decreases |plan|
  {
    if plan != [] {
      var last := plan[|plan| - 1];
      ReplayReads(fields, plan[..|plan| - 1]);
      DictOfUpdate(Replay(fields, plan[..|plan| - 1]), last.key, last.value);
    }
  }

  lemma {:induction false} LatestAt(plan: seq<Item>, p: nat, upTo: nat, before: Py)
    requires p < |plan| && upTo <= |plan|
    requires WrittenOnce(plan)
    ensures Latest(plan[..upTo], plan[p].key, before) == if p < upTo then plan[p].value else before
    decreases upTo
  {
    if upTo > 0 {
      assert plan[..upTo][..upTo - 1] == plan[..upTo - 1];
      if p != upTo - 1 {
        LatestAt(plan, p, upTo - 1, before);
      }
    }
  }

  lemma {:induction false} LatestAbsent(plan: seq<Item>, key: string, before: Py)
    requires forall x :: x in plan ==> x.key != key
    ensures Latest(plan, key, before) == before
    decreases |plan|
  {
    if plan != [] {
      LatestAbsent(plan[..|plan| - 1], key, before);
    }
  }

  /**
   * Replaying the whole plan gives every saved setting its saved value and leaves every other setting, and every
   * writable flag, alone.
   */
  lemma ReplayRestores(current: seq<Field>, saved: seq<Field>)
    requires RestorePlan(current, saved).Ok?
    ensures var final := Dict(Replay(current, RestorePlan(current, saved).value));
            && final.Keys == Dict(current).Keys
            && (forall key :: key in Dict(saved) ==> key in final && PyEq(final[key].value, Dict(saved)[key].value))
            && (forall key :: key in Dict(current) && key !in Dict(saved) ==> final[key] == Dict(current)[key])
            && (forall key :: key in final ==> final[key].writable == Dict(current)[key].writable)
  {
    var plan := RestorePlan(current, saved).value;
    var cur, des := Dict(current), Dict(saved);
    PlanWritesTheDifferences(current, saved);
    ReplayReads(current, plan);
    assert plan[..|plan|] == plan;
    forall key | key in cur
      ensures key in des ==> PyEq(Latest(plan, key, cur[key].value), des[key].value)
      ensures key !in des ==> Latest(plan, key, cur[key].value) == cur[key].value
    {
      if key in des && !PyEq(cur[key].value, des[key].value) {
        assert Item(key, des[key].value) in plan;
        var p :| 0 <= p < |plan| && plan[p] == Item(key, des[key].value);
        LatestAt(plan, p, |plan|, cur[key].value);
      } else {
        LatestAbsent(plan, key, cur[key].value);
      }
    }
  }

  /** Alerts go off before, and on after, every other write. */
  lemma AlertsFirstOffLastOn(current: seq<Field>, saved: seq<Field>, i: nat)
    requires RestorePlan(current, saved).Ok? && i < |RestorePlan(current, saved).value|
    requires RestorePlan(current, saved).value[i].key == ALERTS
    ensures var plan := RestorePlan(current, saved).value;
            i == if Truthy(plan[i].value) then |plan| - 1 else 0
  {
    var plan := RestorePlan(current, saved).value;
    PlanWritesTheDifferences(current, saved);
    hide RestorePlan, Dict;
    var last := |plan| - 1;
    OtherRanks(Dict(current), plan[i]);
    OtherRanks(Dict(current), plan[0]);
    OtherRanks(Dict(current), plan[last]);
  }

  lemma OtherRanks(current: map<string, Field>, item: Item)
    requires item.key in current && Rank(current, item).Some?
    ensures if item.key == ALERTS then Rank(current, item).value == (if Truthy(item.value) then 3 else -1)
            else 0 <= Rank(current, item).value <= 2
  {
  }

  // ---------- the gap between the thresholds

  const GAP: int := 10

  /** Both thresholds are integers at least 10 degrees apart. */
  predicate GapKept(fields: seq<Field>) {
    var dict := Dict(fields);
    && MIN in dict && MAX in dict && dict[MIN].value.Int? && dict[MAX].value.Int?
    && dict[MAX].value.n - dict[MIN].value.n >= GAP
  }

  /** Both thresholds are set. */
  predicate BothSet(fields: seq<Field>) {
    var dict := Dict(fields);
    MIN in dict && MAX in dict && dict[MIN].value.Int? && dict[MAX].value.Int?
  }

  /** The check the engine makes before it writes a threshold: both are set, and on the values it would then hold. */
  predicate EngineAccepts(fields: seq<Field>, item: Item) {
    Threshold(item.key) ==> BothSet(fields) && GapKept(Update(fields, item.key, item.value))
  }

  lemma PrefixReads(current: seq<Field>, plan: seq<Item>, key: string, upTo: nat)
    requires WrittenOnce(plan)
    requires key in Dict(current) && upTo <= |plan|
    ensures key in Dict(Replay(current, plan[..upTo])) && key in Dict(Replay(current, plan))
    ensures var now := Dict(Replay(current, plan[..upTo]))[key].value;
            now == if Pending(plan, key, upTo) then Dict(current)[key].value else Dict(Replay(current, plan))[key].value
  {
    var before := Dict(current)[key].value;
    ReplayReads(current, plan[..upTo]);
    ReplayReads(current, plan);
    assert plan[..|plan|] == plan;
    if p :| 0 <= p < |plan| && plan[p].key == key {
      LatestAt(plan, p, upTo, before);
      LatestAt(plan, p, |plan|, before);
    } else {
      LatestAbsent(plan, key, before);
      LatestAbsent(plan[..upTo], key, before);
    }
  }

  lemma WidenFirst(current: seq<Field>, saved: seq<Field>, upTo: nat)
    requires RestorePlan(current, saved).Ok? && upTo <= |RestorePlan(current, saved).value|
    requires GapKept(current) && GapKept(Replay(current, RestorePlan(current, saved).value))
    ensures GapKept(Replay(current, RestorePlan(current, saved).value[..upTo]))
  {
    var plan := RestorePlan(current, saved).value;
    var cur := Dict(current);
    PlanWritesTheDifferences(current, saved);
    PrefixReads(current, plan, MIN, upTo);
    PrefixReads(current, plan, MAX, upTo);
    hide RestorePlan, Replay, Dict, Rankable, RankedOrder, Pending;
    if Pending(plan, MIN, upTo) && !Pending(plan, MAX, upTo) {
      HalfWay(current, plan, upTo, MAX, MIN);
    } else if Pending(plan, MAX, upTo) && !Pending(plan, MIN, upTo) {
      HalfWay(current, plan, upTo, MIN, MAX);
    }
  }

  ghost predicate Pending(plan: seq<Item>, key: string, from: nat) {
    exists p :: from <= p < |plan| && plan[p].key == key
  }

  /** When both thresholds change, the one written first widens the gap or the other one narrows it. */
  lemma FirstWidens(current: seq<Field>, plan: seq<Item>, p: nat, q: nat)
    requires Rankable(Dict(current), plan) && RankedOrder(Dict(current), plan) && p < q < |plan|
    requires GapKept(current) && {plan[p].key, plan[q].key} == {MIN, MAX}
    requires plan[p].value.Int? && plan[q].value.Int?
    ensures var cur := Dict(current);
            if plan[p].key == MIN then plan[p].value.n < cur[MIN].value.n || plan[q].value.n <= cur[MAX].value.n
            else plan[p].value.n > cur[MAX].value.n || plan[q].value.n >= cur[MIN].value.n
  {
    assert plan[p] in plan && plan[q] in plan;
    assert Rank(Dict(current), plan[p]).value <= Rank(Dict(current), plan[q]).value;
    hide Dict;
  }

  /** One threshold written and the other still to come: the gap is at least the smaller of the two ends. */
  lemma HalfWay(current: seq<Field>, plan: seq<Item>, upTo: nat, first: string, second: string)
    requires Rankable(Dict(current), plan) && RankedOrder(Dict(current), plan) && upTo <= |plan|
    requires WrittenOnce(plan)
    requires GapKept(current) && GapKept(Replay(current, plan))
    requires {first, second} == {MIN, MAX} && !Pending(plan, first, upTo) && Pending(plan, second, upTo)
    ensures var cur, final := Dict(current), Dict(Replay(current, plan));
            if first == MIN then final[MIN].value.n <= cur[MIN].value.n || final[MAX].value.n <= cur[MAX].value.n
            else final[MAX].value.n >= cur[MAX].value.n || final[MIN].value.n >= cur[MIN].value.n
  {
    var cur := Dict(current);
    var q :| upTo <= q < |plan| && plan[q].key == second;
    ReplayReads(current, plan);
    assert plan[..|plan|] == plan;
    LatestAt(plan, q, |plan|, cur[second].value);
    if p :| 0 <= p < |plan| && plan[p].key == first {
      assert p < upTo;
      LatestAt(plan, p, |plan|, cur[first].value);
      hide Replay, Rankable, RankedOrder, Latest, Dict;
      FirstWidens(current, plan, p, q);
    } else {
      LatestAbsent(plan, first, cur[first].value);
      hide Replay, Rankable, RankedOrder, Latest;
    }
  }

  lemma ReplayOneMore(fields: seq<Field>, plan: seq<Item>, i: nat)
    requires i < |plan|
    ensures Replay(fields, plan[..i + 1]) == Update(Replay(fields, plan[..i]), plan[i].key, plan[i].value)
  {
    assert plan[..i + 1][..i] == plan[..i];
  }

  /**
   * From a camera whose thresholds are 10 degrees apart, the engine's gap check passes at every single write of the
   * plan exactly when the thresholds end up 10 degrees apart.
   */
  lemma EveryWriteAcceptedIff(current: seq<Field>, saved: seq<Field>)
    requires RestorePlan(current, saved).Ok? && GapKept(current)
    ensures var plan := RestorePlan(current, saved).value;
            (forall i :: 0 <= i < |plan| ==> EngineAccepts(Replay(current, plan[..i]), plan[i]))
            <==> GapKept(Replay(current, plan))
  {
    var plan := RestorePlan(current, saved).value;
    hide RestorePlan, GapKept, BothSet, Update, Replay, Dict;
    if GapKept(Replay(current, plan)) {
      forall i | 0 <= i < |plan|
        ensures EngineAccepts(Replay(current, plan[..i]), plan[i])
      {
        WidenFirst(current, saved, i);
        WidenFirst(current, saved, i + 1);
        ReplayOneMore(current, plan, i);
        GapMeansSet(Replay(current, plan[..i]));
      }
    }
    if forall i :: 0 <= i < |plan| ==> EngineAccepts(Replay(current, plan[..i]), plan[i]) {
      AcceptedPrefixKeepsGap(current, plan, |plan|);
      assert plan[..|plan|] == plan;
    }
  }

  lemma GapMeansSet(fields: seq<Field>)
    requires GapKept(fields)
    ensures BothSet(fields)
  {
  }

  lemma AcceptedWriteKeepsGap(fields: seq<Field>, item: Item)
    requires GapKept(fields) && EngineAccepts(fields, item)
    ensures GapKept(Update(fields, item.key, item.value))
  {
    DictOfUpdate(fields, item.key, item.value);
    hide Dict, Update;
  }

  lemma {:induction false} AcceptedPrefixKeepsGap(current: seq<Field>, plan: seq<Item>, upTo: nat)
    requires GapKept(current) && upTo <= |plan|
    requires forall i :: 0 <= i < |plan| ==> EngineAccepts(Replay(current, plan[..i]), plan[i])
    ensures GapKept(Replay(current, plan[..upTo]))
    decreases upTo
  {
    hide GapKept, EngineAccepts, Update;
    if upTo > 0 {
      AcceptedPrefixKeepsGap(current, plan, upTo - 1);
      ReplayOneMore(current, plan, upTo - 1);
      AcceptedWriteKeepsGap(Replay(current, plan[..upTo - 1]), plan[upTo - 1]);
    }
  }
}
