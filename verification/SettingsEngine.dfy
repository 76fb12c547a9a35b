/**
 * The engine as a restore sees it: it checks every value against the rule of its field, refuses thresholds closer than
 * 10 degrees, and stores what it accepted. The question is when a camera can be taken back to what it showed before.
 */
module SettingsEngine {
  import opened Wrappers
  import opened SettingsRestore
  import CameraSettings

  // ---------- checking and storing one value

  /** The value the engine would store; a text is trimmed. */
  function Stored(rule: Rule, value: Py): Py {
    if rule.Words? && value.Text? then Text(CameraSettings.Trim(value.s)) else value
  }

  /** The engine's own validation of a value; a choice may stay what it is. */
  predicate Admissible(field: Field, value: Py) {
    match field.rule
    case Switch => value.Bool?
    case Range(min, max, step) => value.Int? && min <= value.n <= max && step != 0 && (value.n - min) % step == 0
    case Choice(support) => value.Text? && (value.s in support || value == field.value)
    case Words(longest) =>
      && value.Text?
      && var text := CameraSettings.Trim(value.s);
         text != "" && |text| <= longest && forall c :: c in text ==> !CameraSettings.Control(c)
  }

  predicate Takes(fields: seq<Field>, item: Item) {
    && item.key in Dict(fields) && Dict(fields)[item.key].writable && Admissible(Dict(fields)[item.key], item.value)
    && var value := Stored(Dict(fields)[item.key].rule, item.value);
       value == Dict(fields)[item.key].value || EngineAccepts(fields, Item(item.key, value))
  }

  function Write(fields: seq<Field>, item: Item): seq<Field> {
    if item.key in Dict(fields) then Update(fields, item.key, Stored(Dict(fields)[item.key].rule, item.value))
    else fields
  }

  function After(fields: seq<Field>, plan: seq<Item>): seq<Field> {
    if plan == [] then fields else Write(After(fields, plan[..|plan| - 1]), plan[|plan| - 1])
  }

  predicate TakesAll(fields: seq<Field>, plan: seq<Item>) {
    forall i :: 0 <= i < |plan| ==> Takes(After(fields, plan[..i]), plan[i])
  }

  lemma AfterOneMore(fields: seq<Field>, plan: seq<Item>, i: nat)
    requires i < |plan|
    ensures After(fields, plan[..i + 1]) == Write(After(fields, plan[..i]), plan[i])
  {
    hide Write;
    assert plan[..i + 1][..i] == plan[..i];
  }

  lemma WriteReads(fields: seq<Field>, item: Item)
    ensures Dict(Write(fields, item)).Keys == Dict(fields).Keys
    ensures forall key :: key in Dict(fields) ==>
              Dict(Write(fields, item))[key]
              == if key == item.key then Dict(fields)[key].(value := Stored(Dict(fields)[key].rule, item.value))
                 else Dict(fields)[key]
  {
    if item.key in Dict(fields) {
      DictOfUpdate(fields, item.key, Stored(Dict(fields)[item.key].rule, item.value));
    }
    hide Dict, Update, Stored;
  }

  /** Writes change values, and nothing else about a field. */
  lemma {:induction false} AfterKeepsFields(fields: seq<Field>, plan: seq<Item>)
    ensures Dict(After(fields, plan)).Keys == Dict(fields).Keys
    ensures forall key :: key in Dict(fields) ==>
              Dict(After(fields, plan))[key] == Dict(fields)[key].(value := Dict(After(fields, plan))[key].value)
    decreases |plan|
  {
    hide Write, Dict;
    if plan != [] {
      var n := |plan| - 1;
      AfterKeepsFields(fields, plan[..n]);
      WriteReads(After(fields, plan[..n]), plan[n]);
    }
  }

  lemma {:induction false} AfterAt(fields: seq<Field>, plan: seq<Item>, p: nat, upTo: nat)
    requires WrittenOnce(plan) && p < |plan| && upTo <= |plan| && plan[p].key in Dict(fields)
    ensures plan[p].key in Dict(After(fields, plan[..upTo]))
    ensures Dict(After(fields, plan[..upTo]))[plan[p].key].value
         == if p < upTo then Stored(Dict(fields)[plan[p].key].rule, plan[p].value) else Dict(fields)[plan[p].key].value
    decreases upTo
  {
    hide Write, Dict, Stored;
    if upTo == 0 {
      assert plan[..0] == [];
    } else {
      AfterAt(fields, plan, p, upTo - 1);
      AfterOneMore(fields, plan, upTo - 1);
      AfterKeepsFields(fields, plan[..upTo - 1]);
      WriteReads(After(fields, plan[..upTo - 1]), plan[upTo - 1]);
    }
  }

  lemma {:induction false} AfterAbsent(fields: seq<Field>, plan: seq<Item>, key: string)
    requires key in Dict(fields) && forall x :: x in plan ==> x.key != key
    ensures key in Dict(After(fields, plan)) && Dict(After(fields, plan))[key] == Dict(fields)[key]
    decreases |plan|
  {
    hide Write, Dict;
    if plan != [] {
      var n := |plan| - 1;
      AfterAbsent(fields, plan[..n], key);
      WriteReads(After(fields, plan[..n]), plan[n]);
    }
  }

  /** Every value of the plan is stored as it is. */
  predicate Exact(fields: seq<Field>, plan: seq<Item>) {
    forall x :: x in plan ==> x.key in Dict(fields) && Stored(Dict(fields)[x.key].rule, x.value) == x.value
  }

  lemma {:induction false} ExactAfter(fields: seq<Field>, plan: seq<Item>)
    requires Exact(fields, plan)
    ensures After(fields, plan) == Replay(fields, plan)
    decreases |plan|
  {
    hide Dict, Stored, Update;
    if plan != [] {
      var n := |plan| - 1;
      assert forall x :: x in plan[..n] ==> x in plan;
      assert plan[n] in plan;
      ExactAfter(fields, plan[..n]);
      AfterKeepsFields(fields, plan[..n]);
    }
  }

  // ---------- what the engine took

  predicate UniqueKeys(fields: seq<Field>) {
    forall i, j :: 0 <= i < j < |fields| ==> fields[i].key != fields[j].key
  }

  /** A listing of the engine: no key twice, thresholds are ranges. */
  predicate Document(fields: seq<Field>) {
    UniqueKeys(fields) && forall key :: key in Dict(fields) && Threshold(key) ==> Dict(fields)[key].rule.Range?
  }

  predicate Differs(before: seq<Field>, now: seq<Field>, key: string) {
    key in Dict(before) && key in Dict(now) && !PyEq(Dict(now)[key].value, Dict(before)[key].value)
  }

  /** A value that is not the old one was written; thresholds are written to and from integers, at a distance. */
  ghost predicate Reached(before: seq<Field>, now: seq<Field>) {
    && Dict(now).Keys == Dict(before).Keys
    && (forall key :: key in Dict(before) ==>
          && Dict(now)[key] == Dict(before)[key].(value := Dict(now)[key].value)
          && (Dict(now)[key].value != Dict(before)[key].value ==>
                && Dict(before)[key].writable
                && (Threshold(key) ==>
                      Dict(now)[key].value.Int? && Dict(before)[key].value.Int? && GapKept(now))))
  }

  lemma WriteReaches(before: seq<Field>, now: seq<Field>, item: Item)
    requires Document(before) && Reached(before, now) && Takes(now, item)
    ensures Reached(before, Write(now, item))
  {
    var next := Write(now, item);
    WriteReads(now, item);
    var value := Stored(Dict(now)[item.key].rule, item.value);
    assert next == Update(now, item.key, value);
    if value == Dict(now)[item.key].value {
      assert Dict(next) == Dict(now);
      SameDictSameGap(now, next);
      hide GapKept, EngineAccepts;
    } else {
      hide Dict, Update;
      if !Threshold(item.key) {
        SameThresholdsSameGap(now, next);
        hide GapKept;
      }
    }
  }

  lemma SameDictSameGap(one: seq<Field>, other: seq<Field>)
    requires Dict(one) == Dict(other)
    ensures GapKept(one) == GapKept(other)
  {
  }

  lemma SameThresholdsSameGap(one: seq<Field>, other: seq<Field>)
    requires forall key :: Threshold(key) ==>
               (key in Dict(one) <==> key in Dict(other)) && (key in Dict(one) ==> Dict(one)[key] == Dict(other)[key])
    ensures GapKept(one) == GapKept(other)
  {
    hide Dict;
    assert Threshold(MIN) && Threshold(MAX);
  }

  lemma {:induction false} TakenReaches(before: seq<Field>, writes: seq<Item>)
    requires Document(before) && TakesAll(before, writes)
    ensures Reached(before, After(before, writes))
    decreases |writes|
  {
    hide Document, Reached, Takes, Write, Dict;
    if writes == [] {
      ReachesItself(before);
    } else {
      var n := |writes| - 1;
      TakesPrefix(before, writes, n);
      TakenReaches(before, writes[..n]);
      assert writes[..n + 1] == writes;
      assert Takes(After(before, writes[..n]), writes[n]);
      WriteReaches(before, After(before, writes[..n]), writes[n]);
    }
  }

  lemma ReachesItself(before: seq<Field>)
    ensures Reached(before, before)
  {
  }

  lemma TakesPrefix(fields: seq<Field>, plan: seq<Item>, n: nat)
    requires TakesAll(fields, plan) && n <= |plan|
    ensures TakesAll(fields, plan[..n])
  {
    hide Takes, After;
    forall i | 0 <= i < n
      ensures Takes(After(fields, plan[..n][..i]), plan[..n][i])
    {
      assert plan[..n][..i] == plan[..i];
    }
  }

  // ---------- the snapshot taken before a restore

  /** The writable fields, which is what a snapshot keeps. */
  function Captured(fields: seq<Field>): seq<Field> {
    if fields == [] then []
    else
      Captured(fields[..|fields| - 1])
      + if fields[|fields| - 1].writable then [fields[|fields| - 1]] else []
  }

  lemma {:induction false} DictOfCaptured(fields: seq<Field>)
    requires UniqueKeys(fields)
    ensures forall key :: key in Dict(Captured(fields)) <==> key in Dict(fields) && Dict(fields)[key].writable
    ensures forall key :: key in Dict(Captured(fields)) ==> Dict(Captured(fields))[key] == Dict(fields)[key]
    decreases |fields|
  {
    if fields != [] {
      var init, last := fields[..|fields| - 1], fields[|fields| - 1];
      DictOfCaptured(init);
      KeysOfDict(init);
      assert forall f :: f in init ==> f.key != last.key;
      var captured := Captured(fields);
      if last.writable {
        assert captured[..|captured| - 1] == Captured(init);
        assert Dict(captured) == Dict(Captured(init))[last.key := last];
      } else {
        assert captured == Captured(init);
      }
      assert Dict(fields) == Dict(init)[last.key := last];
      hide Dict, Captured;
    }
  }

  predicate SameValues(a: map<string, Field>, b: map<string, Field>) {
    a.Keys == b.Keys && forall key :: key in a ==> PyEq(a[key].value, b[key].value)
  }

  lemma SameIsEqual(v: Py)
    ensures PyEq(v, v)
  {
  }

  lemma NoErrorInPlan(current: seq<Field>, saved: seq<Field>)
    ensures RestorePlan(current, saved).Ok? <==>
            && (forall key :: key in Dict(saved) ==> ItemError(Dict(current), key, Dict(saved)[key].value).None?)
            && AlertsAllowed(Dict(saved))
            && (forall key :: key in Dict(saved) && !PyEq(Dict(current)[key].value, Dict(saved)[key].value) ==>
                  Rank(Dict(current), Item(key, Dict(saved)[key].value)).Some?)
  {
    var cur, des, keys := Dict(current), Dict(saved), Keys(saved);
    KeysOfDict(saved);
    NoErrorMeansWritable(cur, des, keys);
    if FirstError(cur, des, keys).None? && AlertsAllowed(des) {
      ChangedItems(cur, des, keys);
      var changed := Changed(cur, des, keys);
      if Rankable(cur, changed) {
        forall key | key in des && !PyEq(cur[key].value, des[key].value)
          ensures Rank(cur, Item(key, des[key].value)).Some?
        {
          assert Item(key, des[key].value) in changed;
        }
      } else {
        var x :| x in changed && !(x.key in cur && Rank(cur, x).Some?);
        assert x == Item(x.key, des[x.key].value);
      }
    }
  }

  lemma ThresholdsRank(current: map<string, Field>, item: Item)
    requires item.key in current && (Threshold(item.key) ==> current[item.key].value.Int? && item.value.Int?)
    ensures Rank(current, item).Some?
  {
  }

  /** An old value that the snapshot holds can be planned. */
  lemma OldValuePlanned(before: seq<Field>, now: seq<Field>, key: string)
    requires Document(before) && Reached(before, now) && key in Dict(Captured(before))
    ensures key in Dict(now) && ItemError(Dict(now), key, Dict(Captured(before))[key].value).None?
    ensures !PyEq(Dict(now)[key].value, Dict(Captured(before))[key].value) ==>
              Rank(Dict(now), Item(key, Dict(Captured(before))[key].value)).Some?
  {
    hide Dict, Captured, GapKept, Rank;
    DictOfCaptured(before);
    SameIsEqual(Dict(before)[key].value);
    if !PyEq(Dict(now)[key].value, Dict(before)[key].value) {
      ThresholdsRank(Dict(now), Item(key, Dict(before)[key].value));
    }
  }

  /**
   * After any writes that the engine took, the snapshot can be planned again exactly when it does not ask for alerts
   * without both thresholds as integers.
   */
  lemma RollbackPlannedIff(before: seq<Field>, writes: seq<Item>)
    requires Document(before) && TakesAll(before, writes)
    ensures RestorePlan(After(before, writes), Captured(before)).Ok? <==> AlertsAllowed(Dict(Captured(before)))
  {
    hide RestorePlan, Dict, AlertsAllowed, Captured, After, TakesAll, GapKept, Rank, ItemError, Reached, Document;
    var now := After(before, writes);
    TakenReaches(before, writes);
    NoErrorInPlan(now, Captured(before));
    forall key | key in Dict(Captured(before))
      ensures ItemError(Dict(now), key, Dict(Captured(before))[key].value).None? && key in Dict(now)
      ensures !PyEq(Dict(now)[key].value, Dict(Captured(before))[key].value) ==>
                Rank(Dict(now), Item(key, Dict(Captured(before))[key].value)).Some?
    {
      OldValuePlanned(before, now, key);
    }
  }

  // ---------- the way back

  /** The engine left alone: the writes of a plan up to the first that it refuses. */
  function Attempt(fields: seq<Field>, plan: seq<Item>): seq<Field>
    decreases |plan|
  {
    if plan == [] || !Takes(fields, plan[0]) then fields else Attempt(Write(fields, plan[0]), plan[1..])
  }

  lemma {:induction false} AfterFront(fields: seq<Field>, plan: seq<Item>)
    requires plan != []
    ensures After(fields, plan) == After(Write(fields, plan[0]), plan[1..])
    decreases |plan|
  {
    hide Write;
    var n := |plan| - 1;
    if n == 0 {
      assert plan[..0] == [];
      assert plan[1..] == [];
    } else {
      AfterFront(fields, plan[..n]);
      assert plan[..n][1..] == plan[1..][..n - 1];
    }
  }

  /** Where an attempt ends. */
  lemma {:induction false} AttemptEnds(fields: seq<Field>, plan: seq<Item>) returns (n: nat)
    ensures n <= |plan| && TakesAll(fields, plan[..n]) && Attempt(fields, plan) == After(fields, plan[..n])
    ensures n < |plan| ==> !Takes(After(fields, plan[..n]), plan[n])
    decreases |plan|
  {
    hide Takes, Write;
    if plan == [] || !Takes(fields, plan[0]) {
      n := 0;
      assert plan[..0] == [];
    } else {
      var m := AttemptEnds(Write(fields, plan[0]), plan[1..]);
      n := m + 1;
      assert plan[..n][1..] == plan[1..][..m];
      AfterFront(fields, plan[..n]);
      forall i | 0 <= i < n
        ensures Takes(After(fields, plan[..n][..i]), plan[..n][i])
      {
        if i > 0 {
          assert plan[..n][..i][1..] == plan[1..][..m][..i - 1];
          AfterFront(fields, plan[..n][..i]);
        } else {
          assert plan[..n][..0] == [];
        }
      }
    }
  }

  /** What a camera shows after the engine, left alone, was asked to go back to the snapshot of `before`. */
  function TakenBack(now: seq<Field>, before: seq<Field>): seq<Field> {
    var back := RestorePlan(now, Captured(before));
    if back.Err? then now else Attempt(now, back.value)
  }

  /** The old value of every setting that differs passes the engine's validation as it is. */
  predicate OldValuesAdmitted(before: seq<Field>, now: seq<Field>) {
    forall key :: key in Dict(before) && Differs(before, now, key) ==>
      && Admissible(Dict(now)[key], Dict(before)[key].value)
      && Stored(Dict(now)[key].rule, Dict(before)[key].value) == Dict(before)[key].value
  }

  /** No threshold differs, or the old thresholds were far enough apart. */
  predicate OldGapAdmitted(before: seq<Field>, now: seq<Field>) {
    Differs(before, now, MIN) || Differs(before, now, MAX) ==> GapKept(before)
  }

  predicate WayBack(before: seq<Field>, now: seq<Field>) {
    AlertsAllowed(Dict(Captured(before))) && OldValuesAdmitted(before, now) && OldGapAdmitted(before, now)
  }

  /** The plan back: one write for each setting that differs, with its old value. */
  lemma BackPlan(before: seq<Field>, writes: seq<Item>)
    requires Document(before) && TakesAll(before, writes) && AlertsAllowed(Dict(Captured(before)))
    ensures var now := After(before, writes);
            && RestorePlan(now, Captured(before)).Ok?
            && var back := RestorePlan(now, Captured(before)).value;
               && WrittenOnce(back)
               && (forall x :: x in back ==> Differs(before, now, x.key) && x.value == Dict(before)[x.key].value)
               && (forall key :: Differs(before, now, key) ==> Item(key, Dict(before)[key].value) in back)
  {
    var now := After(before, writes);
    RollbackPlannedIff(before, writes);
    TakenReaches(before, writes);
    DictOfCaptured(before);
    PlanWritesTheDifferences(now, Captured(before));
    hide RestorePlan, Dict, Captured, AlertsAllowed, After, TakesAll, Rankable, RankedOrder, GapKept, Document;
    forall key | Differs(before, now, key)
      ensures Item(key, Dict(before)[key].value) in RestorePlan(now, Captured(before)).value
    {
      SameIsEqual(Dict(before)[key].value);
    }
  }

  /** Where the attempt stops or distorts a value, a setting that differs stays different. */
  lemma LostOnTheWay(before: seq<Field>, now: seq<Field>, back: seq<Item>, n: nat, p: nat)
    requires WrittenOnce(back) && n <= |back| && p < |back|
    requires Differs(before, now, back[p].key) && back[p].value == Dict(before)[back[p].key].value
    requires p >= n || Stored(Dict(now)[back[p].key].rule, back[p].value) != back[p].value
    ensures !SameValues(Dict(After(now, back[..n])), Dict(before))
  {
    AfterAt(now, back, p, n);
    hide After, Dict;
  }

  /** While a plan runs, what is not yet written is validated as it was at the start. */
  lemma StillAdmissible(now: seq<Field>, back: seq<Item>, i: nat)
    requires WrittenOnce(back) && i < |back| && back[i].key in Dict(now)
    ensures var state := Dict(After(now, back[..i]));
            && back[i].key in state && state[back[i].key] == Dict(now)[back[i].key]
  {
    AfterAt(now, back, i, i);
    AfterKeepsFields(now, back[..i]);
    hide After, Dict;
  }

  /** With every old value admitted as it is, only the gap check can refuse a write. */
  lemma OnlyTheGapRefuses(before: seq<Field>, now: seq<Field>, back: seq<Item>, i: nat)
    requires WrittenOnce(back) && i < |back| && OldValuesAdmitted(before, now) && Reached(before, now)
    requires forall x :: x in back ==> Differs(before, now, x.key) && x.value == Dict(before)[x.key].value
    ensures Takes(After(now, back[..i]), back[i]) <==> EngineAccepts(After(now, back[..i]), back[i])
  {
    assert back[i] in back && Differs(before, now, back[i].key);
    StillAdmissible(now, back, i);
    SameIsEqual(back[i].value);
    hide After, Dict, Stored, Admissible, EngineAccepts, GapKept;
  }

  lemma BackIsExact(before: seq<Field>, now: seq<Field>, back: seq<Item>)
    requires OldValuesAdmitted(before, now)
    requires forall x :: x in back ==> Differs(before, now, x.key) && x.value == Dict(before)[x.key].value
    ensures Exact(now, back) && forall i :: 0 <= i <= |back| ==> After(now, back[..i]) == Replay(now, back[..i])
  {
    hide Dict, Stored, Admissible, PyEq;
    forall i | 0 <= i <= |back|
      ensures After(now, back[..i]) == Replay(now, back[..i])
    {
      assert forall x :: x in back[..i] ==> x in back;
      ExactAfter(now, back[..i]);
    }
  }

  lemma OldThresholdBack(before: seq<Field>, writes: seq<Item>, key: string)
    requires Document(before) && TakesAll(before, writes) && AlertsAllowed(Dict(Captured(before)))
    requires Threshold(key) && key in Dict(before)
    ensures var now := After(before, writes);
            && RestorePlan(now, Captured(before)).Ok?
            && var final := Dict(Replay(now, RestorePlan(now, Captured(before)).value));
               key in final && final[key].value == Dict(before)[key].value
  {
    hide RestorePlan, Dict, Captured, AlertsAllowed, After, TakesAll, Document, Replay, GapKept, Latest;
    var now := After(before, writes);
    BackPlan(before, writes);
    TakenReaches(before, writes);
    var back := RestorePlan(now, Captured(before)).value;
    ReplayReadsAt(now, back, key);
    if Differs(before, now, key) {
      var p :| 0 <= p < |back| && back[p] == Item(key, Dict(before)[key].value);
      LatestAt(back, p, |back|, Dict(now)[key].value);
      assert back[..|back|] == back;
    } else {
      LatestAbsent(back, key, Dict(now)[key].value);
    }
  }

  lemma ReplayReadsAt(fields: seq<Field>, plan: seq<Item>, key: string)
    requires key in Dict(fields)
    ensures key in Dict(Replay(fields, plan))
    ensures Dict(Replay(fields, plan))[key].value == Latest(plan, key, Dict(fields)[key].value)
  {
    ReplayReads(fields, plan);
    hide Dict, Replay, Latest;
  }

  lemma SameThresholdValuesSameGap(one: seq<Field>, other: seq<Field>)
    requires Dict(one).Keys == Dict(other).Keys
    requires forall key :: Threshold(key) && key in Dict(one) ==> Dict(one)[key].value == Dict(other)[key].value
    ensures GapKept(one) == GapKept(other)
  {
    hide Dict;
    assert Threshold(MIN) && Threshold(MAX);
  }

  /** The old thresholds are back after the whole plan. */
  lemma ThresholdsComeBack(before: seq<Field>, writes: seq<Item>)
    requires Document(before) && TakesAll(before, writes) && AlertsAllowed(Dict(Captured(before)))
    ensures var now := After(before, writes);
            && RestorePlan(now, Captured(before)).Ok?
            && (Differs(before, now, MIN) || Differs(before, now, MAX) ==> GapKept(now))
            && GapKept(Replay(now, RestorePlan(now, Captured(before)).value)) == GapKept(before)
  {
    var now := After(before, writes);
    BackPlan(before, writes);
    TakenReaches(before, writes);
    var back := RestorePlan(now, Captured(before)).value;
    ReplayReads(now, back);
    hide RestorePlan, Dict, Captured, AlertsAllowed, After, TakesAll, Document, Replay, Latest, GapKept;
    if Differs(before, now, MIN) || Differs(before, now, MAX) {
      SameIsEqual(Dict(before)[if Differs(before, now, MIN) then MIN else MAX].value);
    }
    forall key | Threshold(key) && key in Dict(before)
      ensures Dict(Replay(now, back))[key].value == Dict(before)[key].value
    {
      OldThresholdBack(before, writes, key);
    }
    SameThresholdValuesSameGap(Replay(now, back), before);
  }

  /** The engine takes every write of the way back, and then every value is the old one. */
  lemma WayBackWorks(before: seq<Field>, writes: seq<Item>)
    requires Document(before) && TakesAll(before, writes) && WayBack(before, After(before, writes))
    ensures var now := After(before, writes);
            && RestorePlan(now, Captured(before)).Ok? && TakesAll(now, RestorePlan(now, Captured(before)).value)
            && SameValues(Dict(After(now, RestorePlan(now, Captured(before)).value)), Dict(before))
  {
    var now := After(before, writes);
    BackPlan(before, writes);
    TakenReaches(before, writes);
    ThresholdsComeBack(before, writes);
    var back := RestorePlan(now, Captured(before)).value;
    hide Document, RestorePlan, Dict, Captured, AlertsAllowed, After, TakesAll, Replay, GapKept, Differs, Takes,
      Reached,
      OldValuesAdmitted, EngineAccepts, SameValues;
    BackIsExact(before, now, back);
    WayBackTaken(before, now, back);
    assert back[..|back|] == back;
    ReplaysBack(before, writes);
  }

  lemma WayBackTaken(before: seq<Field>, now: seq<Field>, back: seq<Item>)
    requires RestorePlan(now, Captured(before)) == Ok(back)
    requires WrittenOnce(back) && OldValuesAdmitted(before, now) && OldGapAdmitted(before, now) && Reached(before, now)
    requires forall x :: x in back ==> Differs(before, now, x.key) && x.value == Dict(before)[x.key].value
    requires Differs(before, now, MIN) || Differs(before, now, MAX) ==> GapKept(now)
    requires GapKept(Replay(now, back)) == GapKept(before)
    requires forall i :: 0 <= i <= |back| ==> After(now, back[..i]) == Replay(now, back[..i])
    ensures TakesAll(now, back)
  {
    hide RestorePlan, Dict, Captured, After, Replay, GapKept, Differs, Takes, Reached, OldValuesAdmitted, BothSet,
      Update;
    if Differs(before, now, MIN) || Differs(before, now, MAX) {
      EveryWriteAcceptedIff(now, Captured(before));
    }
    forall i | 0 <= i < |back|
      ensures Takes(After(now, back[..i]), back[i])
    {
      assert back[i] in back;
      OnlyTheGapRefuses(before, now, back, i);
    }
  }

  /** Replaying the plan back gives the old values. */
  lemma ReplaysBack(before: seq<Field>, writes: seq<Item>)
    requires Document(before) && TakesAll(before, writes) && AlertsAllowed(Dict(Captured(before)))
    ensures var now := After(before, writes);
            && RestorePlan(now, Captured(before)).Ok?
            && SameValues(Dict(Replay(now, RestorePlan(now, Captured(before)).value)), Dict(before))
  {
    var now := After(before, writes);
    RollbackPlannedIff(before, writes);
    TakenReaches(before, writes);
    DictOfCaptured(before);
    ReplayRestores(now, Captured(before));
    hide RestorePlan, Dict, Captured, AlertsAllowed, After, TakesAll, Replay, GapKept, Document;
    forall key | key in Dict(before)
      ensures PyEq(Dict(Replay(now, RestorePlan(now, Captured(before)).value))[key].value, Dict(before)[key].value)
    {
      SameIsEqual(Dict(before)[key].value);
    }
  }

  /** With a value that is not admitted as it is, the way back does not end at the old values. */
  lemma RefusedValueIsLost(before: seq<Field>, writes: seq<Item>)
    requires Document(before) && TakesAll(before, writes) && AlertsAllowed(Dict(Captured(before)))
    requires !OldValuesAdmitted(before, After(before, writes))
    ensures !SameValues(Dict(TakenBack(After(before, writes), before)), Dict(before))
  {
    hide Document, RestorePlan, Dict, Captured, AlertsAllowed, After, TakesAll, Attempt, Stored, Admissible;
    var now := After(before, writes);
    BackPlan(before, writes);
    var back := RestorePlan(now, Captured(before)).value;
    var key :| key in Dict(before) && Differs(before, now, key)
               && !(Admissible(Dict(now)[key], Dict(before)[key].value)
                    && Stored(Dict(now)[key].rule, Dict(before)[key].value) == Dict(before)[key].value);
    var p :| 0 <= p < |back| && back[p] == Item(key, Dict(before)[key].value);
    var n := AttemptEnds(now, back);
    if p < n {
      TakenIsAdmissible(now, back, n, p);
    }
    LostOnTheWay(before, now, back, n, p);
  }

  lemma TakenIsAdmissible(now: seq<Field>, back: seq<Item>, n: nat, p: nat)
    requires WrittenOnce(back) && p < n <= |back| && TakesAll(now, back[..n]) && back[p].key in Dict(now)
    ensures Admissible(Dict(now)[back[p].key], back[p].value)
  {
    hide Dict, After, Admissible, EngineAccepts, Stored;
    StillAdmissible(now, back, p);
    assert back[..n][..p] == back[..p];
    assert Takes(After(now, back[..n][..p]), back[..n][p]);
  }

  /** With the old thresholds too close together, a threshold that differs is not taken back. */
  lemma RefusedGapIsLost(before: seq<Field>, writes: seq<Item>)
    requires Document(before) && TakesAll(before, writes) && AlertsAllowed(Dict(Captured(before)))
    requires OldValuesAdmitted(before, After(before, writes)) && !OldGapAdmitted(before, After(before, writes))
    ensures !SameValues(Dict(TakenBack(After(before, writes), before)), Dict(before))
  {
    var now := After(before, writes);
    BackPlan(before, writes);
    TakenReaches(before, writes);
    ThresholdsComeBack(before, writes);
    var back := RestorePlan(now, Captured(before)).value;
    BackIsExact(before, now, back);
    assert !GapKept(Replay(now, back)) && GapKept(now);
    hide *;
    GapStopsTheWay(before, now, back);
  }

  lemma GapStopsTheWay(before: seq<Field>, now: seq<Field>, back: seq<Item>)
    requires RestorePlan(now, Captured(before)) == Ok(back) && GapKept(now) && !GapKept(Replay(now, back))
    requires WrittenOnce(back) && OldValuesAdmitted(before, now) && Reached(before, now)
    requires forall x :: x in back ==> Differs(before, now, x.key) && x.value == Dict(before)[x.key].value
    requires forall i :: 0 <= i <= |back| ==> After(now, back[..i]) == Replay(now, back[..i])
    ensures !SameValues(Dict(TakenBack(now, before)), Dict(before))
  {
    hide RestorePlan, Dict, Captured, After, Attempt, Replay, GapKept, Takes, Reached, OldValuesAdmitted,
      EngineAccepts, Differs, SameValues;
    var n := AttemptEnds(now, back);
    if n == |back| {
      assert back[..n] == back;
      AllTakenKeepsGap(before, now, back);
      assert false;
    }
    assert back[n] in back;
    LostOnTheWay(before, now, back, n, n);
  }

  lemma AllTakenKeepsGap(before: seq<Field>, now: seq<Field>, back: seq<Item>)
    requires RestorePlan(now, Captured(before)) == Ok(back) && TakesAll(now, back) && GapKept(now)
    requires WrittenOnce(back) && OldValuesAdmitted(before, now) && Reached(before, now)
    requires forall x :: x in back ==> Differs(before, now, x.key) && x.value == Dict(before)[x.key].value
    requires forall i :: 0 <= i <= |back| ==> After(now, back[..i]) == Replay(now, back[..i])
    ensures GapKept(Replay(now, back))
  {
    hide RestorePlan, Dict, Captured, After, Replay, GapKept, Takes, Reached, OldValuesAdmitted, EngineAccepts, Differs;
    forall i | 0 <= i < |back|
      ensures EngineAccepts(Replay(now, back[..i]), back[i])
    {
      OnlyTheGapRefuses(before, now, back, i);
    }
    EveryWriteAcceptedIff(now, Captured(before));
  }

  /**
   * After any writes that the engine took, asking it to go back to the snapshot brings every value back exactly when
   * nothing differs to begin with, or the snapshot can be planned, every old value is itself valid, and the old
   * thresholds, if they are to be written, were 10 degrees apart.
   */
  lemma RollbackRestoresIff(before: seq<Field>, writes: seq<Item>)
    requires Document(before) && TakesAll(before, writes)
    ensures var now := After(before, writes);
            SameValues(Dict(TakenBack(now, before)), Dict(before))
            <==> SameValues(Dict(now), Dict(before)) || WayBack(before, now)
  {
    var now := After(before, writes);
    RollbackPlannedIff(before, writes);
    hide Document, RestorePlan, Dict, Captured, AlertsAllowed, After, TakesAll, OldValuesAdmitted, OldGapAdmitted, PyEq;
    if AlertsAllowed(Dict(Captured(before))) {
      if SameValues(Dict(now), Dict(before)) {
        NothingToTakeBack(before, writes);
      } else if WayBack(before, now) {
        WayBackWorks(before, writes);
        WholeAttempt(now, RestorePlan(now, Captured(before)).value);
      } else if OldValuesAdmitted(before, now) {
        RefusedGapIsLost(before, writes);
      } else {
        RefusedValueIsLost(before, writes);
      }
    }
  }

  lemma NothingToTakeBack(before: seq<Field>, writes: seq<Item>)
    requires Document(before) && TakesAll(before, writes) && AlertsAllowed(Dict(Captured(before)))
    requires SameValues(Dict(After(before, writes)), Dict(before))
    ensures TakenBack(After(before, writes), before) == After(before, writes)
  {
    var now := After(before, writes);
    BackPlan(before, writes);
    var back := RestorePlan(now, Captured(before)).value;
    hide Document, RestorePlan, Dict, Captured, AlertsAllowed, After, TakesAll;
    assert back != [] ==> back[0] in back && Differs(before, now, back[0].key);
    assert back == [];
  }

  lemma WholeAttempt(fields: seq<Field>, plan: seq<Item>)
    requires TakesAll(fields, plan)
    ensures Attempt(fields, plan) == After(fields, plan)
  {
    var n := AttemptEnds(fields, plan);
    assert plan[..|plan|] == plan;
  }

  // ---------- restoring

  /** `current[key] == value` for every saved field. */
  predicate ValuesMatch(current: seq<Field>, saved: seq<Field>) {
    forall f :: f in saved ==> f.key in Dict(current) && PyEq(Dict(current)[f.key].value, f.value)
  }

  predicate Consistent(saved: seq<Field>) {
    forall f :: f in saved ==> f.key in Dict(saved) && PyEq(Dict(saved)[f.key].value, f.value)
  }

  lemma {:induction false} EveryKeyCounts(fields: seq<Field>, f: Field)
    requires f in fields
    ensures f.key in Dict(fields)
    decreases |fields|
  {
    if f != fields[|fields| - 1] {
      EveryKeyCounts(fields[..|fields| - 1], f);
    }
  }

  /**
   * The final check of a restore passes exactly when the backup does not give one key two values and every value
   * written is stored as it is.
   */
  lemma FinalCheckIff(current: seq<Field>, saved: seq<Field>)
    requires RestorePlan(current, saved).Ok?
    ensures var plan := RestorePlan(current, saved).value;
            ValuesMatch(After(current, plan), saved) <==> Consistent(saved) && Exact(current, plan)
  {
    var plan := RestorePlan(current, saved).value;
    PlanWritesTheDifferences(current, saved);
    hide RestorePlan;
    if Exact(current, plan) {
      ExactAfter(current, plan);
      ReplayRestores(current, saved);
      var final := Dict(Replay(current, plan));
      hide Dict, Replay, After, Exact, Rankable, RankedOrder;
      forall f | f in saved
        ensures f.key in Dict(saved)
      {
        EveryKeyCounts(saved, f);
      }
    } else {
      InexactIsNoticed(current, saved);
    }
  }

  lemma InexactIsNoticed(current: seq<Field>, saved: seq<Field>)
    requires RestorePlan(current, saved).Ok? && !Exact(current, RestorePlan(current, saved).value)
    ensures !ValuesMatch(After(current, RestorePlan(current, saved).value), saved)
  {
    hide RestorePlan, Dict, After, Rankable, RankedOrder;
    var plan := RestorePlan(current, saved).value;
    PlanWritesTheDifferences(current, saved);
    KeysOfDict(saved);
    var x :| x in plan && !(x.key in Dict(current) && Stored(Dict(current)[x.key].rule, x.value) == x.value);
    var p :| 0 <= p < |plan| && plan[p] == x;
    AfterAt(current, plan, p, |plan|);
    assert plan[..|plan|] == plan;
    var f := Dict(saved)[x.key];
    assert f in saved && f.value == x.value;
  }

  // ---------- two cameras that cannot be taken back

  lemma OneFieldDict(f: Field)
    ensures Dict([f]) == map[f.key := f] && Captured([f]) == if f.writable then [f] else []
  {
    assert [f][..0] == [];
  }

  /** A camera with one setting takes a valid value for it. */
  lemma OneWriteTaken(f: Field, value: Py)
    requires f.writable && !Threshold(f.key) && Admissible(f, value) && Stored(f.rule, value) == value
    ensures Document([f]) && TakesAll([f], [Item(f.key, value)])
    ensures After([f], [Item(f.key, value)]) == [f.(value := value)]
  {
    var x := Item(f.key, value);
    OneFieldDict(f);
    hide Admissible, Stored;
    assert [x][..0] == [] && [f][..0] == [] && Update([], x.key, x.value) == [];
    assert After([f], []) == [f];
    assert Write([f], x) == [f.(value := value)];
  }

  lemma DifferentValues(before: seq<Field>, now: seq<Field>, key: string)
    requires Differs(before, now, key)
    ensures !SameValues(Dict(now), Dict(before))
  {
    hide Dict;
  }

  /** The way back of a camera with one setting: it shows another value now, and the old one is not admitted. */
  lemma OneFieldWayBack(f: Field, value: Py)
    requires f.writable && !PyEq(f.value, value) && !PyEq(value, f.value) && !Admissible(f.(value := value), f.value)
    ensures Differs([f], [f.(value := value)], f.key) && !WayBack([f], [f.(value := value)])
  {
    hide Dict, Captured, Admissible, GapKept, PyEq;
    OneFieldDict(f);
    OneFieldDict(f.(value := value));
  }

  /** The camera shows a clip length of 62 seconds, which no write may set; 60 was written and stays. */
  lemma OddClipLengthStays()
    ensures var before := [Field("clip_length", Int(62), true, Range(5, 60, 5))];
            var writes := [Item("clip_length", Int(60))];
            && Document(before) && TakesAll(before, writes)
            && After(before, writes) == [Field("clip_length", Int(60), true, Range(5, 60, 5))]
            && !SameValues(Dict(TakenBack(After(before, writes), before)), Dict(before))
  {
    hide TakesAll, After, SameValues, TakenBack, Document, Dict, Captured, WayBack, Differs;
    var f := Field("clip_length", Int(62), true, Range(5, 60, 5));
    var now := [f.(value := Int(60))];
    assert !Threshold("clip_length");
    OneWriteTaken(f, Int(60));
    OneFieldWayBack(f, Int(60));
    RollbackRestoresIff([f], [Item("clip_length", Int(60))]);
    DifferentValues([f], now, "clip_length");
  }

  /**
   * Alerts are on and no temperature is measured, so the thresholds are not writable and not in the snapshot: after
   * any other write the snapshot cannot be planned any more.
   */
  lemma AlertsBlockTheWayBack()
    ensures var before := [Field(MIN, Int(40), false, Range(-4, 113, 1)), Field(MAX, Int(80), false, Range(-4, 113, 1)),
                           Field(ALERTS, Bool(true), true, Switch), Field("flip_video", Bool(false), true, Switch)];
            var writes := [Item("flip_video", Bool(true))];
            && Document(before) && TakesAll(before, writes)
            && RestorePlan(After(before, writes), Captured(before)).Err?
  {
    var low := Field(MIN, Int(40), false, Range(-4, 113, 1));
    var high := Field(MAX, Int(80), false, Range(-4, 113, 1));
    var alerts := Field(ALERTS, Bool(true), true, Switch);
    var flip := Field("flip_video", Bool(false), true, Switch);
    var before := [low, high, alerts, flip];
    var x := Item("flip_video", Bool(true));
    FourFields(low, high, alerts, flip);
    assert [x][..0] == [] && After(before, []) == before;
    assert !Threshold("flip_video");
    assert Takes(before, x);
    assert TakesAll(before, [x]);
    assert UniqueKeys(before);
    hide TakesAll, After, RestorePlan, Captured, Takes, EngineAccepts;
    RollbackPlannedIff(before, [x]);
    DictOfCaptured(before);
    assert ALERTS in Dict(Captured(before)) && MIN !in Dict(Captured(before));
  }

  lemma FourFields(a: Field, b: Field, c: Field, d: Field)
    ensures Dict([a, b, c, d]) == map[a.key := a][b.key := b][c.key := c][d.key := d]
  {
    assert [a, b, c, d][..3] == [a, b, c] && [a, b, c][..2] == [a, b] && [a, b][..1] == [a] && [a][..0] == [];
    assert Dict([a]) == map[a.key := a];
    assert Dict([a, b]) == map[a.key := a][b.key := b];
    assert Dict([a, b, c]) == map[a.key := a][b.key := b][c.key := c];
  }
}
