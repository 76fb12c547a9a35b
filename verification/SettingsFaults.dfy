/**
 * Applying a backup to cameras that are willing to be restored and taken back, with one fault at any call of any of
 * them: exactly when the old values are back afterwards, and concrete runs in which they are not.
 */
module SettingsFaults {
  import opened Wrappers
  import opened SettingsRestore
  import opened SettingsEngine
  import opened SettingsBackup

  // ---------- one fault anywhere

  function PlanOf(t: Target): seq<Item>
    requires RestorePlan(t.revision, t.saved).Ok?
  {
    RestorePlan(t.revision, t.saved).value
  }

  /** Left alone, this camera takes its backup, and would take its old values again afterwards. */
  predicate Willing(t: Target) {
    && Document(t.revision) && RestorePlan(t.revision, t.saved).Ok? && Consistent(t.saved)
    && TakesAll(t.revision, PlanOf(t)) && Exact(t.revision, PlanOf(t))
    && (PlanOf(t) != [] ==> WayBack(t.revision, After(t.revision, PlanOf(t))))
  }

  function Quiets(n: nat): seq<Turn> {
    if n == 0 then [] else [QUIET] + Quiets(n - 1)
  }

  predicate IsFault(turn: Turn) {
    turn.others.None? && (turn.outcome.Normal? ==> !turn.named)
  }

  /** What a restore reports whose write `p` meets the fault. */
  function Faulted(expected: Revision, plan: seq<Item>, p: nat, turn: Turn): Report
    requires p < |plan|
  {
    StoppedAt(After(expected, plan[..p]), After(expected, plan[..p + 1]), p, turn)
  }

  function StoppedAt(before: seq<Field>, after: seq<Field>, p: nat, turn: Turn): Report {
    match turn.outcome
    case Refused(status) => Report(Failed(CameraApplyError(status, p > 0, Some(before))), Camera(before, []))
    case Late(status) => Report(Failed(CameraApplyError(status, p > 0, Some(before))), Camera(after, []))
    case Escaped(applied) => Report(Broke, Camera(if applied then after else before, []))
    case Normal => Report(Failed(CameraApplyError(None, true, None)), Camera(after, []))
  }

  lemma OneQuietWrite(expected: Revision, plan: seq<Item>, i: nat, rest: seq<Turn>)
    requires i < |plan| && Takes(After(expected, plan[..i]), plan[i])
    ensures PostAll(Camera(After(expected, plan[..i]), [QUIET] + rest), plan[i..], After(expected, plan[..i]), i > 0)
         == PostAll(Camera(After(expected, plan[..i + 1]), rest), plan[i + 1..], After(expected, plan[..i + 1]), true)
  {
    AfterOneMore(expected, plan, i);
    QuietPost(After(expected, plan[..i]), plan[i], rest);
    hide Takes, Write, After, Post;
    assert plan[i..][0] == plan[i] && plan[i..][1..] == plan[i + 1..];
  }

  lemma QuietPost(now: seq<Field>, item: Item, rest: seq<Turn>)
    requires Takes(now, item)
    ensures Post(Camera(now, [QUIET] + rest), item, now)
         == Answer(Ok(Reply(Write(now, item), Some(Write(now, item)))), Camera(Write(now, item), rest))
  {
    hide Takes, Write;
    assert ([QUIET] + rest)[0] == QUIET && ([QUIET] + rest)[1..] == rest;
  }

  lemma FaultyPost(now: seq<Field>, item: Item, turn: Turn)
    requires Takes(now, item) && IsFault(turn)
    ensures var next := Write(now, item);
            Post(Camera(now, [turn]), item, now)
            == match turn.outcome
               case Refused(status) => Answer(Err(Fault(status)), Camera(now, []))
               case Late(status) => Answer(Err(Fault(status)), Camera(next, []))
               case Escaped(applied) => Answer(Err(Escaping), Camera(if applied then next else now, []))
               case Normal => Answer(Ok(Reply(next, None)), Camera(next, []))
  {
    hide Takes, Write;
    assert [turn][1..] == [];
  }

  lemma {:induction false} FaultInWrites(expected: Revision, plan: seq<Item>, i: nat, m: nat, turn: Turn)
    requires i <= |plan| && TakesAll(expected, plan) && IsFault(turn)
    ensures var now := After(expected, plan[..i]);
            PostAll(Camera(now, Quiets(m) + [turn]), plan[i..], now, i > 0)
            == if i + m < |plan| then Faulted(expected, plan, i + m, turn)
               else Report(Ran(Done(plan != [], After(expected, plan))),
                           Camera(After(expected, plan), Quiets(i + m - |plan|) + [turn]))
    decreases |plan| - i
  {
    hide *;
    if i == |plan| {
      FaultAfterWrites(expected, plan, m, turn);
    } else {
      TakesAt(expected, plan, i);
      if m == 0 {
        NoQuiets(turn);
        FaultAt(expected, plan, i, turn);
      } else {
        OneQuiet(m, turn);
        OneQuietWrite(expected, plan, i, Quiets(m - 1) + [turn]);
        FaultInWrites(expected, plan, i + 1, m - 1, turn);
      }
    }
  }

  lemma TakesAt(fields: seq<Field>, plan: seq<Item>, i: nat)
    requires TakesAll(fields, plan) && i < |plan|
    ensures Takes(After(fields, plan[..i]), plan[i])
  {
    hide Takes, After;
  }

  lemma NoQuiets(turn: Turn)
    ensures Quiets(0) + [turn] == [turn]
  {
  }

  lemma OneQuiet(m: nat, turn: Turn)
    requires m > 0
    ensures Quiets(m) + [turn] == [QUIET] + (Quiets(m - 1) + [turn])
  {
  }

  lemma FaultAfterWrites(expected: Revision, plan: seq<Item>, m: nat, turn: Turn)
    ensures var now := After(expected, plan[..|plan|]);
            PostAll(Camera(now, Quiets(m) + [turn]), plan[|plan|..], now, |plan| > 0)
            == Report(Ran(Done(plan != [], After(expected, plan))), Camera(After(expected, plan), Quiets(m) + [turn]))
  {
    hide After;
    assert plan[|plan|..] == [] && plan[..|plan|] == plan;
  }

  lemma FaultAt(expected: Revision, plan: seq<Item>, i: nat, turn: Turn)
    requires i < |plan| && IsFault(turn) && Takes(After(expected, plan[..i]), plan[i])
    ensures var now := After(expected, plan[..i]);
            PostAll(Camera(now, [turn]), plan[i..], now, i > 0) == Faulted(expected, plan, i, turn)
  {
    AfterOneMore(expected, plan, i);
    FaultyPost(After(expected, plan[..i]), plan[i], turn);
    hide Takes, Write, After, Post, IsFault;
    assert plan[i..][0] == plan[i];
  }

  lemma {:induction false} CalmWrites(expected: Revision, plan: seq<Item>, i: nat)
    requires i <= |plan| && TakesAll(expected, plan)
    ensures var now := After(expected, plan[..i]);
            PostAll(Camera(now, []), plan[i..], now, i > 0)
            == Report(Ran(Done(plan != [], After(expected, plan))), Camera(After(expected, plan), []))
    decreases |plan| - i
  {
    hide Takes, Write;
    if i == |plan| {
      assert plan[i..] == [] && plan[..i] == plan;
    } else {
      assert plan[i..][0] == plan[i] && plan[i..][1..] == plan[i + 1..];
      AfterOneMore(expected, plan, i);
      assert Takes(After(expected, plan[..i]), plan[i]);
      hide After, TakesAll;
      CalmWrites(expected, plan, i + 1);
    }
  }

  /** Left alone, a willing camera is restored. */
  lemma WillingSucceeds(t: Target)
    requires Willing(t)
    ensures Restore(Camera(t.revision, []), t.saved, t.revision)
         == Report(Ran(Done(PlanOf(t) != [], After(t.revision, PlanOf(t)))), Camera(After(t.revision, PlanOf(t)), []))
  {
    var plan := PlanOf(t);
    assert plan[..0] == [] && plan[0..] == plan;
    AfterNothing(t.revision);
    CalmWrites(t.revision, plan, 0);
    FinalCheckIff(t.revision, t.saved);
    hide RestorePlan, After, ValuesMatch, Consistent, TakesAll, Exact, WayBack, Document, PostAll;
  }

  /** The answer to the fault when it meets the last read. */
  function FaultedCheck(done: Done, turn: Turn): Report {
    var fault := match turn.outcome
      case Refused(status) => Fault(status)
      case Late(status) => Fault(status)
      case Escaped(_) => Escaping
      case Normal => Fault(CONFLICT);
    Report(Ended(fault, done.changed, done.revision), Camera(done.revision, []))
  }

  /** The report of a willing camera whose call `m` meets the fault: the first read, a write, or the last read. */
  function FaultReport(t: Target, m: nat, turn: Turn): Report
    requires RestorePlan(t.revision, t.saved).Ok? && m <= |PlanOf(t)| + 1
  {
    if m == 0 then FaultedCheck(Done(false, t.revision), turn)
    else if m <= |PlanOf(t)| then Faulted(t.revision, PlanOf(t), m - 1, turn)
    else FaultedCheck(Done(PlanOf(t) != [], After(t.revision, PlanOf(t))), turn)
  }

  lemma FaultIsReported(t: Target, m: nat, turn: Turn)
    requires Willing(t) && IsFault(turn) && m <= |PlanOf(t)| + 1
    ensures Restore(Camera(t.revision, Quiets(m) + [turn]), t.saved, t.revision) == FaultReport(t, m, turn)
  {
    hide *;
    WillingParts(t);
    ReportsOfFault(t, m, turn);
    if m == 0 {
      NoQuiets(turn);
      FaultedFirst(t.revision, t.saved, turn);
    } else {
      OneQuiet(m, turn);
      LaterFault(t.revision, t.saved, PlanOf(t), m - 1, turn);
    }
  }

  lemma WillingParts(t: Target)
    requires Willing(t)
    ensures RestorePlan(t.revision, t.saved).Ok? && TakesAll(t.revision, PlanOf(t))
  {
    hide RestorePlan, TakesAll;
  }

  lemma LaterFault(expected: Revision, saved: seq<Field>, plan: seq<Item>, m: nat, turn: Turn)
    requires RestorePlan(expected, saved) == Ok(plan) && TakesAll(expected, plan) && IsFault(turn) && m <= |plan|
    ensures Restore(Camera(expected, [QUIET] + (Quiets(m) + [turn])), saved, expected)
         == if m < |plan| then Faulted(expected, plan, m, turn)
            else FaultedCheck(Done(plan != [], After(expected, plan)), turn)
  {
    hide *;
    QuietFirst(expected, saved, Quiets(m) + [turn]);
    if m < |plan| {
      FaultedWrite(expected, plan, m, turn);
    } else {
      FaultedRead(expected, plan, saved, turn);
    }
  }

  lemma ReportsOfFault(t: Target, m: nat, turn: Turn)
    requires RestorePlan(t.revision, t.saved).Ok? && m <= |PlanOf(t)| + 1
    ensures PlanOf(t) == RestorePlan(t.revision, t.saved).value
    ensures m == 0 ==> FaultReport(t, m, turn) == FaultedCheck(Done(false, t.revision), turn)
    ensures 0 < m <= |PlanOf(t)| ==> FaultReport(t, m, turn) == Faulted(t.revision, PlanOf(t), m - 1, turn)
    ensures m == |PlanOf(t)| + 1 ==>
              FaultReport(t, m, turn) == FaultedCheck(Done(PlanOf(t) != [], After(t.revision, PlanOf(t))), turn)
  {
    hide RestorePlan, After, Faulted, FaultedCheck;
  }

  lemma FaultedFirst(expected: Revision, saved: seq<Field>, turn: Turn)
    requires IsFault(turn)
    ensures Restore(Camera(expected, [turn]), saved, expected) == FaultedCheck(Done(false, expected), turn)
  {
    hide RestorePlan, PostAll, Checked;
    assert [turn][1..] == [];
  }

  lemma QuietFirst(expected: Revision, saved: seq<Field>, rest: seq<Turn>)
    requires RestorePlan(expected, saved).Ok?
    ensures var posted := PostAll(Camera(expected, rest), RestorePlan(expected, saved).value, expected, false);
            Restore(Camera(expected, [QUIET] + rest), saved, expected)
            == if posted.ending.Ran? then Checked(posted.camera, saved, posted.ending.done) else posted
  {
    hide RestorePlan, PostAll, Checked;
    assert ([QUIET] + rest)[0] == QUIET && ([QUIET] + rest)[1..] == rest;
  }

  lemma FaultedWrite(expected: Revision, plan: seq<Item>, p: nat, turn: Turn)
    requires p < |plan| && TakesAll(expected, plan) && IsFault(turn)
    ensures PostAll(Camera(expected, Quiets(p) + [turn]), plan, expected, false) == Faulted(expected, plan, p, turn)
    ensures !Faulted(expected, plan, p, turn).ending.Ran?
  {
    hide *;
    AfterNothing(expected);
    assert plan[..0] == [] && plan[0..] == plan;
    FaultInWrites(expected, plan, 0, p, turn);
    FaultedFails(expected, plan, p, turn);
  }

  lemma FaultedFails(expected: Revision, plan: seq<Item>, p: nat, turn: Turn)
    requires p < |plan|
    ensures !Faulted(expected, plan, p, turn).ending.Ran?
  {
    hide After;
  }

  lemma FaultedRead(expected: Revision, plan: seq<Item>, saved: seq<Field>, turn: Turn)
    requires TakesAll(expected, plan) && IsFault(turn)
    ensures var posted := PostAll(Camera(expected, Quiets(|plan|) + [turn]), plan, expected, false);
            && posted.ending.Ran?
            && Checked(posted.camera, saved, posted.ending.done)
               == FaultedCheck(Done(plan != [], After(expected, plan)), turn)
  {
    assert plan[..0] == [] && plan[0..] == plan;
    AfterNothing(expected);
    FaultInWrites(expected, plan, 0, |plan|, turn);
    NoQuiets(turn);
    hide After, PostAll, TakesAll, Quiets, Checked, FaultedCheck, IsFault;
    FaultAtCheck(After(expected, plan), saved, plan != [], turn);
  }

  lemma FaultAtCheck(now: seq<Field>, saved: seq<Field>, changed: bool, turn: Turn)
    requires IsFault(turn)
    ensures Checked(Camera(now, [turn]), saved, Done(changed, now)) == FaultedCheck(Done(changed, now), turn)
  {
    hide ValuesMatch;
    assert [turn][1..] == [];
  }

  /**
   * Calls are counted from the first read, over the `n` writes, to the last read. Harmless for the camera itself are:
   * a fault while nothing was written; a refused write, unless earlier ones were taken and it is a conflict; the last
   * read, likewise.
   */
  predicate Harmless(m: nat, n: nat, turn: Turn) {
    || m == 0
    || n == 0
    || match turn.outcome
       case Escaped(applied) => m == 1 && !applied
       case Refused(status) => m == 1 || status != CONFLICT
       case Late(status) => m == n + 1 && status != CONFLICT
       case Normal => false
  }

  /** Part-way through its plan a willing camera differs from its snapshot, and can be taken back. */
  lemma PartWay(t: Target, n: nat)
    requires Willing(t) && 0 < n <= |PlanOf(t)|
    ensures var now := After(t.revision, PlanOf(t)[..n]);
            WayBack(t.revision, now) && !SameValues(Dict(now), Dict(t.revision))
  {
    var plan := PlanOf(t);
    PlanWritesTheDifferences(t.revision, t.saved);
    hide RestorePlan, Dict, Captured, AlertsAllowed, After, TakesAll, Stored, GapKept, PyEq, Rank, WayBack, Document,
      Consistent;
    PartWayBack(t.revision, plan, n);
    AfterAt(t.revision, plan, 0, n);
    assert plan[0] in plan;
    DifferentValues(t.revision, After(t.revision, plan[..n]), plan[0].key);
  }

  lemma PartWayBack(before: seq<Field>, plan: seq<Item>, n: nat)
    requires WrittenOnce(plan) && n <= |plan| && WayBack(before, After(before, plan))
    ensures WayBack(before, After(before, plan[..n]))
  {
    var now, full := After(before, plan[..n]), After(before, plan);
    AfterKeepsFields(before, plan[..n]);
    AfterKeepsFields(before, plan);
    hide Dict, Captured, AlertsAllowed, After, Stored, Admissible, GapKept, PyEq;
    forall key | Differs(before, now, key)
      ensures Differs(before, full, key) && Dict(now)[key] == Dict(full)[key]
    {
      PrefixValue(before, plan, n, key);
      SameIsEqual(Dict(before)[key].value);
    }
  }

  lemma PrefixValue(fields: seq<Field>, plan: seq<Item>, n: nat, key: string)
    requires WrittenOnce(plan) && n <= |plan| && key in Dict(fields)
    ensures key in Dict(After(fields, plan[..n])) && key in Dict(After(fields, plan))
    ensures Dict(After(fields, plan[..n]))[key] == Dict(After(fields, plan))[key]
            || Dict(After(fields, plan[..n]))[key].value == Dict(fields)[key].value
  {
    hide After, Dict, Stored;
    AfterKeepsFields(fields, plan[..n]);
    AfterKeepsFields(fields, plan);
    assert plan[..|plan|] == plan;
    if p :| 0 <= p < |plan| && plan[p].key == key {
      AfterAt(fields, plan, p, n);
      AfterAt(fields, plan, p, |plan|);
    } else {
      AfterAbsent(fields, plan[..n], key);
    }
  }

  /** What a fault at call `m` leaves of a willing camera. */
  lemma FaultUndoneIff(t: Target, m: nat, turn: Turn)
    requires Willing(t) && IsFault(turn) && m <= |PlanOf(t)| + 1
    ensures var report := FaultReport(t, m, turn);
            && !report.ending.Ran? && report.camera.script == []
            && (SameValues(Dict(report.camera.settings), Dict(t.revision)) || UndoWorks(report, t.revision)
                <==> Harmless(m, |PlanOf(t)|, turn))
  {
    var plan := PlanOf(t);
    hide *;
    ReportsOfFault(t, m, turn);
    if 0 < m <= |plan| {
      FaultedWriteIff(t, m, turn);
    } else {
      FaultedReadIff(t, m, turn);
    }
  }

  lemma FaultedReadIff(t: Target, m: nat, turn: Turn)
    requires Willing(t) && IsFault(turn) && (m == 0 || m == |PlanOf(t)| + 1)
    ensures var report := if m == 0 then FaultedCheck(Done(false, t.revision), turn)
                          else FaultedCheck(Done(PlanOf(t) != [], After(t.revision, PlanOf(t))), turn);
            && !report.ending.Ran? && report.camera.script == []
            && (SameValues(Dict(report.camera.settings), Dict(t.revision)) || UndoWorks(report, t.revision)
                <==> Harmless(m, |PlanOf(t)|, turn))
  {
    hide RestorePlan, Dict, After, TakesAll, WayBack, SameValues, Document, Exact, Consistent;
    var n := |PlanOf(t)|;
    assert PlanOf(t)[..n] == PlanOf(t);
    AfterNothing(t.revision);
    SameAsItself(t.revision);
    if m == n + 1 && n > 0 {
      PartWay(t, n);
    }
  }

  lemma FaultedWriteIff(t: Target, m: nat, turn: Turn)
    requires Willing(t) && IsFault(turn) && 0 < m <= |PlanOf(t)|
    ensures var report := Faulted(t.revision, PlanOf(t), m - 1, turn);
            && !report.ending.Ran? && report.camera.script == []
            && (SameValues(Dict(report.camera.settings), Dict(t.revision)) || UndoWorks(report, t.revision)
                <==> Harmless(m, |PlanOf(t)|, turn))
  {
    var before, after := After(t.revision, PlanOf(t)[..m - 1]), After(t.revision, PlanOf(t)[..m]);
    hide Willing;
    PartWay(t, m);
    if m > 1 {
      PartWay(t, m - 1);
    } else {
      assert PlanOf(t)[..0] == [];
      AfterNothing(t.revision);
    }
    WritesDiffer(t, m);
    hide RestorePlan, Dict, After, WayBack, SameValues, PlanOf;
    StoppedIff(t.revision, before, after, m - 1, turn);
  }

  lemma WritesDiffer(t: Target, m: nat)
    requires Willing(t) && 0 < m <= |PlanOf(t)|
    ensures After(t.revision, PlanOf(t)[..m - 1]) != After(t.revision, PlanOf(t)[..m])
  {
    var plan := PlanOf(t);
    PlanWritesTheDifferences(t.revision, t.saved);
    hide RestorePlan, Dict, After, TakesAll, WayBack, Document, Consistent, Stored;
    assert plan[m - 1] in plan;
    SameIsEqual(plan[m - 1].value);
    AfterAt(t.revision, plan, m - 1, m - 1);
    AfterAt(t.revision, plan, m - 1, m);
  }

  /** A fault at write `p`, before and after which the camera shows `before` and `after`. */
  lemma StoppedIff(revision: Revision, before: seq<Field>, after: seq<Field>, p: nat, turn: Turn)
    requires IsFault(turn) && before != after && !SameValues(Dict(after), Dict(revision))
    requires if p == 0 then before == revision
             else WayBack(revision, before) && !SameValues(Dict(before), Dict(revision))
    ensures var report := StoppedAt(before, after, p, turn);
            && !report.ending.Ran? && report.camera.script == []
            && (SameValues(Dict(report.camera.settings), Dict(revision)) || UndoWorks(report, revision)
                <==> match turn.outcome
                     case Escaped(applied) => p == 0 && !applied
                     case Refused(status) => p == 0 || status != CONFLICT
                     case _ => false)
  {
    SameAsItself(revision);
    hide Dict, WayBack, SameValues;
  }

  /**
   * Every camera is where its snapshot found it, willing and left alone, but for one fault at call `m` of camera `f`.
   */
  ghost predicate OneFault(cameras: seq<Camera>, targets: seq<Target>, f: nat, m: nat, turn: Turn) {
    && Known(cameras, targets) && DistinctCameras(targets) && f < |targets| && IsFault(turn)
    && (forall j :: 0 <= j < |targets| ==>
          && Willing(targets[j])
          && cameras[targets[j].camera] == Camera(targets[j].revision, if j == f then Quiets(m) + [turn] else []))
    && m <= |PlanOf(targets[f])| + 1
  }

  /** A camera before `f` had something to restore. */
  ghost predicate WroteBefore(targets: seq<Target>, f: nat)
    requires f <= |targets| && forall j :: 0 <= j < f ==> RestorePlan(targets[j].revision, targets[j].saved).Ok?
  {
    exists j :: 0 <= j < f && PlanOf(targets[j]) != []
  }

  /**
   * All or nothing, for a fault at any call of any camera and plans of any length: the restore fails, and then every
   * camera shows its old values if and only if the fault is harmless for its own camera and, if it escaped, no camera
   * before it had been written to.
   */
  lemma OneFaultIff(cameras: seq<Camera>, targets: seq<Target>, refreshed: bool, f: nat, m: nat, turn: Turn)
    requires OneFault(cameras, targets, f, m, turn)
    ensures var r := ApplyBackup(cameras, targets, refreshed);
            && !r.ok
            && ((forall j :: 0 <= j < |targets| ==>
                   SameValues(Dict(r.cameras[targets[j].camera].settings), Dict(targets[j].revision)))
                <==> Harmless(m, |PlanOf(targets[f])|, turn)
                     && !(turn.outcome.Escaped? && WroteBefore(targets, f)))
  {
    var r := ApplyBackup(cameras, targets, refreshed);
    OneFaultSetting(cameras, targets, f, m, turn);
    forall j | 0 <= j < |targets|
      ensures SameValues(Dict(r.cameras[targets[j].camera].settings), Dict(targets[j].revision))
              <==> if j == f then Harmless(m, |PlanOf(targets[f])|, turn)
                   else j > f || !turn.outcome.Escaped? || PlanOf(targets[j]) == []
    {
      OneFaultOne(cameras, targets, refreshed, f, m, turn, j);
    }
    assert !r.ok by {
      ApplyUndoneIff(cameras, targets, refreshed, f, f);
    }
    hide *;
    OnlyEarlierOnes(targets, f, turn);
  }

  lemma OnlyEarlierOnes(targets: seq<Target>, f: nat, turn: Turn)
    requires f < |targets| && forall j :: 0 <= j < |targets| ==> Willing(targets[j])
    ensures forall j :: 0 <= j < |targets| ==> RestorePlan(targets[j].revision, targets[j].saved).Ok?
    ensures (forall j :: 0 <= j < |targets| ==>
               j == f || j > f || !turn.outcome.Escaped? || PlanOf(targets[j]) == [])
            <==> !(turn.outcome.Escaped? && WroteBefore(targets, f))
  {
    hide RestorePlan, PlanOf, Document, Consistent, TakesAll, Exact, WayBack;
  }

  /** The restores before the fault succeed, the one that meets it does not, and all cameras are left alone after it. */
  lemma OneFaultSetting(cameras: seq<Camera>, targets: seq<Target>, f: nat, m: nat, turn: Turn)
    requires OneFault(cameras, targets, f, m, turn)
    ensures Preflight(targets) && FailsAt(cameras, targets, f)
    ensures forall j :: 0 <= j < |targets| ==> ReportOf(cameras, targets[j]).camera.script == []
    ensures ReportOf(cameras, targets[f]) == FaultReport(targets[f], m, turn)
    ensures forall j :: 0 <= j < |targets| && j != f ==> ReportOf(cameras, targets[j]).ending.Ran?
    ensures ReportOf(cameras, targets[f]).ending.Broke? <==> turn.outcome.Escaped?
  {
    WillingPreflight(targets);
    FaultIsReported(targets[f], m, turn);
    FaultUndoneIff(targets[f], m, turn);
    EscapesIff(targets[f], m, turn);
    hide Restore, RestorePlan, After, WayBack, SameValues, Document, Quiets, Preflight, Exact, TakesAll, Consistent,
      Harmless, UndoWorks, FaultReport;
    forall j | 0 <= j < |targets| && j != f
      ensures ReportOf(cameras, targets[j]).ending.Ran? && ReportOf(cameras, targets[j]).camera.script == []
    {
      WillingSucceeds(targets[j]);
    }
  }

  lemma EscapesIff(t: Target, m: nat, turn: Turn)
    requires Willing(t) && IsFault(turn) && m <= |PlanOf(t)| + 1
    ensures FaultReport(t, m, turn).ending.Broke? <==> turn.outcome.Escaped?
  {
    hide RestorePlan, After, PlanOf;
  }

  lemma OneFaultOne(cameras: seq<Camera>, targets: seq<Target>, refreshed: bool, f: nat, m: nat, turn: Turn, j: nat)
    requires OneFault(cameras, targets, f, m, turn) && j < |targets|
    ensures SameValues(Dict(ApplyBackup(cameras, targets, refreshed).cameras[targets[j].camera].settings),
                       Dict(targets[j].revision))
            <==> if j == f then Harmless(m, |PlanOf(targets[f])|, turn)
                 else j > f || !turn.outcome.Escaped? || PlanOf(targets[j]) == []
  {
    OneFaultSetting(cameras, targets, f, m, turn);
    var t := targets[j];
    hide Restore, RestorePlan, Dict, After, WayBack, SameValues, Captured, ApplyBackup, Quiets, Preflight,
      Exact, TakesAll, Consistent, Harmless, ReportOf, FaultReport, UndoWorks, Undoing, UndoingOf;
    ApplyUndoneIff(cameras, targets, refreshed, f, j);
    if !turn.outcome.Escaped? {
      CalmRollbackReaches(cameras, targets, f, j);
    }
    if j == f {
      FaultUndoneIff(t, m, turn);
      if turn.outcome.Escaped? {
        BrokenNotUndone(ReportOf(cameras, t), t.revision);
      }
    } else if j < f {
      WillingGetsBack(cameras, t);
    } else {
      SameAsItself(t.revision);
    }
  }

  lemma BrokenNotUndone(report: Report, before: seq<Field>)
    requires report.ending.Broke?
    ensures !UndoWorks(report, before)
  {
    hide WayBack;
  }

  /** A willing camera left alone: changed exactly when it had something to restore, and then it can be taken back. */
  lemma WillingGetsBack(cameras: seq<Camera>, t: Target)
    requires t.camera < |cameras| && Willing(t) && cameras[t.camera] == Camera(t.revision, [])
    ensures var report := ReportOf(cameras, t);
            && (SameValues(Dict(report.camera.settings), Dict(t.revision)) <==> PlanOf(t) == [])
            && (PlanOf(t) != [] ==> UndoWorks(report, t.revision))
  {
    WillingSucceeds(t);
    SameAsItself(t.revision);
    AfterNothing(t.revision);
    if PlanOf(t) != [] {
      assert PlanOf(t)[..|PlanOf(t)|] == PlanOf(t);
      PartWay(t, |PlanOf(t)|);
    }
    hide Restore, RestorePlan, Dict, After, WayBack, SameValues, Document, TakesAll, Exact, Consistent;
  }

  lemma WillingPreflight(targets: seq<Target>)
    requires forall j :: 0 <= j < |targets| ==> Willing(targets[j])
    ensures Preflight(targets)
  {
    hide Willing, RestorePlan, Captured;
    forall t | t in targets
      ensures RestorePlan(Captured(t.revision), t.saved).Ok?
    {
      SnapshotPlansToo(t);
    }
  }

  /** A plan made from the snapshot exists when one made from the camera does. */
  lemma SnapshotPlansToo(t: Target)
    requires Willing(t)
    ensures RestorePlan(Captured(t.revision), t.saved).Ok?
  {
    DictOfCaptured(t.revision);
    NoErrorInPlan(t.revision, t.saved);
    NoErrorInPlan(Captured(t.revision), t.saved);
    hide RestorePlan, Dict, Captured, AlertsAllowed, After, TakesAll, WayBack, Exact, Consistent, Rank;
    forall key | key in Dict(t.saved)
      ensures ItemError(Dict(Captured(t.revision)), key, Dict(t.saved)[key].value).None?
      ensures !PyEq(Dict(Captured(t.revision))[key].value, Dict(t.saved)[key].value) ==>
                Rank(Dict(Captured(t.revision)), Item(key, Dict(t.saved)[key].value)).Some?
    {
      assert ItemError(Dict(t.revision), key, Dict(t.saved)[key].value).None?;
      SameRank(Dict(t.revision), Dict(Captured(t.revision)), Item(key, Dict(t.saved)[key].value));
    }
  }

  lemma SameRank(one: map<string, Field>, other: map<string, Field>, item: Item)
    requires item.key in one && item.key in other && one[item.key] == other[item.key]
    ensures Rank(one, item) == Rank(other, item)
  {
  }

  // ---------- concretely: one switch for each camera, and a reply that gets lost or an exception that escapes

  function Flip(on: bool): seq<Field> {
    [Field("flip_video", Bool(on), true, Switch)]
  }

  lemma FlipPlan()
    ensures RestorePlan(Flip(false), Flip(true)) == Ok([Item("flip_video", Bool(true))])
  {
    var before, saved := Flip(false), Flip(true);
    OneFieldDict(before[0]);
    OneFieldDict(saved[0]);
    assert !Threshold("flip_video");
    NoErrorInPlan(before, saved);
    PlanWritesTheDifferences(before, saved);
    var plan := RestorePlan(before, saved).value;
    var x := Item("flip_video", Bool(true));
    assert x in plan && forall y :: y in plan ==> y == x;
    hide RestorePlan;
    OneItem(plan, x);
  }

  lemma OneItem(plan: seq<Item>, x: Item)
    requires WrittenOnce(plan) && x in plan && forall y :: y in plan ==> y == x
    ensures plan == [x]
  {
    var i :| 0 <= i < |plan| && plan[i] == x;
    SamePlace(plan, x, i, 0);
    SamePlace(plan, x, i, |plan| - 1);
  }

  lemma SamePlace(plan: seq<Item>, x: Item, i: nat, j: nat)
    requires WrittenOnce(plan) && i < |plan| && j < |plan| && plan[i] == x && forall y :: y in plan ==> y == x
    ensures i == j
  {
    assert plan[j] in plan;
  }

  function FlipTarget(camera: nat): Target {
    Target(camera, Flip(true), Flip(false))
  }

  lemma FlipTaken()
    ensures Document(Flip(false)) && TakesAll(Flip(false), [Item("flip_video", Bool(true))])
    ensures After(Flip(false), [Item("flip_video", Bool(true))]) == Flip(true)
  {
    hide Document, TakesAll, After;
    assert !Threshold("flip_video");
    OneWriteTaken(Flip(false)[0], Bool(true));
  }

  lemma FlipComesBack()
    ensures Consistent(Flip(true)) && Exact(Flip(false), [Item("flip_video", Bool(true))])
    ensures WayBack(Flip(false), Flip(true))
  {
    hide Dict, Captured;
    OneFieldDict(Flip(false)[0]);
    OneFieldDict(Flip(true)[0]);
    assert !Threshold("flip_video");
  }

  lemma FlipIsWilling(camera: nat)
    ensures Willing(FlipTarget(camera)) && PlanOf(FlipTarget(camera)) == [Item("flip_video", Bool(true))]
    ensures After(Flip(false), [Item("flip_video", Bool(true))]) == Flip(true)
    ensures Takes(Flip(false), Item("flip_video", Bool(true)))
    ensures Write(Flip(false), Item("flip_video", Bool(true))) == Flip(true)
  {
    hide RestorePlan, Takes, After, Document, TakesAll, Captured, Dict, Consistent, Exact, WayBack;
    var before, saved := Flip(false), Flip(true);
    FlipPlan();
    FlipTaken();
    FlipComesBack();
    AfterNothing(before);
    assert [Item("flip_video", Bool(true))][..0] == [];
    AfterOneMore(before, [Item("flip_video", Bool(true))], 0);
    TakesAt(before, [Item("flip_video", Bool(true))], 0);
    assert [Item("flip_video", Bool(true))][..1] == [Item("flip_video", Bool(true))];
  }

  lemma EndsAre(cameras: seq<Camera>, targets: seq<Target>, refreshed: bool, k: nat, j: nat)
    requires Known(cameras, targets) && DistinctCameras(targets) && j < |targets| && Preflight(targets)
    requires FailsAt(cameras, targets, k)
    ensures var r := ApplyBackup(cameras, targets, refreshed);
            !r.ok && r.cameras[targets[j].camera] == EndOf(cameras, targets, k, j)
  {
    hide FailsAt, EndOf, Preflight, Underway;
    AtTheStart(cameras, targets);
    ApplyFails(cameras, cameras, targets, [], 0, k, j);
  }

  /**
   * The write takes effect, its reply is lost: the restore fails, nothing is rolled back, and the camera stays
   * changed.
   */
  lemma LostReplyStaysChanged(refreshed: bool)
    ensures var cameras := [Camera(Flip(false), [QUIET, Turn(None, Late(None), true)])];
            var r := ApplyBackup(cameras, [FlipTarget(0)], refreshed);
            !r.ok && r.cameras[0].settings == Flip(true)
  {
    hide RestorePlan, Flip, Restore, After, Willing, PlanOf, Preflight, Takes, Write, Captured, ApplyBackup;
    var t, turn := FlipTarget(0), Turn(None, Late(None), true);
    var cameras := [Camera(Flip(false), [QUIET, turn])];
    FlipIsWilling(0);
    WillingParts(t);
    OneQuiet(1, turn);
    NoQuiets(turn);
    assert [QUIET] + [turn] == [QUIET, turn];
    FaultIsReported(t, 1, turn);
    assert PlanOf(t)[..1] == PlanOf(t);
    assert ReportOf(cameras, t) == FaultReport(t, 1, turn);
    WillingPreflight([t]);
    EndsAre(cameras, [t], refreshed, 0, 0);
  }

  /**
   * Two cameras, the first one restored, the body of the reply to the first read of the second one cut: nothing is
   * taken back, and the first camera stays changed.
   */
  lemma CutReplyLeavesEarlierChanged(refreshed: bool)
    ensures var cameras := [Camera(Flip(false), []), Camera(Flip(false), [Turn(None, Escaped(false), true)])];
            var r := ApplyBackup(cameras, [FlipTarget(0), FlipTarget(1)], refreshed);
            !r.ok && r.cameras[0].settings == Flip(true) && r.cameras[1].settings == Flip(false)
  {
    hide RestorePlan, Flip, Restore, After, Willing, PlanOf, Quiets, Takes, Write, Captured, ApplyBackup, Preflight;
    var turn := Turn(None, Escaped(false), true);
    var cameras := [Camera(Flip(false), []), Camera(Flip(false), [turn])];
    var targets := [FlipTarget(0), FlipTarget(1)];
    FlipIsWilling(0);
    FlipIsWilling(1);
    NoQuiets(turn);
    WillingSucceeds(targets[0]);
    OneFaultSetting(cameras, targets, 1, 0, turn);
    EndsAre(cameras, targets, refreshed, 1, 0);
    EndsAre(cameras, targets, refreshed, 1, 1);
  }

  lemma BrokenReturn(cameras: seq<Camera>, one: Target, other: Target, refreshed: bool)
    requires one.camera != other.camera && Known(cameras, [one, other]) && Preflight([one, other])
    requires one.camera < |cameras| && other.camera < |cameras|
    requires ReportOf(cameras, one).ending.Ran? && ReportOf(cameras, other).ending.Failed?
    requires UndoingOf(cameras, other).ending.Broke?
    ensures var r := ApplyBackup(cameras, [one, other], refreshed);
            && !r.ok && r.cameras[one.camera] == ReportOf(cameras, one).camera
            && r.cameras[other.camera] == UndoingOf(cameras, other).camera
  {
    hide ReportOf, UndoingOf, Preflight;
    var targets := [one, other];
    assert targets[0] == one && targets[1] == other;
    assert FailsAt(cameras, targets, 1);
    EndsAre(cameras, targets, refreshed, 1, 0);
    EndsAre(cameras, targets, refreshed, 1, 1);
  }

  lemma RefusedLastRead(rest: seq<Turn>)
    ensures Restore(Camera(Flip(false), [QUIET, QUIET, Turn(None, Refused(None), true)] + rest), Flip(true),
                    Flip(false))
         == Report(Failed(CameraApplyError(None, true, Some(Flip(true)))), Camera(Flip(true), rest))
  {
    hide RestorePlan, Flip, Takes, Write, Willing, PlanOf, After, Restore;
    var item, refused := Item("flip_video", Bool(true)), Turn(None, Refused(None), true);
    FlipPlan();
    FlipIsWilling(0);
    var script := [QUIET, QUIET, refused] + rest;
    assert script == [QUIET] + ([QUIET] + ([refused] + rest));
    QuietFirst(Flip(false), Flip(true), [QUIET] + ([refused] + rest));
    QuietPost(Flip(false), item, [refused] + rest);
    assert ([refused] + rest)[0] == refused && ([refused] + rest)[1..] == rest;
    hide Post;
    assert [item][1..] == [];
  }

  lemma CutFirstRead()
    ensures Restore(Camera(Flip(true), [Turn(None, Escaped(false), true)]), Captured(Flip(false)), Flip(true))
         == Report(Broke, Camera(Flip(true), []))
  {
    hide RestorePlan, Captured, Flip;
  }

  /**
   * Two cameras restored, the last read of the second one refused, and the rollback's first read, of that camera, cut
   * in its body: the rollback ends there, and the first camera is never taken back.
   */
  lemma BrokenReturnAbandonsTheRest(refreshed: bool)
    ensures var script := [QUIET, QUIET, Turn(None, Refused(None), true), Turn(None, Escaped(false), true)];
            var cameras := [Camera(Flip(false), []), Camera(Flip(false), script)];
            var r := ApplyBackup(cameras, [FlipTarget(0), FlipTarget(1)], refreshed);
            !r.ok && r.cameras[0].settings == Flip(true) && r.cameras[1].settings == Flip(true)
  {
    hide RestorePlan, Flip, Restore, After, Willing, PlanOf, Preflight, Takes, Write, Captured, ApplyBackup;
    var cut := [Turn(None, Escaped(false), true)];
    var refused := [QUIET, QUIET, Turn(None, Refused(None), true)];
    assert refused + cut == [QUIET, QUIET, Turn(None, Refused(None), true), cut[0]];
    FlipIsWilling(0);
    FlipIsWilling(1);
    WillingSucceeds(FlipTarget(0));
    RefusedLastRead(cut);
    CutFirstRead();
    WillingPreflight([FlipTarget(0), FlipTarget(1)]);
    BrokenReturn([Camera(Flip(false), []), Camera(Flip(false), refused + cut)], FlipTarget(0), FlipTarget(1),
                 refreshed);
  }

  /** The restore runs to its end, and the reply to the last read of the state is cut: a failure that changed all. */
  lemma CutRefreshReportsFailure()
    ensures var r := ApplyBackup([Camera(Flip(false), [])], [FlipTarget(0)], false);
            !r.ok && r.cameras[0].settings == Flip(true)
  {
    hide RestorePlan, Flip, Restore, After, Willing, PlanOf, Preflight, Takes, Write, Captured;
    var cameras, targets := [Camera(Flip(false), [])], [FlipTarget(0)];
    FlipIsWilling(0);
    WillingSucceeds(targets[0]);
    WillingPreflight(targets);
    AtTheStart(cameras, targets);
    ApplySucceeds(cameras, cameras, targets, [], 0, 0);
  }
}
