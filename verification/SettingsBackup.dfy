/**
 * Applying a backup to several cameras: each write names the revision it builds on, a failed restore reports the
 * last revision the engine confirmed, and such a failure rolls back every camera already changed. Any call may fail,
 * lose its reply after taking effect, find that somebody else changed the camera, or end in an exception that the
 * code does not catch, after which nothing more is done.
 */
module SettingsBackup {
  import opened Wrappers
  import opened SettingsRestore
  import opened SettingsEngine

  /** A revision is a digest of the settings; taken to be injective, it stands for the settings themselves. */
  type Revision = seq<Field>

  // ---------- one camera behind the engine

  /**
   * `Escaped` is an exception outside the errors a restore handles: the reply's body is cut or times out while it is
   * read, or the call is cancelled, after a write was `applied` or before.
   */
  datatype Outcome = Normal | Refused(status: Option<nat>) | Late(status: Option<nat>) | Escaped(applied: bool)

  /** What happens at a call: others may have changed the camera first; `named` when the reply names a revision. */
  datatype Turn = Turn(others: Option<seq<Field>>, outcome: Outcome, named: bool)

  const QUIET: Turn := Turn(None, Normal, true)

  datatype Fault = Fault(status: Option<nat>) | Escaping

  const CONFLICT: Option<nat> := Some(409)
  const INVALID: Option<nat> := Some(422)

  datatype Reply = Reply(settings: seq<Field>, revision: Option<Revision>)

  /** The settings a camera holds and what will happen at the coming calls. */
  datatype Camera = Camera(settings: seq<Field>, script: seq<Turn>)

  datatype Answer = Answer(result: Result<Reply, Fault>, camera: Camera)

  function TurnOf(c: Camera): Turn {
    if c.script == [] then QUIET else c.script[0]
  }

  function Called(c: Camera): Camera {
    Camera(if TurnOf(c).others.Some? then TurnOf(c).others.value else c.settings,
           if c.script == [] then [] else c.script[1..])
  }

  function Replied(c: Camera, turn: Turn): Answer {
    Answer(Ok(Reply(c.settings, if turn.named then Some(c.settings) else None)), c)
  }

  function Get(c: Camera): Answer {
    match TurnOf(c).outcome
    case Normal => Replied(Called(c), TurnOf(c))
    case Escaped(_) => Answer(Err(Escaping), Called(c))
    case Refused(status) => Answer(Err(Fault(status)), Called(c))
    case Late(status) => Answer(Err(Fault(status)), Called(c))
  }

  /** A write builds on the revision it names, or is refused as a conflict. */
  function Post(c: Camera, item: Item, revision: Revision): Answer {
    var turn, now := TurnOf(c), Called(c);
    if turn.outcome.Escaped? then
      var taken := turn.outcome.applied && now.settings == revision && Takes(now.settings, item);
      Answer(Err(Escaping), if taken then now.(settings := Write(now.settings, item)) else now)
    else if now.settings != revision then Answer(Err(Fault(CONFLICT)), now)
    else if turn.outcome.Refused? then Answer(Err(Fault(turn.outcome.status)), now)
    else if !Takes(now.settings, item) then Answer(Err(Fault(INVALID)), now)
    else
      var taken := now.(settings := Write(now.settings, item));
      if turn.outcome.Late? then Answer(Err(Fault(turn.outcome.status)), taken) else Replied(taken, turn)
  }

  // ---------- restoring one camera

  datatype CameraApplyError = CameraApplyError(status: Option<nat>, changed: bool, revision: Option<Revision>)

  /** Whether anything was written, and the revision the camera was left at. */
  datatype Done = Done(changed: bool, revision: Revision)

  /** A restore runs to its end, fails with an error that its caller handles, or is broken off by another one. */
  datatype Ending = Ran(done: Done) | Failed(error: CameraApplyError) | Broke

  datatype Report = Report(ending: Ending, camera: Camera)

  function Ended(fault: Fault, changed: bool, revision: Revision): Ending {
    match fault
    case Fault(status) => Failed(CameraApplyError(status, changed, Some(revision)))
    case Escaping => Broke
  }

  function PlanStatus(error: PlanError): Option<nat> {
    if error == Uninitialised || error == AlertsNeedThresholds then INVALID else None
  }

  function PostAll(c: Camera, plan: seq<Item>, revision: Revision, changed: bool): Report
    decreases |plan|
  {
    if plan == [] then Report(Ran(Done(changed, revision)), c)
    else
      var posted := Post(c, plan[0], revision);
      if posted.result.Err? then Report(Ended(posted.result.error, changed, revision), posted.camera)
      else if posted.result.value.revision.None? then Report(Failed(CameraApplyError(None, true, None)), posted.camera)
      else PostAll(posted.camera, plan[1..], posted.result.value.revision.value, true)
  }

  /** The last read: the revision is still the one just written, and every saved value is shown. */
  function Checked(c: Camera, saved: seq<Field>, done: Done): Report {
    var verified := Get(c);
    if verified.result.Err? then Report(Ended(verified.result.error, done.changed, done.revision), verified.camera)
    else if verified.result.value.revision != Some(done.revision)
            || !ValuesMatch(verified.result.value.settings, saved) then
      Report(Failed(CameraApplyError(CONFLICT, done.changed, Some(done.revision))), verified.camera)
    else Report(Ran(done), verified.camera)
  }

  function Restore(c: Camera, saved: seq<Field>, expected: Revision): Report {
    var got := Get(c);
    if got.result.Err? then Report(Ended(got.result.error, false, expected), got.camera)
    else if got.result.value.revision != Some(expected) then
      Report(Failed(CameraApplyError(CONFLICT, false, Some(expected))), got.camera)
    else
      var planned := RestorePlan(got.result.value.settings, saved);
      if planned.Err? then
        Report(Failed(CameraApplyError(PlanStatus(planned.error), false, Some(expected))), got.camera)
      else
        var posted := PostAll(got.camera, planned.value, expected, false);
        if posted.ending.Ran? then Checked(posted.camera, saved, posted.ending.done) else posted
  }

  /** What a failed restore reports: nothing was confirmed, or the first `n` writes were. */
  ghost predicate Confirmed(expected: Revision, saved: seq<Field>, changed: bool, revision: Option<Revision>) {
    if changed then
      && RestorePlan(expected, saved).Ok?
      && exists n: nat :: ConfirmedAt(expected, RestorePlan(expected, saved).value, revision, n)
    else revision == Some(expected)
  }

  ghost predicate ConfirmedAt(expected: Revision, plan: seq<Item>, revision: Option<Revision>, n: nat) {
    0 < n <= |plan| && TakesAll(expected, plan[..n]) && revision in {None, Some(After(expected, plan[..n]))}
  }

  lemma TakesOneMore(fields: seq<Field>, plan: seq<Item>, n: nat)
    requires n < |plan| && TakesAll(fields, plan[..n]) && Takes(After(fields, plan[..n]), plan[n])
    ensures TakesAll(fields, plan[..n + 1])
  {
    hide Takes, After;
    var more := plan[..n + 1];
    forall i | 0 <= i < |more|
      ensures Takes(After(fields, more[..i]), more[i])
    {
      if i < n {
        assert more[..i] == plan[..n][..i];
        assert Takes(After(fields, plan[..n][..i]), plan[..n][i]);
      } else {
        assert more[..n] == plan[..n];
      }
    }
  }

  /** From the `n`-th write on, over every script. */
  lemma {:induction false} PostAllReports(c: Camera, expected: Revision, plan: seq<Item>, n: nat)
    requires n <= |plan| && TakesAll(expected, plan[..n])
    ensures var report := PostAll(c, plan[n..], After(expected, plan[..n]), n > 0);
            && (report.ending.Ran? ==>
                  && report.ending.done == Done(plan != [], After(expected, plan)) && TakesAll(expected, plan)
                  && (plan[n..] != [] ==> report.camera.settings == After(expected, plan))
                  && (plan[n..] == [] ==> report.camera == c))
            && (report.ending.Failed? ==>
                  var e := report.ending.error;
                  if e.changed then exists m: nat :: ConfirmedAt(expected, plan, e.revision, m)
                  else e.revision == Some(expected))
    decreases |plan| - n
  {
    hide Takes, After, Write;
    if n == |plan| {
      assert plan[..n] == plan && plan[n..] == [];
    } else {
      var revision := After(expected, plan[..n]);
      var posted := Post(c, plan[n], revision);
      assert plan[n..][0] == plan[n] && plan[n..][1..] == plan[n + 1..];
      if n == 0 {
        assert plan[..0] == [];
        AfterNothing(expected);
      }
      if posted.result.Err? {
        assert n > 0 ==> ConfirmedAt(expected, plan, Some(revision), n);
      } else {
        AfterOneMore(expected, plan, n);
        TakesOneMore(expected, plan, n);
        assert ConfirmedAt(expected, plan, None, n + 1);
        PostAllReports(posted.camera, expected, plan, n + 1);
      }
    }
  }

  lemma AfterNothing(fields: seq<Field>)
    ensures After(fields, []) == fields && TakesAll(fields, [])
  {
  }

  /** Success leaves the plan's result, matching the backup; failure reports what the engine confirmed. */
  lemma RestoreReports(c: Camera, saved: seq<Field>, expected: Revision)
    ensures var report := Restore(c, saved, expected);
            && (report.ending.Ran? ==>
                  && RestorePlan(expected, saved).Ok?
                  && var plan := RestorePlan(expected, saved).value;
                     && report.ending.done == Done(plan != [], After(expected, plan)) && TakesAll(expected, plan)
                     && report.camera.settings == After(expected, plan)
                     && ValuesMatch(report.camera.settings, saved))
            && (report.ending.Failed? ==>
                  Confirmed(expected, saved, report.ending.error.changed, report.ending.error.revision))
  {
    var got := Get(c);
    hide RestorePlan, Takes, After, Write, ValuesMatch, TakesAll;
    if got.result.Ok? && got.result.value.revision == Some(expected) && RestorePlan(expected, saved).Ok? {
      var plan := RestorePlan(expected, saved).value;
      assert plan[..0] == [] && plan[0..] == plan;
      AfterNothing(expected);
      PostAllReports(got.camera, expected, plan, 0);
      var posted := PostAll(got.camera, plan, expected, false);
      if posted.ending.Ran? && plan != [] {
        assert plan[..|plan|] == plan;
        assert ConfirmedAt(expected, plan, Some(After(expected, plan)), |plan|);
      }
    }
  }

  // ---------- a camera left alone

  lemma {:induction false} CalmPostAll(c: Camera, plan: seq<Item>, changed: bool)
    requires c.script == []
    ensures var report := PostAll(c, plan, c.settings, changed);
            && report.camera == Camera(Attempt(c.settings, plan), []) && !report.ending.Broke?
            && (report.ending.Ran? ==> report.ending.done.revision == report.camera.settings)
    decreases |plan|
  {
    hide Takes, Write;
    if plan != [] && Takes(c.settings, plan[0]) {
      CalmPostAll(Post(c, plan[0], c.settings).camera, plan[1..], true);
    }
  }

  /** Left alone, a camera that is where the caller thinks it is gets every write up to the first one refused. */
  lemma CalmRestore(c: Camera, saved: seq<Field>, expected: Revision)
    requires c.script == []
    ensures var planned := RestorePlan(expected, saved);
            Restore(c, saved, expected).camera
            == if c.settings != expected || planned.Err? then c else Camera(Attempt(expected, planned.value), [])
    ensures !Restore(c, saved, expected).ending.Broke?
  {
    hide RestorePlan, Attempt, ValuesMatch;
    if c.settings == expected && RestorePlan(expected, saved).Ok? {
      CalmPostAll(c, RestorePlan(expected, saved).value, false);
    }
  }

  /**
   * Left alone, a restore that writes nothing says why: another revision is a conflict, 409, a plan refused for its
   * thresholds is 422, and for any other reason there is no status.
   */
  lemma CalmRefusal(c: Camera, saved: seq<Field>, expected: Revision)
    requires c.script == []
    ensures var planned := RestorePlan(expected, saved);
            c.settings != expected || planned.Err? ==>
              Restore(c, saved, expected).ending
              == Failed(CameraApplyError(if c.settings != expected then Some(409)
                                         else if planned.error in {Uninitialised, AlertsNeedThresholds} then Some(422)
                                         else None, false, Some(expected)))
  {
    hide RestorePlan, PostAll, Checked;
  }

  // ---------- when a restore is undone

  predicate ReturnsFailed(error: CameraApplyError) {
    error.changed && error.status != CONFLICT && error.revision.Some?
  }

  /** The revision to take a camera back from, if it is to be taken back at all. */
  function ReturnFrom(ending: Ending): Option<Revision> {
    match ending
    case Ran(done) => if done.changed then Some(done.revision) else None
    case Failed(error) => if ReturnsFailed(error) then error.revision else None
    case Broke => None
  }

  /** The attempt to take a camera back after its restore; with nothing to take back it stays as it is. */
  function Undoing(report: Report, before: seq<Field>): Report {
    match ReturnFrom(report.ending)
    case Some(revision) => Restore(report.camera, Captured(before), revision)
    case None => report.(ending := Ran(Done(false, report.camera.settings)))
  }

  /** The rollback starts, it starts from where the camera is, and the engine takes the old values. */
  predicate UndoWorks(report: Report, before: seq<Field>) {
    ReturnFrom(report.ending) == Some(report.camera.settings) && WayBack(before, report.camera.settings)
  }

  /**
   * After a restore that failed, whatever happened during it, and with the camera left alone from then on, it shows
   * its old values exactly when they had not changed, or the failure was no conflict, named the revision the camera
   * really has, and the engine takes the old values.
   */
  lemma FailureUndoneIff(c: Camera, saved: seq<Field>, before: Revision)
    requires Document(before) && Restore(c, saved, before).ending.Failed?
    requires Restore(c, saved, before).camera.script == []
    ensures var report := Restore(c, saved, before);
            SameValues(Dict(Undoing(report, before).camera.settings), Dict(before))
            <==> SameValues(Dict(report.camera.settings), Dict(before)) || UndoWorks(report, before)
  {
    RestoreReports(c, saved, before);
    var report := Restore(c, saved, before);
    hide Restore, RestorePlan, Dict, Captured, WayBack, After, TakesAll, Attempt, SameValues, Document;
    var error := report.ending.error;
    if ReturnsFailed(error) {
      CalmRestore(report.camera, Captured(before), error.revision.value);
      if error.revision.value == report.camera.settings {
        var plan := RestorePlan(before, saved).value;
        var n: nat :| ConfirmedAt(before, plan, error.revision, n);
        RollbackRestoresIff(before, plan[..n]);
      }
    }
  }

  /** After a restore that ran to its end, likewise. */
  lemma CompletionUndoneIff(c: Camera, saved: seq<Field>, before: Revision)
    requires Document(before) && Restore(c, saved, before).ending.Ran? && Restore(c, saved, before).camera.script == []
    ensures var report := Restore(c, saved, before);
            var undone := Restore(report.camera, Captured(before), report.ending.done.revision).camera;
            SameValues(Dict(undone.settings), Dict(before))
            <==> SameValues(Dict(report.camera.settings), Dict(before)) || WayBack(before, report.camera.settings)
  {
    RestoreReports(c, saved, before);
    var report := Restore(c, saved, before);
    hide Restore, RestorePlan, Dict, Captured, WayBack, After, TakesAll, Attempt, SameValues, Document, ValuesMatch;
    CalmRestore(report.camera, Captured(before), report.ending.done.revision);
    RollbackRestoresIff(before, RestorePlan(before, saved).value);
  }

  /** The same for every ending: a restore that was broken off is never undone. */
  lemma UndoneIff(c: Camera, saved: seq<Field>, before: Revision)
    requires Document(before) && Restore(c, saved, before).camera.script == []
    ensures var report := Restore(c, saved, before);
            SameValues(Dict(Undoing(report, before).camera.settings), Dict(before))
            <==> SameValues(Dict(report.camera.settings), Dict(before)) || UndoWorks(report, before)
  {
    var report := Restore(c, saved, before);
    match report.ending {
      case Ran(done) =>
        CompletionUndoneIff(c, saved, before);
        RestoreReports(c, saved, before);
        UnchangedStays(c, saved, before);
      case Failed(_) =>
        FailureUndoneIff(c, saved, before);
      case Broke =>
    }
  }

  /** A restore that wrote nothing left its camera as it was. */
  lemma UnchangedStays(c: Camera, saved: seq<Field>, before: Revision)
    ensures var report := Restore(c, saved, before);
            report.ending.Ran? && !report.ending.done.changed ==>
              SameValues(Dict(report.camera.settings), Dict(before))
  {
    RestoreReports(c, saved, before);
    SameAsItself(before);
    hide Restore, RestorePlan, Dict, Captured, TakesAll, Write;
  }

  lemma SameAsItself(fields: seq<Field>)
    ensures SameValues(Dict(fields), Dict(fields))
  {
    hide Dict;
    forall key | key in Dict(fields)
      ensures PyEq(Dict(fields)[key].value, Dict(fields)[key].value)
    {
      SameIsEqual(Dict(fields)[key].value);
    }
  }

  // ---------- several cameras

  /** One camera of a backup: what to restore, and the revision of the snapshot just taken. */
  datatype Target = Target(camera: nat, saved: seq<Field>, revision: Revision)

  /** A camera to take back to a snapshot, from the revision the restore left it at. */
  datatype Return = Return(camera: nat, previous: seq<Field>, revision: Revision)

  predicate Known(cameras: seq<Camera>, targets: seq<Target>) {
    forall t :: t in targets ==> t.camera < |cameras|
  }

  /** The same camera is never restored twice in one run. */
  predicate DistinctCameras(targets: seq<Target>) {
    forall i, j :: 0 <= i < j < |targets| ==> targets[i].camera != targets[j].camera
  }

  predicate Preflight(targets: seq<Target>) {
    forall t :: t in targets ==> RestorePlan(Captured(t.revision), t.saved).Ok?
  }

  /** A return that fails does not keep the others from being tried; one that is broken off does. */
  function RollbackAll(cameras: seq<Camera>, back: seq<Return>): (after: seq<Camera>)
    requires forall r :: r in back ==> r.camera < |cameras|
    ensures |after| == |cameras|
    decreases |back|
  {
    if back == [] then cameras
    else
      var r := back[0];
      var report := Restore(cameras[r.camera], r.previous, r.revision);
      var next := cameras[r.camera := report.camera];
      if report.ending.Broke? then next else RollbackAll(next, back[1..])
  }

  function Reversed(s: seq<Return>): (r: seq<Return>)
    ensures forall x :: x in r <==> x in s
    decreases |s|
  {
    if s == [] then []
    else
      assert s == s[..|s| - 1] + [s[|s| - 1]];
      [s[|s| - 1]] + Reversed(s[..|s| - 1])
  }

  /** The return of one camera, if there is anything to take back. */
  function ReturnOf(report: Report, t: Target): (back: seq<Return>)
    ensures |back| <= 1
  {
    match ReturnFrom(report.ending)
    case Some(revision) => [Return(t.camera, Captured(t.revision), revision)]
    case None => []
  }

  datatype Applied = Applied(ok: bool, cameras: seq<Camera>)

  function ReportOf(cameras: seq<Camera>, t: Target): Report
    requires t.camera < |cameras|
  {
    Restore(cameras[t.camera], t.saved, t.revision)
  }

  /** A failure takes back the failed camera first and then the completed ones, last first. */
  function ApplyFrom(cameras: seq<Camera>, targets: seq<Target>, completed: seq<Return>): (r: Applied)
    requires Known(cameras, targets) && forall c :: c in completed ==> c.camera < |cameras|
    ensures |r.cameras| == |cameras|
    decreases |targets|
  {
    if targets == [] then Applied(true, cameras)
    else
      var t := targets[0];
      assert t in targets;
      var report := ReportOf(cameras, t);
      var next := cameras[t.camera := report.camera];
      match report.ending
      case Broke => Applied(false, next)
      case Failed(_) => Applied(false, RollbackAll(next, ReturnOf(report, t) + Reversed(completed)))
      case Ran(_) => ApplyFrom(next, targets[1..], completed + ReturnOf(report, t))
  }

  /**
   * The whole operation: every plan is made from the snapshot before any camera is written to, and in the end the state
   * is read again. That read may fail; but if its reply is cut or malformed, the operation fails with it.
   */
  function ApplyBackup(cameras: seq<Camera>, targets: seq<Target>, refreshed: bool): Applied
    requires Known(cameras, targets)
  {
    if !Preflight(targets) then Applied(false, cameras)
    else
      var r := ApplyFrom(cameras, targets, []);
      r.(ok := r.ok && refreshed)
  }

  // ---------- what happens to each camera

  /** The restores before `k` run to their ends and the one at `k` does not; each sees its own camera alone. */
  ghost predicate FailsAt(cameras: seq<Camera>, targets: seq<Target>, k: nat)
    requires Known(cameras, targets)
  {
    && k < |targets| && !ReportOf(cameras, targets[k]).ending.Ran?
    && forall j :: 0 <= j < k ==> ReportOf(cameras, targets[j]).ending.Ran?
  }

  function UndoingOf(cameras: seq<Camera>, t: Target): Report
    requires t.camera < |cameras|
  {
    Undoing(ReportOf(cameras, t), t.revision)
  }

  /** None of the returns between target `j` and target `i` is broken off. */
  ghost predicate Unbroken(cameras: seq<Camera>, targets: seq<Target>, i: nat, j: nat)
    requires Known(cameras, targets) && i <= |targets|
  {
    forall x :: j < x < i ==> !UndoingOf(cameras, targets[x]).ending.Broke?
  }

  /** The rollback from target `k`, if there is one, gets as far as target `j`. */
  ghost predicate Reaches(cameras: seq<Camera>, targets: seq<Target>, k: nat, j: nat)
    requires Known(cameras, targets) && k < |targets|
  {
    !ReportOf(cameras, targets[k]).ending.Broke? && Unbroken(cameras, targets, k + 1, j)
  }

  /** What becomes of the camera of target `j` when the restore of target `k` does not run to its end. */
  ghost function EndOf(cameras: seq<Camera>, targets: seq<Target>, k: nat, j: nat): Camera
    requires Known(cameras, targets) && k < |targets| && j < |targets|
  {
    var t := targets[j];
    if j > k then cameras[t.camera]
    else if Reaches(cameras, targets, k, j) then UndoingOf(cameras, t).camera
    else ReportOf(cameras, t).camera
  }

  /** The returns of the targets before `i`, last first. */
  function ReturnsBefore(start: seq<Camera>, targets: seq<Target>, i: nat): (back: seq<Return>)
    requires Known(start, targets) && i <= |targets|
    ensures forall r :: r in back ==> r.camera < |start|
  {
    if i == 0 then []
    else ReturnOf(ReportOf(start, targets[i - 1]), targets[i - 1]) + ReturnsBefore(start, targets, i - 1)
  }

  /** Under way: targets before `i` are restored, and `completed` lists their returns, first first. */
  ghost predicate Underway(start: seq<Camera>, now: seq<Camera>, targets: seq<Target>, completed: seq<Return>, i: nat)
    requires Known(start, targets)
  {
    && RestoredBefore(start, now, targets, i) && Reversed(completed) == ReturnsBefore(start, targets, i)
  }

  ghost predicate RestoredBefore(start: seq<Camera>, now: seq<Camera>, targets: seq<Target>, i: nat)
    requires Known(start, targets)
  {
    && |now| == |start| && i <= |targets|
    && forall j :: 0 <= j < |targets| ==>
         now[targets[j].camera] == if j < i then ReportOf(start, targets[j]).camera else start[targets[j].camera]
  }

  lemma OneMoreRestored(start: seq<Camera>, now: seq<Camera>, targets: seq<Target>, i: nat)
    requires Known(start, targets) && DistinctCameras(targets) && i < |targets|
    requires RestoredBefore(start, now, targets, i)
    ensures RestoredBefore(start, now[targets[i].camera := ReportOf(start, targets[i]).camera], targets, i + 1)
  {
    hide ReportOf;
    var t := targets[i];
    var next := now[t.camera := ReportOf(start, t).camera];
    forall j | 0 <= j < |targets|
      ensures next[targets[j].camera]
           == if j < i + 1 then ReportOf(start, targets[j]).camera else start[targets[j].camera]
    {
      assert j != i ==> targets[j].camera != t.camera;
    }
  }

  lemma LastFirst(completed: seq<Return>, extra: seq<Return>)
    requires |extra| <= 1
    ensures Reversed(completed + extra) == extra + Reversed(completed)
  {
    if extra == [] {
      assert completed + extra == completed;
    } else {
      assert (completed + extra)[..|completed|] == completed;
    }
  }

  lemma OneMoreReturn(start: seq<Camera>, targets: seq<Target>, completed: seq<Return>, i: nat)
    requires Known(start, targets) && i < |targets| && Reversed(completed) == ReturnsBefore(start, targets, i)
    ensures Reversed(completed + ReturnOf(ReportOf(start, targets[i]), targets[i]))
         == ReturnsBefore(start, targets, i + 1)
  {
    hide ReportOf;
    LastFirst(completed, ReturnOf(ReportOf(start, targets[i]), targets[i]));
  }

  ghost predicate UpTo(start: seq<Camera>, now: seq<Camera>, targets: seq<Target>, i: nat)
    requires Known(start, targets) && i <= |targets| && |now| == |start|
  {
    forall x :: 0 <= x < i ==> now[targets[x].camera] == ReportOf(start, targets[x]).camera
  }

  lemma OneTakenBack(start: seq<Camera>, now: seq<Camera>, targets: seq<Target>, i: nat)
    requires Known(start, targets) && DistinctCameras(targets) && 0 < i <= |targets| && |now| == |start|
    requires UpTo(start, now, targets, i)
    ensures targets[i - 1].camera < |now| && now[targets[i - 1].camera] == ReportOf(start, targets[i - 1]).camera
    ensures UpTo(start, now[targets[i - 1].camera := UndoingOf(start, targets[i - 1]).camera], targets, i - 1)
  {
    hide ReportOf, UndoingOf;
    assert targets[i - 1] in targets;
  }

  lemma UnbrokenOneMore(cameras: seq<Camera>, targets: seq<Target>, i: nat, j: nat)
    requires Known(cameras, targets) && i < |targets|
    ensures j >= i ==> Unbroken(cameras, targets, i + 1, j)
    ensures j < i ==> (Unbroken(cameras, targets, i + 1, j)
              <==> !UndoingOf(cameras, targets[i]).ending.Broke? && Unbroken(cameras, targets, i, j))
  {
    hide UndoingOf;
  }

  /** The last target goes first. */
  lemma RollbackOne(start: seq<Camera>, now: seq<Camera>, targets: seq<Target>, i: nat)
    requires Known(start, targets) && 0 < i <= |targets| && |now| == |start|
    requires targets[i - 1].camera < |now|
    requires now[targets[i - 1].camera] == ReportOf(start, targets[i - 1]).camera
    ensures var t := targets[i - 1];
            var next := now[t.camera := UndoingOf(start, t).camera];
            RollbackAll(now, ReturnsBefore(start, targets, i))
            == if UndoingOf(start, t).ending.Broke? then next
               else RollbackAll(next, ReturnsBefore(start, targets, i - 1))
  {
    hide Restore, ReportOf, Captured, ReturnFrom;
    var t := targets[i - 1];
    var report := ReportOf(start, t);
    var back, rest := ReturnsBefore(start, targets, i), ReturnsBefore(start, targets, i - 1);
    if ReturnFrom(report.ending).None? {
      assert back == rest;
      assert now[t.camera := report.camera] == now;
    } else {
      assert back[0] == ReturnOf(report, t)[0] && back[1..] == rest;
    }
  }

  lemma NothingBack(start: seq<Camera>, now: seq<Camera>, targets: seq<Target>)
    requires Known(start, targets)
    ensures ReturnsBefore(start, targets, 0) == [] && RollbackAll(now, []) == now
  {
  }

  lemma RollbackStep(start: seq<Camera>, now: seq<Camera>, targets: seq<Target>, i: nat, j: nat)
    requires Known(start, targets) && DistinctCameras(targets) && 0 < i <= |targets| && |now| == |start|
    requires j < |targets| && UpTo(start, now, targets, i)
    ensures targets[i - 1].camera < |now| && targets[j].camera < |now|
    ensures j != i - 1 ==> targets[j].camera != targets[i - 1].camera
    ensures var next := now[targets[i - 1].camera := UndoingOf(start, targets[i - 1]).camera];
            var broken := UndoingOf(start, targets[i - 1]).ending.Broke?;
            && UpTo(start, next, targets, i - 1)
            && RollbackAll(now, ReturnsBefore(start, targets, i))
               == (if broken then next else RollbackAll(next, ReturnsBefore(start, targets, i - 1)))
            && (j < i - 1 ==> (Unbroken(start, targets, i, j) <==> !broken && Unbroken(start, targets, i - 1, j)))
            && (j == i - 1 ==> Unbroken(start, targets, i, j))
  {
    hide UndoingOf, ReportOf, Restore, Unbroken, RollbackAll, ReturnsBefore, UpTo;
    assert targets[j] in targets;
    OneTakenBack(start, now, targets, i);
    RollbackOne(start, now, targets, i);
    UnbrokenOneMore(start, targets, i - 1, j);
  }

  /**
   * The rollback over the targets before `i`: those it reaches are taken back one by one, the rest stay as their
   * restores left them.
   */
  lemma {:induction false} RollbackEnds(start: seq<Camera>, now: seq<Camera>, targets: seq<Target>, i: nat, j: nat)
    requires Known(start, targets) && DistinctCameras(targets) && i <= |targets| && j < |targets| && |now| == |start|
    requires UpTo(start, now, targets, i)
    ensures RollbackAll(now, ReturnsBefore(start, targets, i))[targets[j].camera]
         == if j < i && Unbroken(start, targets, i, j) then UndoingOf(start, targets[j]).camera
            else now[targets[j].camera]
    decreases i
  {
    hide *;
    if i == 0 {
      NothingBack(start, now, targets);
    } else {
      RollbackStep(start, now, targets, i, j);
      var next := now[targets[i - 1].camera := UndoingOf(start, targets[i - 1]).camera];
      if !UndoingOf(start, targets[i - 1]).ending.Broke? {
        RollbackEnds(start, next, targets, i - 1, j);
      }
    }
  }

  lemma OneFurther(start: seq<Camera>, now: seq<Camera>, targets: seq<Target>, completed: seq<Return>, i: nat)
    requires Known(start, targets) && DistinctCameras(targets) && i < |targets|
    requires Underway(start, now, targets, completed, i)
    ensures Known(now, targets[i..]) && forall c :: c in completed ==> c.camera < |now|
    ensures targets[i..][0] == targets[i] && targets[i..][1..] == targets[i + 1..]
    ensures targets[i].camera < |now| && ReportOf(now, targets[i]) == ReportOf(start, targets[i])
    ensures var report := ReportOf(start, targets[i]);
            Underway(start, now[targets[i].camera := report.camera], targets, completed + ReturnOf(report, targets[i]),
                    i + 1)
  {
    hide Restore, ReturnOf;
    assert targets[i] in targets && forall t :: t in targets[i..] ==> t in targets;
    OneMoreRestored(start, now, targets, i);
    OneMoreReturn(start, targets, completed, i);
  }

  lemma FailureRollsBack(start: seq<Camera>, next: seq<Camera>, targets: seq<Target>, completed: seq<Return>, k: nat,
                         j: nat)
    requires Known(start, targets) && DistinctCameras(targets) && j < |targets| && k < |targets|
    requires Underway(start, next, targets, completed + ReturnOf(ReportOf(start, targets[k]), targets[k]), k + 1)
    ensures ReturnOf(ReportOf(start, targets[k]), targets[k]) + Reversed(completed)
         == ReturnsBefore(start, targets, k + 1)
    ensures targets[j].camera < |next| == |start|
    ensures RollbackAll(next, ReturnsBefore(start, targets, k + 1))[targets[j].camera]
         == if j <= k && Unbroken(start, targets, k + 1, j) then UndoingOf(start, targets[j]).camera
            else if j <= k then ReportOf(start, targets[j]).camera else start[targets[j].camera]
  {
    var extra := ReturnOf(ReportOf(start, targets[k]), targets[k]);
    LastFirst(completed, extra);
    assert targets[j] in targets;
    assert Reversed(completed + extra) == ReturnsBefore(start, targets, k + 1);
    assert UpTo(start, next, targets, k + 1);
    assert j > k ==> next[targets[j].camera] == start[targets[j].camera];
    assert j <= k ==> next[targets[j].camera] == ReportOf(start, targets[j]).camera;
    hide *;
    RollbackEnds(start, next, targets, k + 1, j);
  }

  /** The failure at target `k`: each camera is taken back or left as its own restore decided. */
  lemma FailureEnds(start: seq<Camera>, now: seq<Camera>, targets: seq<Target>, completed: seq<Return>, k: nat, j: nat)
    requires Known(start, targets) && DistinctCameras(targets) && j < |targets| && FailsAt(start, targets, k)
    requires Underway(start, now, targets, completed, k)
    ensures forall c :: c in completed ==> c.camera < |now|
    ensures Known(now, targets[k..])
    ensures var r := ApplyFrom(now, targets[k..], completed);
            !r.ok && r.cameras[targets[j].camera] == EndOf(start, targets, k, j)
  {
    OneFurther(start, now, targets, completed, k);
    var t := targets[k];
    var report := ReportOf(start, t);
    var next := now[t.camera := report.camera];
    assert t in targets && targets[j] in targets;
    if report.ending.Failed? {
      FailureRollsBack(start, next, targets, completed, k, j);
    }
    hide Restore, Captured, ReportOf, UndoingOf, ReturnOf, RollbackAll, ReturnsBefore, Unbroken, Reversed;
  }

  lemma {:induction false} ApplyFails(start: seq<Camera>, now: seq<Camera>, targets: seq<Target>,
                                      completed: seq<Return>, i: nat, k: nat, j: nat)
    requires Known(start, targets) && DistinctCameras(targets) && j < |targets| && i <= k && FailsAt(start, targets, k)
    requires Underway(start, now, targets, completed, i)
    ensures Known(now, targets[i..]) && forall c :: c in completed ==> c.camera < |now|
    ensures var r := ApplyFrom(now, targets[i..], completed);
            !r.ok && r.cameras[targets[j].camera] == EndOf(start, targets, k, j)
    decreases k - i
  {
    if i == k {
      FailureEnds(start, now, targets, completed, k, j);
    } else {
      OneFurther(start, now, targets, completed, i);
      var report := ReportOf(start, targets[i]);
      assert report.ending.Ran?;
      hide Underway, ReturnOf, EndOf, ReportOf, FailsAt;
      ApplyFails(start, now[targets[i].camera := report.camera], targets, completed + ReturnOf(report, targets[i]),
                 i + 1, k, j);
    }
  }

  lemma {:induction false} ApplySucceeds(start: seq<Camera>, now: seq<Camera>, targets: seq<Target>,
                                         completed: seq<Return>, i: nat, j: nat)
    requires Known(start, targets) && DistinctCameras(targets) && j < |targets| && i <= |targets|
    requires Underway(start, now, targets, completed, i)
    requires forall x :: 0 <= x < |targets| ==> ReportOf(start, targets[x]).ending.Ran?
    ensures Known(now, targets[i..]) && forall c :: c in completed ==> c.camera < |now|
    ensures var r := ApplyFrom(now, targets[i..], completed);
            r.ok && r.cameras[targets[j].camera] == ReportOf(start, targets[j]).camera
    decreases |targets| - i
  {
    hide ReportOf, ReturnOf;
    if i < |targets| {
      OneFurther(start, now, targets, completed, i);
      var report := ReportOf(start, targets[i]);
      hide Underway;
      ApplySucceeds(start, now[targets[i].camera := report.camera], targets, completed + ReturnOf(report, targets[i]),
                    i + 1, j);
    }
  }

  lemma AtTheStart(cameras: seq<Camera>, targets: seq<Target>)
    requires Known(cameras, targets)
    ensures Underway(cameras, cameras, targets, [], 0) && targets[0..] == targets
  {
    hide Restore;
    assert forall j :: 0 <= j < |targets| ==> targets[j] in targets;
  }

  lemma {:induction false} FirstFailure(cameras: seq<Camera>, targets: seq<Target>, i: nat) returns (k: nat)
    requires Known(cameras, targets) && i <= |targets|
    requires forall j :: 0 <= j < i ==> ReportOf(cameras, targets[j]).ending.Ran?
    ensures if k < |targets| then FailsAt(cameras, targets, k)
            else forall j :: 0 <= j < |targets| ==> ReportOf(cameras, targets[j]).ending.Ran?
    decreases |targets| - i
  {
    hide ReportOf;
    if i < |targets| && ReportOf(cameras, targets[i]).ending.Ran? {
      k := FirstFailure(cameras, targets, i + 1);
    } else {
      k := i;
    }
  }

  /**
   * Success: all restores ran to their ends and the last read was not cut. In the first case every camera matched the
   * backup when its restore was checked, and was left alone since, also if the operation then fails. A refused
   * preflight changes nothing. This holds whatever others do and whichever calls fail.
   */
  lemma SuccessMatches(cameras: seq<Camera>, targets: seq<Target>, refreshed: bool)
    requires Known(cameras, targets) && DistinctCameras(targets)
    ensures var r := ApplyBackup(cameras, targets, refreshed);
            var restored := Preflight(targets) && forall j :: 0 <= j < |targets| ==>
                              ReportOf(cameras, targets[j]).ending.Ran?;
            && (r.ok <==> restored && refreshed)
            && (restored ==> forall j :: 0 <= j < |targets| ==>
                  ValuesMatch(r.cameras[targets[j].camera].settings, targets[j].saved))
            && (!Preflight(targets) ==> r.cameras == cameras)
  {
    var k := FirstFailure(cameras, targets, 0);
    AtTheStart(cameras, targets);
    hide ReportOf, RestorePlan, ValuesMatch, Underway;
    if Preflight(targets) {
      if k < |targets| {
        ApplyFails(cameras, cameras, targets, [], 0, k, k);
      } else {
        if targets == [] {
        } else {
          forall j | 0 <= j < |targets|
            ensures var r := ApplyFrom(cameras, targets, []);
                    r.ok && ValuesMatch(r.cameras[targets[j].camera].settings, targets[j].saved)
          {
            ApplySucceeds(cameras, cameras, targets, [], 0, j);
            ReportMatches(cameras, targets[j]);
          }
          ApplySucceeds(cameras, cameras, targets, [], 0, 0);
        }
      }
    }
  }

  lemma ReportMatches(cameras: seq<Camera>, t: Target)
    requires t.camera < |cameras| && ReportOf(cameras, t).ending.Ran?
    ensures ValuesMatch(ReportOf(cameras, t).camera.settings, t.saved)
  {
    RestoreReports(cameras[t.camera], t.saved, t.revision);
  }

  /** The camera of target `j` gets its old values back when target `k` fails. */
  ghost predicate GetsBack(cameras: seq<Camera>, targets: seq<Target>, k: nat, j: nat)
    requires Known(cameras, targets) && k < |targets| && j < |targets|
  {
    var t := targets[j];
    var report := ReportOf(cameras, t);
    || SameValues(Dict(report.camera.settings), Dict(t.revision))
    || (Reaches(cameras, targets, k, j) && UndoWorks(report, t.revision))
  }

  /**
   * Failure at target `k`, whatever happened until then, whatever happens to the other cameras, and with this one
   * left alone from then on: it is untouched if it comes later, and otherwise shows its old values exactly when
   * `GetsBack` says so.
   */
  lemma ApplyUndoneIff(cameras: seq<Camera>, targets: seq<Target>, refreshed: bool, k: nat, j: nat)
    requires Known(cameras, targets) && DistinctCameras(targets) && Preflight(targets) && FailsAt(cameras, targets, k)
    requires j < |targets| && Document(targets[j].revision)
    requires j <= k ==> ReportOf(cameras, targets[j]).camera.script == []
    ensures var r := ApplyBackup(cameras, targets, refreshed);
            var now := r.cameras[targets[j].camera];
            && !r.ok
            && (j > k ==> now == cameras[targets[j].camera])
            && (j <= k ==> (SameValues(Dict(now.settings), Dict(targets[j].revision))
                  <==> GetsBack(cameras, targets, k, j)))
  {
    var t := targets[j];
    assert t in targets;
    AtTheStart(cameras, targets);
    ApplyFails(cameras, cameras, targets, [], 0, k, j);
    hide Restore, RestorePlan, Underway, WayBack, Dict, SameValues, Document, Captured, Preflight, ApplyFrom, Reaches,
      Undoing, UndoWorks;
    if j <= k {
      UndoneIff(cameras[t.camera], t.saved, t.revision);
    }
  }

  /** With every camera left alone from then on, a failure that is handled has its rollback reach all of them. */
  lemma CalmRollbackReaches(cameras: seq<Camera>, targets: seq<Target>, k: nat, j: nat)
    requires Known(cameras, targets) && FailsAt(cameras, targets, k) && ReportOf(cameras, targets[k]).ending.Failed?
    requires forall x :: 0 <= x <= k ==> ReportOf(cameras, targets[x]).camera.script == []
    ensures Reaches(cameras, targets, k, j)
  {
    hide ReportOf, Restore, Captured, RestorePlan, Attempt;
    forall x | j < x <= k
      ensures !UndoingOf(cameras, targets[x]).ending.Broke?
    {
      var t := targets[x];
      var report := ReportOf(cameras, t);
      match ReturnFrom(report.ending) {
        case Some(revision) => CalmRestore(report.camera, Captured(t.revision), revision);
        case None =>
      }
    }
  }

  // ---------- the operation as it runs

  /** The engine's API over all cameras. */
  class Client {
    var cameras: seq<Camera>

    constructor (cameras: seq<Camera>)
      ensures this.cameras == cameras
    {
      this.cameras := cameras;
    }

    method GetSettings(camera: nat) returns (r: Result<Reply, Fault>)
      requires camera < |cameras|
      modifies this
      ensures cameras == old(cameras)[camera := Get(old(cameras)[camera]).camera]
      ensures r == Get(old(cameras)[camera]).result
    {
      var answer := Get(cameras[camera]);
      cameras := cameras[camera := answer.camera];
      r := answer.result;
    }

    method PostSetting(camera: nat, item: Item, revision: Revision) returns (r: Result<Reply, Fault>)
      requires camera < |cameras|
      modifies this
      ensures cameras == old(cameras)[camera := Post(old(cameras)[camera], item, revision).camera]
      ensures r == Post(old(cameras)[camera], item, revision).result
    {
      var answer := Post(cameras[camera], item, revision);
      cameras := cameras[camera := answer.camera];
      r := answer.result;
    }

    /** The restore of one camera; the others are not touched. */
    method ApplyCamera(camera: nat, saved: seq<Field>, expected: Revision) returns (r: Ending)
      requires camera < |cameras|
      modifies this
      ensures cameras == old(cameras)[camera := Restore(old(cameras)[camera], saved, expected).camera]
      ensures r == Restore(old(cameras)[camera], saved, expected).ending
    {
      hide Get, Post, PostAll, RestorePlan, ValuesMatch;
      var start := cameras[camera];
      var got := GetSettings(camera);
      if got.Err? {
        return Ended(got.error, false, expected);
      }
      if got.value.revision != Some(expected) {
        return Failed(CameraApplyError(CONFLICT, false, Some(expected)));
      }
      var planned := RestorePlan(got.value.settings, saved);
      if planned.Err? {
        return Failed(CameraApplyError(PlanStatus(planned.error), false, Some(expected)));
      }
      r := WritePlan(camera, planned.value, expected);
      if r.Ran? {
        r := Verify(camera, saved, r.done);
      }
    }

    method WritePlan(camera: nat, plan: seq<Item>, expected: Revision) returns (r: Ending)
      requires camera < |cameras|
      modifies this
      ensures cameras == old(cameras)[camera := PostAll(old(cameras)[camera], plan, expected, false).camera]
      ensures r == PostAll(old(cameras)[camera], plan, expected, false).ending
    {
      hide Post;
      var revision := expected;
      assert plan[0..] == plan;
      for i := 0 to |plan|
        invariant |cameras| == |old(cameras)| && cameras == old(cameras)[camera := cameras[camera]]
        invariant PostAll(old(cameras)[camera], plan, expected, false)
               == PostAll(cameras[camera], plan[i..], revision, i > 0)
      {
        assert plan[i..][0] == plan[i] && plan[i..][1..] == plan[i + 1..];
        var posted := PostSetting(camera, plan[i], revision);
        if posted.Err? {
          return Ended(posted.error, i > 0, revision);
        }
        if posted.value.revision.None? {
          return Failed(CameraApplyError(None, true, None));
        }
        revision := posted.value.revision.value;
      }
      r := Ran(Done(plan != [], revision));
    }

    method Verify(camera: nat, saved: seq<Field>, done: Done) returns (r: Ending)
      requires camera < |cameras|
      modifies this
      ensures cameras == old(cameras)[camera := Checked(old(cameras)[camera], saved, done).camera]
      ensures r == Checked(old(cameras)[camera], saved, done).ending
    {
      hide Get, ValuesMatch;
      var verified := GetSettings(camera);
      if verified.Err? {
        return Ended(verified.error, done.changed, done.revision);
      }
      if verified.value.revision != Some(done.revision) || !ValuesMatch(verified.value.settings, saved) {
        return Failed(CameraApplyError(CONFLICT, done.changed, Some(done.revision)));
      }
      r := Ran(done);
    }

    /** The errors that a restore handles are suppressed; any other one ends the loop. */
    method Rollback(back: seq<Return>)
      requires forall r :: r in back ==> r.camera < |cameras|
      modifies this
      ensures cameras == RollbackAll(old(cameras), back)
    {
      hide Restore;
      assert back[0..] == back;
      for i := 0 to |back|
        invariant |cameras| == |old(cameras)|
        invariant RollbackAll(old(cameras), back) == RollbackAll(cameras, back[i..])
      {
        assert back[i] in back && back[i..][0] == back[i] && back[i..][1..] == back[i + 1..];
        var r := ApplyCamera(back[i].camera, back[i].previous, back[i].revision);
        if r.Broke? {
          return;
        }
      }
    }

    method Apply(targets: seq<Target>, refreshed: bool) returns (ok: bool)
      requires Known(cameras, targets)
      modifies this
      ensures Applied(ok, cameras) == ApplyBackup(old(cameras), targets, refreshed)
    {
      hide Restore, RestorePlan, RollbackAll, Captured;
      if !Preflight(targets) {
        return false;
      }
      var completed: seq<Return> := [];
      assert targets[0..] == targets;
      for i := 0 to |targets|
        invariant |cameras| == |old(cameras)| && Known(cameras, targets)
        invariant forall c :: c in completed ==> c.camera < |cameras|
        invariant ApplyFrom(old(cameras), targets, []) == ApplyFrom(cameras, targets[i..], completed)
      {
        var t := targets[i];
        assert t in targets && targets[i..][0] == t && targets[i..][1..] == targets[i + 1..];
        var r := ApplyCamera(t.camera, t.saved, t.revision);
        match r {
          case Broke =>
            return false;
          case Failed(error) =>
            var failed := if ReturnsFailed(error)
              then [Return(t.camera, Captured(t.revision), error.revision.value)] else [];
            Rollback(failed + Reversed(completed));
            return false;
          case Ran(done) =>
            if done.changed {
              completed := completed + [Return(t.camera, Captured(t.revision), done.revision)];
            } else {
              assert completed + [] == completed;
            }
        }
      }
      ok := refreshed;
    }
  }
}
