/**
 * The OAuth session: one refresh at a time, rotation of the refresh token (refresh grant: section 6 of RFC 6749),
 * and a credential file that a background retry brings back into agreement with memory.
 *
 * Every await of the source is a boundary between steps, so any number of callers, one detached rotation, the
 * retry task, enrolments, imports and rewrites of the stored identity interleave; whatever runs on behalf of a
 * request may also be cancelled at any of its awaits.
 */
module OAuthSession {
  import opened Wrappers

  type Token = nat
  type TaskId = nat

  const REFRESH_MARGIN: nat := 60 // seconds
  const TRANSIENT_COOLDOWN: nat := 10
  const REJECTED_COOLDOWN: nat := 1800

  datatype Credentials = Credentials(refresh: Token, identity: nat)

  /** An access token, named by the refresh token that was granted with it. */
  datatype Access = Access(grant: Token, expires: nat)

  datatype Session = Session(credentials: Credentials, access: Option<Access>)

  datatype Failure = Failure(generation: nat, at: nat, rejected: bool)

  datatype Task =
    | Waiting                                                       // a caller that wants a refresh
    | Checking                                                      // it holds the credential lock
    | Joined                                                        // it awaits its rotation, until `Cancel`
    | Requesting(token: Token, generation: nat)                     // the rotation, with the lock
    | Received(next: Token, expires: nat, generation: nat)
    | Installed
    | Saving(copy: Credentials)
    | RetrySleeping
    | RetryChecking
    | RetrySaving(copy: Credentials)
    | Enrolling(credentials: Credentials, expires: nat)
    | EnrollSaving(credentials: Credentials, expires: nat)
    | EnrollReplacing(credentials: Credentials, expires: nat)
    | Importing(credentials: Credentials)
    | ImportOpening(credentials: Credentials)
    | ImportTrying(importGeneration: nat, previous: Option<Session>)
    | ImportRestoring(importGeneration: nat, previous: Option<Session>)
    | Identifying(identity: nat)                                    // a request that learnt the account's identity
    | IdentifyHolding(identity: nat)
    | Persisting(changed: bool)                                     // a request's save is due; did it change memory?
    | PersistSaving(copy: Credentials, changed: bool)

  /** Refresh tokens the client offered, and those for which it received a successor. */
  datatype Exchange = Offered(token: Token) | Spent(token: Token)

  datatype State = State(
    session: Option<Session>, generation: nat, disk: Option<Credentials>,
    pending: bool, retrying: bool, failure: Option<Failure>,
    lock: Option<TaskId>, tasks: map<TaskId, Task>, clock: nat,
    log: seq<Exchange>, issued: set<Token>)

  /** A file write replaces the file, leaves it, or replaces it and then reports an error. */
  datatype Write = Written | Refused | Unsynced

  datatype Reply = Granted(next: Token, lifetime: nat) | Denied(rejected: bool)

  datatype Step =
    | Call(id: TaskId)
    | Acquire(id: TaskId)
    | Check(id: TaskId, rotator: TaskId)
    | Cancel(id: TaskId)
    | Respond(id: TaskId, reply: Reply)
    | Install(id: TaskId)
    | BeginSave(id: TaskId)
    | EndSave(id: TaskId, write: Write, retry: TaskId)
    | RetryCheck(id: TaskId)
    | RetryEnd(id: TaskId, write: Write)
    | Enroll(id: TaskId, credentials: Credentials, lifetime: nat)
    | EnrollSave(id: TaskId, write: Write)
    | EnrollReplace(id: TaskId)
    | Import(id: TaskId, credentials: Credentials)
    | ImportOpen(id: TaskId)
    | ImportAccept(id: TaskId)
    | ImportRestore(id: TaskId)
    | Identify(id: TaskId, identity: nat)
    | SetIdentity(id: TaskId)
    | CancelAfterRename(id: TaskId)
    | Invalidate(grant: Token)   // Blink answered 401 to this access token, however late
    | Tick(seconds: nat)

  /** Tasks that own the credential lock. */
  predicate Critical(t: Task) {
    t.Checking? || t.Requesting? || t.Received? || t.Installed? || t.Saving? || t.RetryChecking? || t.RetrySaving?
    || t.EnrollSaving? || t.EnrollReplacing? || t.ImportOpening? || t.ImportRestoring?
    || t.IdentifyHolding? || t.Persisting? || t.PersistSaving?
  }

  predicate Retry(t: Task) {
    t.RetrySleeping? || t.RetryChecking? || t.RetrySaving?
  }

  predicate NeedsRefresh(session: Session, now: nat) {
    session.access.None? || session.access.value.expires < now + REFRESH_MARGIN
  }

  /** A failure of this generation that is too recent to try again. */
  predicate RecentFailure(failure: Option<Failure>, generation: nat, now: nat) {
    failure.Some? && failure.value.generation == generation
    && now < failure.value.at + if failure.value.rejected then REJECTED_COOLDOWN else TRANSIENT_COOLDOWN
  }

  function At(s: State, id: TaskId, t: Task): State {
    s.(tasks := s.tasks[id := t])
  }

  function Gone(s: State, id: TaskId): State {
    s.(tasks := s.tasks - {id})
  }

  /** Dropping the guard: the task ends and the lock is free. */
  function Release(s: State, id: TaskId): State {
    Gone(s, id).(lock := None)
  }

  /** The session mutex is enough for this; the credential lock is not taken. */
  function Invalidated(s: State, grant: Token): State {
    if s.session.Some? && s.session.value.access.Some? && s.session.value.access.value.grant == grant
    then s.(session := Some(s.session.value.(access := None))) else s
  }

  function WriteFile(s: State, copy: Credentials, write: Write): State {
    if write.Refused? then s.(pending := true)
    else s.(disk := Some(copy), pending := write.Unsynced?)
  }

  predicate Enabled(s: State, step: Step) {
    match step
    case Call(id) => id !in s.tasks
    case Acquire(id) =>
      s.lock.None? && id in s.tasks
      && (var t := s.tasks[id];
          t.Waiting? || t.RetrySleeping? || t.Enrolling? || t.Importing? || t.ImportTrying? || t.Identifying?)
    case Check(id, rotator) => id in s.tasks && s.tasks[id].Checking? && rotator !in s.tasks
    case Cancel(id) =>
      id in s.tasks
      && (var t := s.tasks[id];
          t.Waiting? || t.Checking? || t.Joined? || t.Enrolling? || t.EnrollSaving? || t.EnrollReplacing?
          || t.Importing? || t.ImportOpening? || t.ImportTrying? || t.ImportRestoring?
          || t.Identifying? || t.IdentifyHolding? || t.Persisting? || t.PersistSaving?)
    case Respond(id, reply) =>
      id in s.tasks && s.tasks[id].Requesting? && (reply.Granted? ==> reply.next !in s.issued)
    case Install(id) => id in s.tasks && s.tasks[id].Received?
    case BeginSave(id) => id in s.tasks && (s.tasks[id].Installed? || s.tasks[id].Persisting?)
    case EndSave(id, _, retry) =>
      id in s.tasks && (s.tasks[id].Saving? || s.tasks[id].PersistSaving?) && retry !in s.tasks
    case RetryCheck(id) => id in s.tasks && s.tasks[id].RetryChecking?
    case RetryEnd(id, _) => id in s.tasks && s.tasks[id].RetrySaving?
    case Enroll(id, credentials, _) => id !in s.tasks && credentials.refresh !in s.issued
    case EnrollSave(id, _) => id in s.tasks && s.tasks[id].EnrollSaving?
    case EnrollReplace(id) => id in s.tasks && s.tasks[id].EnrollReplacing?
    case Import(id, _) => id !in s.tasks
    case ImportOpen(id) => id in s.tasks && s.tasks[id].ImportOpening?
    case ImportAccept(id) => id in s.tasks && s.tasks[id].ImportRestoring?
    case ImportRestore(id) => id in s.tasks && s.tasks[id].ImportRestoring?
    case Identify(id, _) => id !in s.tasks
    case SetIdentity(id) => id in s.tasks && s.tasks[id].IdentifyHolding?
    case CancelAfterRename(id) => id in s.tasks && s.tasks[id].PersistSaving?
    case Invalidate(_) => true
    case Tick(_) => true
  }

  function Next(s: State, step: Step): State
    requires Enabled(s, step)
  {
    match step
    case Call(id) => if s.session.Some? && NeedsRefresh(s.session.value, s.clock) then At(s, id, Waiting) else s
    case Acquire(id) =>
      var held := match s.tasks[id]
                  case RetrySleeping => RetryChecking
                  case Enrolling(credentials, expires) => EnrollSaving(credentials, expires)
                  case Importing(credentials) => ImportOpening(credentials)
                  case ImportTrying(generation, previous) => ImportRestoring(generation, previous)
                  case Identifying(identity) => IdentifyHolding(identity)
                  case _ => Checking;
      At(s, id, held).(lock := Some(id))
    case Check(id, rotator) =>
      if s.session.None? || !NeedsRefresh(s.session.value, s.clock)
         || RecentFailure(s.failure, s.generation, s.clock) then Release(s, id)
      else
        var token := s.session.value.credentials.refresh;
        At(At(s, id, Joined), rotator, Requesting(token, s.generation))
          .(lock := Some(rotator), log := s.log + [Offered(token)])
    case Cancel(id) => if s.lock == Some(id) then Release(s, id) else Gone(s, id)
    case Respond(id, reply) =>
      if reply.Granted? then
        At(s, id, Received(reply.next, s.clock + reply.lifetime, s.tasks[id].generation))
          .(log := s.log + [Spent(s.tasks[id].token)], issued := s.issued + {reply.next})
      else Release(s, id).(failure := Some(Failure(s.tasks[id].generation, s.clock, reply.rejected)))
    case Install(id) =>
      var t := s.tasks[id];
      if s.session.None? || s.generation != t.generation then Release(s, id)
      else
        var credentials := s.session.value.credentials.(refresh := t.next);
        At(s, id, Installed)
          .(session := Some(Session(credentials, Some(Access(t.next, t.expires)))), failure := None)
    case BeginSave(id) =>
      if s.session.None? then Release(s, id)
      else
        var copy := s.session.value.credentials;
        At(s, id, if s.tasks[id].Installed? then Saving(copy) else PersistSaving(copy, s.tasks[id].changed))
    case EndSave(id, write, retry) =>
      var saved := WriteFile(Release(s, id), s.tasks[id].copy, write);
      if write.Written? || saved.retrying then saved else At(saved, retry, RetrySleeping).(retrying := true)
    case RetryCheck(id) =>
      if !s.pending || s.session.None? then Release(s, id).(retrying := false)
      else At(s, id, RetrySaving(s.session.value.credentials))
    case RetryEnd(id, write) =>
      var saved := WriteFile(s.(lock := None), s.tasks[id].copy, write);
      if write.Written? then Gone(saved, id).(retrying := false) else At(saved, id, RetrySleeping)
    case Enroll(id, credentials, lifetime) =>
      At(s, id, Enrolling(credentials, s.clock + lifetime)).(issued := s.issued + {credentials.refresh})
    case EnrollSave(id, write) =>
      var t := s.tasks[id];
      if write.Written? then At(s, id, EnrollReplacing(t.credentials, t.expires)).(disk := Some(t.credentials))
      else Release(s, id).(disk := if write.Unsynced? then Some(t.credentials) else s.disk)
    case EnrollReplace(id) =>
      var t := s.tasks[id];
      var access := Access(t.credentials.refresh, t.expires);
      Release(s, id).(session := Some(Session(t.credentials, Some(access))), generation := s.generation + 1,
                      failure := None, pending := false)
    case Import(id, credentials) => At(s, id, Importing(credentials)).(issued := s.issued + {credentials.refresh})
    case ImportOpen(id) =>
      At(s, id, ImportTrying(s.generation + 1, s.session))
        .(session := Some(Session(s.tasks[id].credentials, None)), generation := s.generation + 1, failure := None,
          lock := None)
    case ImportAccept(id) => At(s, id, Persisting(false))
    case ImportRestore(id) =>
      var t := s.tasks[id];
      if s.generation != t.importGeneration then Release(s, id)
      else if t.previous.Some?
      then Release(s, id).(session := t.previous, generation := s.generation + 1, failure := None)
      else Release(s, id).(session := None)
    case Identify(id, identity) => At(s, id, Identifying(identity))
    case SetIdentity(id) =>
      if s.session.None? then Release(s, id)
      else
        var credentials := s.session.value.credentials.(identity := s.tasks[id].identity);
        At(s, id, Persisting(credentials != s.session.value.credentials))
          .(session := Some(s.session.value.(credentials := credentials)))
    case CancelAfterRename(id) => Release(s, id).(disk := Some(s.tasks[id].copy))
    case Invalidate(grant) => Invalidated(s, grant)
    case Tick(seconds) => s.(clock := s.clock + seconds)
  }

  function Act(s: State, step: Step): State {
    if Enabled(s, step) then Next(s, step) else s
  }

  function Run(s: State, steps: seq<Step>): State
    decreases |steps|
  {
    if steps == [] then s else Run(Act(s, steps[0]), steps[1..])
  }

  /** At start-up the session, if any, is the one on disk. */
  predicate Initial(s: State) {
    && s.tasks == map[] && s.lock.None? && !s.pending && !s.retrying && s.failure.None? && s.log == []
    && (s.session.Some? ==> s.session.value.access.None? && s.disk == Some(s.session.value.credentials))
    && (s.session.Some? ==> s.session.value.credentials.refresh in s.issued)
  }

  // ---------- mutual exclusion, in every run

  /** The lock owner is the one critical task. */
  ghost predicate Exclusive(s: State) {
    && (forall id :: id in s.tasks && Critical(s.tasks[id]) ==> s.lock == Some(id))
    && (s.lock.Some? ==> s.lock.value in s.tasks && Critical(s.tasks[s.lock.value]))
  }

  /** Enrolments and imports, the tasks that replace the whole session. */
  predicate Replaces(step: Step) {
    step.Enroll? || step.EnrollSave? || step.EnrollReplace?
    || step.Import? || step.ImportOpen? || step.ImportAccept? || step.ImportRestore?
  }

  predicate Rotates(step: Step) {
    step.Respond? || step.Install? || step.BeginSave? || step.EndSave? || step.RetryCheck? || step.RetryEnd?
  }

  lemma ReplacingKeepsExclusive(s: State, step: Step)
    requires Exclusive(s) && Replaces(step) && Enabled(s, step)
    ensures Exclusive(Next(s, step))
  {
    hide NeedsRefresh, RecentFailure, Coming;
  }

  lemma RotatingKeepsExclusive(s: State, step: Step)
    requires Exclusive(s) && Rotates(step) && Enabled(s, step)
    ensures Exclusive(Next(s, step))
  {
  }

  lemma CallingKeepsExclusive(s: State, step: Step)
    requires Exclusive(s) && !Rotates(step) && !Replaces(step) && Enabled(s, step)
    ensures Exclusive(Next(s, step))
  {
  }

  lemma StepKeepsExclusive(s: State, step: Step)
    requires Exclusive(s)
    ensures Exclusive(Act(s, step))
  {
    hide Exclusive, Enabled, Next, Rotates, Replaces;
    if Enabled(s, step) {
      if Replaces(step) {
        ReplacingKeepsExclusive(s, step);
      } else if Rotates(step) {
        RotatingKeepsExclusive(s, step);
      } else {
        CallingKeepsExclusive(s, step);
      }
    }
  }

  lemma {:induction false} RunKeepsExclusive(s: State, steps: seq<Step>)
    requires Exclusive(s)
    ensures Exclusive(Run(s, steps))
    decreases |steps|
  {
    hide Exclusive, Act;
    if steps != [] {
      StepKeepsExclusive(s, steps[0]);
      RunKeepsExclusive(Act(s, steps[0]), steps[1..]);
    }
  }

  /** Single flight: at most one token request is ever in progress, imports and cancellations included. */
  lemma SingleFlight(s: State, steps: seq<Step>, one: TaskId, other: TaskId)
    requires Initial(s)
    ensures var t := Run(s, steps);
            one in t.tasks && other in t.tasks && t.tasks[one].Requesting? && t.tasks[other].Requesting?
            ==> one == other
  {
    RunKeepsExclusive(s, steps);
  }

  // ---------- a spent refresh token is never offered again

  /** The refresh token that an unfinished enrolment, rotation or import may yet install. */
  function Coming(t: Task, generation: nat): Option<Token> {
    match t
    case Enrolling(credentials, _) => Some(credentials.refresh)
    case EnrollSaving(credentials, _) => Some(credentials.refresh)
    case EnrollReplacing(credentials, _) => Some(credentials.refresh)
    case Received(next, _, _) => Some(next)
    case Importing(credentials) => Some(credentials.refresh)
    case ImportOpening(credentials) => Some(credentials.refresh)
    case ImportTrying(g, previous) => PreviousToken(g == generation, previous)
    case ImportRestoring(g, previous) => PreviousToken(g == generation, previous)
    case _ => None
  }

  function PreviousToken(unreplaced: bool, previous: Option<Session>): Option<Token> {
    if unreplaced && previous.Some? then Some(previous.value.credentials.refresh) else None
  }

  function Current(s: State): Option<Token> {
    if s.session.Some? then Some(s.session.value.credentials.refresh) else None
  }

  ghost predicate NeverReoffered(log: seq<Exchange>) {
    forall i, j :: 0 <= i < j < |log| && log[i].Spent? ==> log[j] != Offered(log[i].token)
  }

  /** Tokens on their way are known, unspent, different from the current one and from each other. */
  ghost predicate ComingSound(s: State) {
    && (forall id :: id in s.tasks && Coming(s.tasks[id], s.generation).Some? ==>
          var token := Coming(s.tasks[id], s.generation).value;
          token in s.issued && Spent(token) !in s.log && Current(s) != Some(token))
    && (forall id, other ::
          (id in s.tasks && other in s.tasks && Coming(s.tasks[id], s.generation).Some?
           && Coming(s.tasks[id], s.generation) == Coming(s.tasks[other], s.generation)) ==> id == other)
  }

  /** A rotation works on the current session; a waiting import's session is not from the future. */
  ghost predicate RotationSound(s: State) {
    forall id :: id in s.tasks ==>
      match s.tasks[id]
      case Requesting(token, generation) =>
        Current(s) == Some(token) && generation == s.generation && Spent(token) !in s.log
      case Received(_, _, generation) => s.session.Some? && generation == s.generation
      case ImportTrying(g, _) => g <= s.generation
      case ImportRestoring(g, _) => g <= s.generation
      case _ => true
  }

  ghost predicate CurrentSound(s: State) {
    && (Current(s).Some? ==> Current(s).value in s.issued)
    && (Current(s).Some? && Spent(Current(s).value) in s.log ==>
          s.lock.Some? && s.lock.value in s.tasks && s.tasks[s.lock.value].Received?)
  }

  /** Memory holds a spent token only between the provider's answer and its installation, under the lock. */
  ghost predicate TokensSound(s: State) {
    && Exclusive(s)
    && (forall e :: e in s.log ==> e.token in s.issued)
    && CurrentSound(s)
    && ComingSound(s)
    && RotationSound(s)
    && NeverReoffered(s.log)
  }

  lemma InitialTokens(s: State)
    requires Initial(s)
    ensures TokensSound(s)
  {
  }

  /** A step that touches neither tokens nor the exchange log, and brings no token of its own. */
  predicate Routine(step: Step) {
    !(step.Check? || step.Respond? || step.Install? || step.Enroll? || step.EnrollReplace?
      || step.Import? || step.ImportOpen? || step.ImportRestore?)
  }

  /** Every token that `task` carries it already carried in `s`. */
  ghost predicate Carried(s: State, id: TaskId, task: Task) {
    (Coming(task, s.generation).Some? || task.Requesting? || task.Received? || task.ImportTrying?
     || task.ImportRestoring?) ==>
      && id in s.tasks
      && Coming(s.tasks[id], s.generation) == Coming(task, s.generation)
      && (task.Requesting? || task.Received? ==> s.tasks[id] == task)
      && (task.ImportTrying? ==> s.tasks[id] == task)
      && (task.ImportRestoring? ==>
            s.tasks[id] == task || s.tasks[id] == ImportTrying(task.importGeneration, task.previous))
  }

  ghost predicate NoNewTokens(s: State, t: State) {
    && t.log == s.log && t.issued == s.issued && t.generation == s.generation && Current(t) == Current(s)
    && (forall id :: id in t.tasks ==> Carried(s, id, t.tasks[id]))
    && (s.lock.Some? && s.lock.value in s.tasks && s.tasks[s.lock.value].Received? ==>
          t.lock == s.lock && s.lock.value in t.tasks && t.tasks[s.lock.value].Received?)
  }

  lemma NoNewTokensIsSound(s: State, t: State)
    requires TokensSound(s) && Exclusive(t) && NoNewTokens(s, t)
    ensures TokensSound(t)
  {
    hide Exclusive, Critical, NeverReoffered;
    assert Current(t) == Current(s);
  }

  lemma SavingTasks(s: State, step: Step, id: TaskId)
    requires Routine(step) && Rotates(step) && Enabled(s, step) && id in Next(s, step).tasks
    ensures Carried(s, id, Next(s, step).tasks[id])
  {
    hide WriteFile;
    match step {
      case EndSave(i, write, _) => WritingLeavesMemory(Release(s, i), s.tasks[i].copy, write);
      case RetryEnd(i, write) => WritingLeavesMemory(s.(lock := None), s.tasks[i].copy, write);
      case _ =>
    }
  }

  lemma RequestTasks(s: State, step: Step, id: TaskId)
    requires Routine(step) && !Rotates(step) && Enabled(s, step) && id in Next(s, step).tasks
    ensures Carried(s, id, Next(s, step).tasks[id])
  {
    hide WriteFile, NeedsRefresh, RecentFailure;
  }

  lemma RoutineTasks(s: State, step: Step, id: TaskId)
    requires Routine(step) && Enabled(s, step) && id in Next(s, step).tasks
    ensures Carried(s, id, Next(s, step).tasks[id])
  {
    hide Routine, Rotates, Enabled, Next, Carried;
    if Rotates(step) {
      SavingTasks(s, step, id);
    } else {
      RequestTasks(s, step, id);
    }
  }

  lemma RoutineLeavesMemory(s: State, step: Step)
    requires Routine(step) && Enabled(s, step)
    ensures var t := Next(s, step);
            t.log == s.log && t.issued == s.issued && t.generation == s.generation && Current(t) == Current(s)
  {
    hide WriteFile;
    match step {
      case EndSave(id, write, _) => WritingLeavesMemory(Release(s, id), s.tasks[id].copy, write);
      case RetryEnd(id, write) => WritingLeavesMemory(s.(lock := None), s.tasks[id].copy, write);
      case _ =>
    }
  }

  lemma WritingLeavesMemory(s: State, copy: Credentials, write: Write)
    ensures var t := WriteFile(s, copy, write);
            t == s.(disk := t.disk, pending := t.pending)
  {
  }

  /** While an answer awaits installation no routine step touches its task or takes the lock. */
  lemma ReceivedWaits(s: State, step: Step)
    requires Exclusive(s) && Routine(step) && Enabled(s, step)
    requires s.lock.Some? && s.tasks[s.lock.value].Received?
    ensures var t := Next(s, step);
            t.lock == s.lock && s.lock.value in t.tasks && t.tasks[s.lock.value] == s.tasks[s.lock.value]
  {
  }

  lemma RoutineKeepsTokens(s: State, step: Step)
    requires TokensSound(s) && Routine(step) && Enabled(s, step)
    ensures TokensSound(Next(s, step))
  {
    var t := Next(s, step);
    StepKeepsExclusive(s, step);
    RoutineLeavesMemory(s, step);
    if s.lock.Some? && s.tasks[s.lock.value].Received? {
      ReceivedWaits(s, step);
    }
    hide Next, Exclusive, Enabled, Coming, Carried, Routine;
    forall id | id in t.tasks
      ensures Carried(s, id, t.tasks[id])
    {
      RoutineTasks(s, step, id);
    }
    NoNewTokensIsSound(s, t);
  }

  lemma OfferKeepsLog(log: seq<Exchange>, token: Token)
    requires NeverReoffered(log) && Spent(token) !in log
    ensures NeverReoffered(log + [Offered(token)])
  {
  }

  /** The caller hands the lock to a new rotation that offers the current token. */
  lemma OfferKeepsTokens(s: State, t: State, id: TaskId, rotator: TaskId, token: Token)
    requires TokensSound(s) && Exclusive(t) && s.lock == Some(id) && s.tasks[id].Checking? && Current(s) == Some(token)
    requires t == At(At(s, id, Joined), rotator, Requesting(token, s.generation))
                    .(lock := Some(rotator), log := s.log + [Offered(token)])
    requires rotator !in s.tasks
    ensures TokensSound(t)
  {
    OfferKeepsLog(s.log, token);
    assert Spent(token) !in t.log;
    assert forall x :: x in t.tasks && x != id && x != rotator ==> x in s.tasks && t.tasks[x] == s.tasks[x];
    hide Exclusive, NeverReoffered, Critical;
  }

  lemma CheckKeepsTokens(s: State, step: Step)
    requires TokensSound(s) && step.Check? && Enabled(s, step)
    ensures TokensSound(Next(s, step))
  {
    StepKeepsExclusive(s, step);
    var t := Next(s, step);
    hide NeverReoffered, NeedsRefresh, RecentFailure, RotationSound, ComingSound;
    if t.log == s.log {
      NoNewTokensIsSound(s, t);
    } else {
      OfferKeepsTokens(s, t, step.id, step.rotator, Current(s).value);
    }
  }

  lemma SpendKeepsLog(log: seq<Exchange>, token: Token)
    requires NeverReoffered(log)
    ensures NeverReoffered(log + [Spent(token)])
  {
  }

  lemma GrantKeepsTokens(s: State, step: Step)
    requires TokensSound(s) && step.Respond? && step.reply.Granted? && Enabled(s, step)
    ensures TokensSound(Next(s, step))
  {
    StepKeepsExclusive(s, step);
    SpendKeepsLog(s.log, s.tasks[step.id].token);
    assert s.lock == Some(step.id) && Current(s) == Some(s.tasks[step.id].token);
    assert step.reply.next !in s.issued;
    hide Exclusive, NeverReoffered, Critical;
  }

  lemma RespondKeepsTokens(s: State, step: Step)
    requires TokensSound(s) && step.Respond? && Enabled(s, step)
    ensures TokensSound(Next(s, step))
  {
    if step.reply.Denied? {
      StepKeepsExclusive(s, step);
      assert s.lock == Some(step.id) && s.tasks[step.id].Requesting?;
      hide NeverReoffered, RotationSound, ComingSound, Exclusive;
      NoNewTokensIsSound(s, Next(s, step));
    } else {
      GrantKeepsTokens(s, step);
    }
  }

  lemma InstalledCurrent(s: State, step: Step)
    requires TokensSound(s) && step.Install? && Enabled(s, step)
    ensures CurrentSound(Next(s, step)) && Next(s, step).log == s.log && Next(s, step).issued == s.issued
    ensures Current(Next(s, step)) == Coming(s.tasks[step.id], s.generation)
    ensures Next(s, step).generation == s.generation
  {
    hide NeverReoffered, NeedsRefresh, RecentFailure, Exclusive;
  }

  lemma InstalledComing(s: State, step: Step)
    requires TokensSound(s) && step.Install? && Enabled(s, step)
    ensures ComingSound(Next(s, step))
  {
    hide NeverReoffered, NeedsRefresh, RecentFailure, Exclusive, RotationSound, CurrentSound;
    InstalledCurrent(s, step);
  }

  lemma InstalledRotations(s: State, step: Step)
    requires TokensSound(s) && step.Install? && Enabled(s, step)
    ensures RotationSound(Next(s, step))
  {
    hide NeverReoffered, NeedsRefresh, RecentFailure, ComingSound, CurrentSound;
  }

  lemma InstallKeepsTokens(s: State, step: Step)
    requires TokensSound(s) && step.Install? && Enabled(s, step)
    ensures TokensSound(Next(s, step))
  {
    hide NeverReoffered, Exclusive, RotationSound, ComingSound, CurrentSound, Next, Enabled;
    StepKeepsExclusive(s, step);
    InstalledCurrent(s, step);
    InstalledComing(s, step);
    InstalledRotations(s, step);
  }

  /** A token that is neither spent, nor in memory, nor on its way there. */
  ghost predicate Unused(s: State, token: Token) {
    && Spent(token) !in s.log
    && Current(s) != Some(token)
    && (forall id :: id in s.tasks ==> Coming(s.tasks[id], s.generation) != Some(token))
  }

  lemma UnknownIsUnused(s: State, token: Token)
    requires TokensSound(s) && token !in s.issued
    ensures Unused(s, token)
  {
    hide NeverReoffered, Exclusive, Coming, RotationSound;
  }

  lemma ArrivalIsSound(s: State, id: TaskId, task: Task, token: Token)
    requires TokensSound(s) && id !in s.tasks && Unused(s, token)
    requires (task.Enrolling? || task.Importing?) && task.credentials.refresh == token
    ensures TokensSound(At(s, id, task).(issued := s.issued + {token}))
  {
    var t := At(s, id, task).(issued := s.issued + {token});
    assert Exclusive(t) by {
      hide NeverReoffered, ComingSound, RotationSound, CurrentSound;
    }
    assert Coming(task, s.generation) == Some(token);
    hide NeverReoffered, Exclusive, Critical, Coming;
    assert ComingSound(t);
    assert RotationSound(t);
  }

  lemma EnrollKeepsTokens(s: State, id: TaskId, credentials: Credentials, lifetime: nat)
    requires TokensSound(s) && Enabled(s, Enroll(id, credentials, lifetime))
    ensures TokensSound(Next(s, Enroll(id, credentials, lifetime)))
  {
    var task := Enrolling(credentials, s.clock + lifetime);
    assert id !in s.tasks && credentials.refresh !in s.issued;
    assert Next(s, Enroll(id, credentials, lifetime)) == At(s, id, task).(issued := s.issued + {credentials.refresh});
    hide *;
    UnknownIsUnused(s, credentials.refresh);
    ArrivalIsSound(s, id, task, credentials.refresh);
  }

  lemma ImportKeepsTokens(s: State, id: TaskId, credentials: Credentials)
    requires TokensSound(s) && Enabled(s, Import(id, credentials)) && Unused(s, credentials.refresh)
    ensures TokensSound(Next(s, Import(id, credentials)))
  {
    hide TokensSound, Unused;
    ArrivalIsSound(s, id, Importing(credentials), credentials.refresh);
  }

  /** The token a task brings can only lapse as the generation grows. */
  lemma ComingLapses(task: Task, before: nat, after: nat)
    requires before <= after
    requires task.ImportTrying? ==> task.importGeneration <= before
    requires task.ImportRestoring? ==> task.importGeneration <= before
    ensures Coming(task, after).None? || Coming(task, after) == Coming(task, before)
  {
  }

  /** Task `id` replaces the session by the one whose token it brought, or by none. */
  ghost predicate Replaced(s: State, t: State, id: TaskId) {
    && id in s.tasks && s.lock == Some(id) && !s.tasks[id].Received? && !s.tasks[id].Requesting?
    && t.log == s.log && t.issued == s.issued && s.generation <= t.generation
    && (forall x :: x in t.tasks && x != id ==> x in s.tasks && t.tasks[x] == s.tasks[x])
    && (Current(t).Some? ==> Current(t) == Coming(s.tasks[id], s.generation))
    && (id in t.tasks ==>
          && t.tasks[id].ImportTrying? && t.tasks[id].importGeneration <= t.generation
          && (Coming(t.tasks[id], t.generation).None? || Coming(t.tasks[id], t.generation) == Current(s)))
  }

  lemma ReplacedTask(s: State, t: State, id: TaskId, x: TaskId)
    requires RotationSound(s) && Replaced(s, t, id) && x in t.tasks && x != id
    ensures x in s.tasks && t.tasks[x] == s.tasks[x]
    ensures Coming(t.tasks[x], t.generation).None?
            || Coming(t.tasks[x], t.generation) == Coming(s.tasks[x], s.generation)
  {
    ComingLapses(s.tasks[x], s.generation, t.generation);
  }

  lemma ReplacementIsSound(s: State, t: State, id: TaskId)
    requires TokensSound(s) && Exclusive(t) && Replaced(s, t, id)
    ensures TokensSound(t)
  {
    assert forall x :: x in s.tasks ==> !s.tasks[x].Received? && !s.tasks[x].Requesting?;
    forall x | x in t.tasks && x != id
      ensures x in s.tasks && t.tasks[x] == s.tasks[x]
      ensures Coming(t.tasks[x], t.generation).None?
              || Coming(t.tasks[x], t.generation) == Coming(s.tasks[x], s.generation)
    {
      ReplacedTask(s, t, id, x);
    }
    hide NeverReoffered, Exclusive, Critical, Coming, ComingSound;
    assert RotationSound(t);
    assert CurrentSound(t) by {
      ReplacedCurrent(s, t, id);
    }
    ReplacedComing(s, t, id);
  }

  lemma ReplacedCurrent(s: State, t: State, id: TaskId)
    requires ComingSound(s) && Replaced(s, t, id)
    ensures Current(t).Some? ==> Current(t).value in t.issued && Spent(Current(t).value) !in t.log
  {
    hide Coming;
  }

  lemma ReplacedComing(s: State, t: State, id: TaskId)
    requires ComingSound(s) && CurrentSound(s) && Replaced(s, t, id)
    requires forall x :: x in s.tasks ==> !s.tasks[x].Received?
    requires forall x :: x in t.tasks && x != id ==>
               && x in s.tasks && t.tasks[x] == s.tasks[x]
               && (Coming(t.tasks[x], t.generation).None?
                   || Coming(t.tasks[x], t.generation) == Coming(s.tasks[x], s.generation))
    ensures ComingSound(t)
  {
    hide Coming;
  }

  lemma RestoringKeepsTokens(s: State, step: Step)
    requires TokensSound(s) && step.ImportRestore? && Enabled(s, step)
    ensures TokensSound(Next(s, step))
  {
    StepKeepsExclusive(s, step);
    var t := Next(s, step);
    assert s.lock == Some(step.id);
    hide NeverReoffered, ComingSound, RotationSound, CurrentSound, Exclusive;
    if s.generation != s.tasks[step.id].importGeneration {
      NoNewTokensIsSound(s, t);
    } else {
      ReplacementIsSound(s, t, step.id);
    }
  }

  lemma ReplacingKeepsTokens(s: State, step: Step)
    requires TokensSound(s) && (step.EnrollReplace? || step.ImportOpen?) && Enabled(s, step)
    ensures TokensSound(Next(s, step))
  {
    StepKeepsExclusive(s, step);
    assert s.lock == Some(step.id);
    hide NeverReoffered, ComingSound, RotationSound, CurrentSound, Exclusive;
    ReplacementIsSound(s, Next(s, step), step.id);
  }

  /** An import that brings a refresh token this client has spent or still relies on. */
  ghost predicate StaleImport(s: State, step: Step) {
    step.Import? && !Unused(s, step.credentials.refresh)
  }

  lemma StepKeepsTokens(s: State, step: Step)
    requires TokensSound(s) && !StaleImport(s, step)
    ensures TokensSound(Act(s, step))
  {
    if Enabled(s, step) {
      hide TokensSound, Next, Enabled, Unused;
      match step {
        case Check(_, _) => CheckKeepsTokens(s, step);
        case Respond(_, _) => RespondKeepsTokens(s, step);
        case Install(_) => InstallKeepsTokens(s, step);
        case Enroll(id, credentials, lifetime) => EnrollKeepsTokens(s, id, credentials, lifetime);
        case Import(id, credentials) => ImportKeepsTokens(s, id, credentials);
        case EnrollReplace(_) => ReplacingKeepsTokens(s, step);
        case ImportOpen(_) => ReplacingKeepsTokens(s, step);
        case ImportRestore(_) => RestoringKeepsTokens(s, step);
        case _ => RoutineKeepsTokens(s, step);
      }
    }
  }

  ghost predicate NoStaleImport(s: State, steps: seq<Step>)
    decreases |steps|
  {
    steps == [] || (!StaleImport(s, steps[0]) && NoStaleImport(Act(s, steps[0]), steps[1..]))
  }

  lemma {:induction false} RunKeepsTokens(s: State, steps: seq<Step>)
    requires TokensSound(s) && NoStaleImport(s, steps)
    ensures TokensSound(Run(s, steps))
    decreases |steps|
  {
    hide TokensSound, Act, StaleImport;
    if steps != [] {
      StepKeepsTokens(s, steps[0]);
      RunKeepsTokens(Act(s, steps[0]), steps[1..]);
    }
  }

  /**
   * Whatever is cancelled and however enrolments, imports and rotations interleave, a refresh token for which the
   * client received a successor is never offered again, and whenever the lock is free memory holds no such token.
   */
  lemma SpentTokensAreNeverOffered(s: State, steps: seq<Step>)
    requires Initial(s) && NoStaleImport(s, steps)
    ensures var t := Run(s, steps);
            && NeverReoffered(t.log)
            && (t.lock.None? && t.session.Some? ==> Spent(t.session.value.credentials.refresh) !in t.log)
  {
    InitialTokens(s);
    RunKeepsTokens(s, steps);
  }

  // ---------- imports are the exception

  lemma {:induction false} RunAppend(s: State, steps: seq<Step>, more: seq<Step>)
    ensures Run(s, steps + more) == Run(Run(s, steps), more)
    decreases |steps|
  {
    hide Act;
    if steps == [] {
      assert steps + more == more;
    } else {
      assert (steps + more)[0] == steps[0] && (steps + more)[1..] == steps[1..] + more;
      RunAppend(Act(s, steps[0]), steps[1..], more);
    }
  }

  lemma RunOne(s: State, step: Step)
    ensures Run(s, [step]) == Act(s, step)
  {
    hide Act;
    assert [step][1..] == [];
    assert Run(s, [step]) == Run(Act(s, step), []);
  }

  lemma RunTwo(s: State, a: Step, b: Step)
    ensures Run(s, [a, b]) == Act(Act(s, a), b)
  {
    hide Act;
    assert [a, b][1..] == [b] && [b][1..] == [];
    assert Run(Act(s, a), [b]) == Run(Act(Act(s, a), b), []);
  }

  lemma RunThree(s: State, a: Step, b: Step, c: Step)
    ensures Run(s, [a, b, c]) == Act(Act(Act(s, a), b), c)
  {
    hide Act;
    RunTwo(s, a, b);
    RunAppend(s, [a, b], [c]);
    assert [a, b] + [c] == [a, b, c] && [c][1..] == [];
    assert Run(Act(Act(s, a), b), [c]) == Run(Act(Act(Act(s, a), b), c), []);
  }

  /** An import takes the lock, puts its credentials into memory and gives the lock back before they are tried. */
  function ImportSteps(importer: TaskId, credentials: Credentials): seq<Step> {
    [Import(importer, credentials), Acquire(importer), ImportOpen(importer)]
  }

  lemma ImportTakesLock(s: State, importer: TaskId, credentials: Credentials)
    requires s.lock.None? && importer !in s.tasks
    ensures Act(Act(s, Import(importer, credentials)), Acquire(importer))
            == At(s, importer, ImportOpening(credentials))
               .(lock := Some(importer), issued := s.issued + {credentials.refresh})
  {
    var waiting := s.tasks[importer := Importing(credentials)];
    assert waiting[importer := ImportOpening(credentials)] == s.tasks[importer := ImportOpening(credentials)];
  }

  lemma OpeningRuns(s: State, id: TaskId)
    requires id in s.tasks && s.tasks[id].ImportOpening?
    ensures Act(s, ImportOpen(id))
            == At(s, id, ImportTrying(s.generation + 1, s.session))
               .(session := Some(Session(s.tasks[id].credentials, None)), generation := s.generation + 1,
                 failure := None, lock := None)
  {
  }

  lemma ImportOpens(s: State, importer: TaskId, credentials: Credentials)
    requires s.lock.None? && importer !in s.tasks
    ensures Run(s, ImportSteps(importer, credentials))
            == s.(session := Some(Session(credentials, None)), generation := s.generation + 1, failure := None,
                  issued := s.issued + {credentials.refresh},
                  tasks := s.tasks[importer := ImportTrying(s.generation + 1, s.session)])
  {
    hide Act;
    RunThree(s, Import(importer, credentials), Acquire(importer), ImportOpen(importer));
    ImportTakesLock(s, importer, credentials);
    var held := Act(Act(s, Import(importer, credentials)), Acquire(importer));
    OpeningRuns(held, importer);
    var trying := ImportTrying(s.generation + 1, s.session);
    assert held.tasks[importer := trying] == s.tasks[importer := trying];
  }

  /** A caller finds the access token missing and sends its rotation off. */
  function RequestSteps(caller: TaskId, rotator: TaskId): seq<Step> {
    [Call(caller), Acquire(caller), Check(caller, rotator)]
  }

  predicate WouldRequest(s: State) {
    && s.lock.None? && s.session.Some? && NeedsRefresh(s.session.value, s.clock)
    && !RecentFailure(s.failure, s.generation, s.clock)
  }

  lemma CallerOffers(s: State, caller: TaskId, rotator: TaskId)
    requires WouldRequest(s) && caller !in s.tasks && rotator !in s.tasks && caller != rotator
    ensures var token := s.session.value.credentials.refresh;
            Run(s, RequestSteps(caller, rotator))
            == s.(tasks := s.tasks[caller := Joined][rotator := Requesting(token, s.generation)],
                  lock := Some(rotator), log := s.log + [Offered(token)])
  {
    RunThree(s, Call(caller), Acquire(caller), Check(caller, rotator));
    hide NeedsRefresh, RecentFailure;
    assert s.tasks[caller := Waiting][caller := Checking][caller := Joined] == s.tasks[caller := Joined];
  }

  /** A rotation from the caller to the end of its save. */
  function RotationSteps(caller: TaskId, rotator: TaskId, reply: Reply, write: Write, retry: TaskId): seq<Step> {
    RequestSteps(caller, rotator) + [Respond(rotator, reply)]
    + if reply.Granted? then [Install(rotator), BeginSave(rotator), EndSave(rotator, write, retry)] else []
  }

  lemma DeniedRotation(s: State, caller: TaskId, rotator: TaskId, rejected: bool, write: Write, retry: TaskId)
    requires WouldRequest(s) && caller !in s.tasks && rotator !in s.tasks && caller != rotator
    ensures Run(s, RotationSteps(caller, rotator, Denied(rejected), write, retry))
            == s.(tasks := s.tasks[caller := Joined], log := s.log + [Offered(s.session.value.credentials.refresh)],
                  failure := Some(Failure(s.generation, s.clock, rejected)))
  {
    var sent := Run(s, RequestSteps(caller, rotator));
    CallerOffers(s, caller, rotator);
    RunAppend(s, RequestSteps(caller, rotator), [Respond(rotator, Denied(rejected))]);
    assert RotationSteps(caller, rotator, Denied(rejected), write, retry)
        == RequestSteps(caller, rotator) + [Respond(rotator, Denied(rejected))];
    assert [Respond(rotator, Denied(rejected))][1..] == [];
    hide WouldRequest, RequestSteps;
    assert sent.tasks - {rotator} == s.tasks[caller := Joined];
    assert Run(sent, [Respond(rotator, Denied(rejected))]) == Act(sent, Respond(rotator, Denied(rejected)));
  }

  lemma GrantedRotation(s: State, caller: TaskId, rotator: TaskId, next: Token, lifetime: nat, write: Write,
                        retry: TaskId)
    requires WouldRequest(s) && caller !in s.tasks && rotator !in s.tasks && caller != rotator
    requires next !in s.issued && retry !in s.tasks && retry != caller && retry != rotator
    ensures var credentials := s.session.value.credentials;
            var token := credentials.refresh;
            var renewed := credentials.(refresh := next);
            var retries := !write.Written? && !s.retrying;
            Run(s, RotationSteps(caller, rotator, Granted(next, lifetime), write, retry))
            == s.(session := Some(Session(renewed, Some(Access(next, s.clock + lifetime)))), failure := None,
                  disk := if write.Refused? then s.disk else Some(renewed), pending := !write.Written?,
                  retrying := s.retrying || retries,
                  tasks := if retries then s.tasks[caller := Joined][retry := RetrySleeping]
                           else s.tasks[caller := Joined],
                  log := s.log + [Offered(token), Spent(token)], issued := s.issued + {next})
  {
    var token := s.session.value.credentials.refresh;
    var reply := Respond(rotator, Granted(next, lifetime));
    var sent := Run(s, RequestSteps(caller, rotator));
    CallerOffers(s, caller, rotator);
    RunAppend(s, RequestSteps(caller, rotator), [reply]);
    RunAppend(s, RequestSteps(caller, rotator) + [reply],
              [Install(rotator), BeginSave(rotator), EndSave(rotator, write, retry)]);
    assert [reply][1..] == [];
    assert s.log + [Offered(token)] + [Spent(token)] == s.log + [Offered(token), Spent(token)];
    hide WouldRequest, RequestSteps;
    var answered := Act(sent, reply);
    assert Run(sent, [reply]) == answered;
    RunThree(answered, Install(rotator), BeginSave(rotator), EndSave(rotator, write, retry));
    SaveRuns(answered, rotator, write, retry);
    assert answered.tasks - {rotator} == s.tasks[caller := Joined];
  }

  lemma SaveRuns(s: State, id: TaskId, write: Write, retry: TaskId)
    requires id in s.tasks && s.tasks[id].Received? && s.session.Some? && s.tasks[id].generation == s.generation
    requires retry !in s.tasks
    ensures var t := s.tasks[id];
            var renewed := s.session.value.credentials.(refresh := t.next);
            var retries := !write.Written? && !s.retrying;
            Act(Act(Act(s, Install(id)), BeginSave(id)), EndSave(id, write, retry))
            == s.(session := Some(Session(renewed, Some(Access(t.next, t.expires)))), failure := None,
                  disk := if write.Refused? then s.disk else Some(renewed), pending := !write.Written?,
                  retrying := s.retrying || retries, lock := None,
                  tasks := if retries then (s.tasks - {id})[retry := RetrySleeping] else s.tasks - {id})
  {
    var renewed := s.session.value.credentials.(refresh := s.tasks[id].next);
    var saving := s.tasks[id := Installed][id := Saving(renewed)];
    assert saving - {id} == s.tasks - {id};
  }

  /** The condition is needed: a client that imports a spent token offers it again at its next refresh. */
  lemma StaleImportIsOffered(s: State, importer: TaskId, caller: TaskId, rotator: TaskId, credentials: Credentials)
    requires s.lock.None? && Spent(credentials.refresh) in s.log
    requires importer !in s.tasks && caller !in s.tasks && rotator !in s.tasks
    requires importer != caller && importer != rotator && caller != rotator
    ensures !NeverReoffered(Run(s, ImportSteps(importer, credentials) + RequestSteps(caller, rotator)).log)
  {
    var open := Run(s, ImportSteps(importer, credentials));
    ImportOpens(s, importer, credentials);
    CallerOffers(open, caller, rotator);
    RunAppend(s, ImportSteps(importer, credentials), RequestSteps(caller, rotator));
    Reoffered(s.log, credentials.refresh);
  }

  /** An import of the token in use is denied its first rotation, and the failure cools down. */
  lemma TriedInVain(s: State)
    requires Initial(s) && s.session.Some?
    ensures var credentials := s.session.value.credentials;
            Run(s, ImportSteps(0, credentials) + RotationSteps(1, 2, Denied(false), Written, 9) + [Tick(10)])
            == s.(session := Some(Session(credentials, None)), generation := s.generation + 1,
                  failure := Some(Failure(s.generation + 1, s.clock, false)), clock := s.clock + 10,
                  issued := s.issued + {credentials.refresh}, log := s.log + [Offered(credentials.refresh)],
                  tasks := s.tasks[0 := ImportTrying(s.generation + 1, s.session)][1 := Joined])
  {
    hide Run, ImportSteps, RotationSteps, RequestSteps;
    var credentials := s.session.value.credentials;
    var first := ImportSteps(0, credentials) + RotationSteps(1, 2, Denied(false), Written, 9);
    ImportOpens(s, 0, credentials);
    DeniedRotation(Run(s, ImportSteps(0, credentials)), 1, 2, false, Written, 9);
    RunAppend(s, ImportSteps(0, credentials), RotationSteps(1, 2, Denied(false), Written, 9));
    RunAppend(s, first, [Tick(10)]);
    RunOne(Run(s, first), Tick(10));
  }

  /**
   * Importing the token in use goes wrong as well: the importer's own refresh fails for the moment, another caller
   * spends the token, and the importer then puts it back into memory, where the next caller finds and offers it.
   */
  lemma ImportOfTokenInUseIsOffered(s: State, next: Token)
    requires Initial(s) && s.session.Some? && next !in s.issued
    ensures var credentials := s.session.value.credentials;
            !NeverReoffered(Run(s, ImportSteps(0, credentials) + RotationSteps(1, 2, Denied(false), Written, 9)
                                   + [Tick(10)] + RotationSteps(3, 4, Granted(next, 3600), Written, 9)
                                   + [Acquire(0), ImportRestore(0)] + RequestSteps(5, 6)).log)
  {
    hide Run, ImportSteps, RotationSteps, RequestSteps, NeverReoffered;
    var credentials := s.session.value.credentials;
    var token := credentials.refresh;
    var first := ImportSteps(0, credentials) + RotationSteps(1, 2, Denied(false), Written, 9);
    var second := first + [Tick(10)] + RotationSteps(3, 4, Granted(next, 3600), Written, 9);
    var third := second + [Acquire(0), ImportRestore(0)];
    TriedInVain(s);
    var s3 := Run(s, first + [Tick(10)]);
    GrantedRotation(s3, 3, 4, next, 3600, Written, 9);
    RunAppend(s, first + [Tick(10)], RotationSteps(3, 4, Granted(next, 3600), Written, 9));
    var s4 := Run(s, second);
    RunAppend(s, second, [Acquire(0), ImportRestore(0)]);
    RunTwo(s4, Acquire(0), ImportRestore(0));
    var s5 := Run(s, third);
    assert s5.session == s.session && s5.log == s4.log && s5.lock.None? && s5.failure.None?;
    CallerOffers(s5, 5, 6);
    RunAppend(s, third, RequestSteps(5, 6));
    assert s4.log == s.log + [Offered(token)] + [Offered(token), Spent(token)];
    Reoffered(s4.log, token);
  }

  lemma Reoffered(log: seq<Exchange>, token: Token)
    requires Spent(token) in log
    ensures !NeverReoffered(log + [Offered(token)])
  {
    var i :| 0 <= i < |log| && log[i] == Spent(token);
    var longer := log + [Offered(token)];
    assert longer[i].Spent? && longer[|log|] == Offered(longer[i].token);
  }
}
