/**
 * The sealed credential file against the session in memory: whenever the credential lock is free they agree, or
 * exactly one background retry is alive to write the file again. In runs without imports two kinds of steps break
 * this, and nothing else does: an enrolment torn between the file and memory, and a request dropped between its
 * rewrite of the stored identity and the end of the save. An import can break it too, because it gives the lock back
 * while memory holds credentials nobody verified.
 */
module OAuthDisk {
  import opened Wrappers
  import opened OAuthSession

  predicate Imports(t: Task) {
    t.Importing? || t.ImportOpening? || t.ImportTrying? || t.ImportRestoring?
  }

  predicate HasRetry(s: State, id: TaskId) {
    id in s.tasks && Retry(s.tasks[id])
  }

  ghost predicate OneRetry(s: State) {
    && (forall id :: HasRetry(s, id) ==> s.retrying)
    && (forall one, other :: HasRetry(s, one) && HasRetry(s, other) ==> one == other)
    && (s.retrying ==> exists id :: HasRetry(s, id))
    && (s.pending ==> s.retrying && s.session.Some?)
  }

  /** Every copy being written is the one in memory; an enrolment about to enter memory is already on disk. */
  ghost predicate CopiesSound(s: State) {
    forall id :: id in s.tasks ==>
      match s.tasks[id]
      case Saving(copy) => s.session.Some? && copy == s.session.value.credentials
      case RetrySaving(copy) => s.session.Some? && copy == s.session.value.credentials
      case PersistSaving(copy, _) => s.session.Some? && copy == s.session.value.credentials
      case EnrollReplacing(credentials, _) => s.disk == Some(credentials)
      case _ => true
  }

  predicate Persists(t: Task) {
    t.Persisting? || t.PersistSaving?
  }

  /** While a request saves, and no older write is owed, the file lacks exactly the change it made. */
  ghost predicate RewritesSound(s: State) {
    forall id :: id in s.tasks && Persists(s.tasks[id]) ==>
      s.session.Some? && (!s.pending ==> (Agrees(s) <==> !s.tasks[id].changed))
  }

  ghost predicate NoImporters(s: State) {
    forall id :: id in s.tasks ==> !Imports(s.tasks[id])
  }

  predicate Agrees(s: State) {
    s.session.Some? ==> s.disk == Some(s.session.value.credentials)
  }

  /** The owner of the lock has changed memory or the file and not yet the other. */
  predicate Writing(t: Task) {
    t.Installed? || t.Saving? || t.EnrollReplacing? || Persists(t)
  }

  ghost predicate DiskSound(s: State) {
    && Exclusive(s) && NoImporters(s) && OneRetry(s) && CopiesSound(s) && RewritesSound(s)
    && (s.pending || Agrees(s) || (s.lock.Some? && s.lock.value in s.tasks && Writing(s.tasks[s.lock.value])))
  }

  /** What the credential file owes: with the lock free it matches memory, or one retry will write it. */
  ghost predicate Settled(s: State) {
    && (!s.pending ==> Agrees(s))
    && (s.pending ==> exists id :: HasRetry(s, id) && forall other :: HasRetry(s, other) ==> other == id)
  }

  lemma DiskSoundSettles(s: State)
    requires DiskSound(s) && s.lock.None?
    ensures Settled(s)
  {
    if s.pending {
      var id :| HasRetry(s, id);
      assert forall other :: HasRetry(s, other) ==> other == id;
    }
  }

  /**
   * An enrolment that has replaced the file but never reaches memory, because its save fails late or it is dropped;
   * or a request that is dropped before its save replaces the file.
   */
  predicate Torn(s: State, step: Step) {
    && Enabled(s, step)
    && ((step.EnrollSave? && step.write.Unsynced?)
        || (step.Cancel? && (s.tasks[step.id].EnrollReplacing? || Persists(s.tasks[step.id]))))
  }

  /** This matters when memory holds a session, no retry is due, and a dropped request had changed memory. */
  predicate TornBadly(s: State, step: Step) {
    && Torn(s, step) && s.session.Some? && !s.pending
    && (Persists(s.tasks[step.id]) ==> s.tasks[step.id].changed)
  }

  predicate TouchesDisk(step: Step) {
    step.EndSave? || step.RetryCheck? || step.RetryEnd? || step.EnrollSave? || step.EnrollReplace? || step.Install?
    || step.SetIdentity? || step.CancelAfterRename?
  }

  // ---------- steps that leave file, session and flags alone

  function Memory(s: State): Option<Credentials> {
    if s.session.Some? then Some(s.session.value.credentials) else None
  }

  ghost predicate SameDisk(s: State, t: State) {
    && Memory(t) == Memory(s) && t.disk == s.disk && t.pending == s.pending && t.retrying == s.retrying
  }

  lemma OtherStepsLeaveDisk(s: State, step: Step)
    requires Enabled(s, step) && !TouchesDisk(step)
    requires !step.ImportOpen? && !step.ImportRestore?
    ensures SameDisk(s, Next(s, step))
  {
    hide NeedsRefresh, RecentFailure;
  }

  /** A task is as before, or changes between states that neither retry nor write. */
  ghost predicate Innocent(s: State, t: State, id: TaskId) {
    && (id in t.tasks ==> !Imports(t.tasks[id]))
    && HasRetry(t, id) == HasRetry(s, id)
    && (id in t.tasks && t.tasks[id].RetrySaving? ==> id in s.tasks && s.tasks[id] == t.tasks[id])
    && (id in t.tasks && t.tasks[id].EnrollReplacing? ==> id in s.tasks && s.tasks[id] == t.tasks[id])
    && (id in t.tasks && (t.tasks[id].Saving? || t.tasks[id].PersistSaving?) ==>
          (id in s.tasks && s.tasks[id] == t.tasks[id])
          || (s.session.Some? && t.tasks[id].copy == s.session.value.credentials))
    && (id in t.tasks && Persists(t.tasks[id]) ==>
          id in s.tasks && Persists(s.tasks[id]) && s.tasks[id].changed == t.tasks[id].changed)
  }

  lemma RotationsInnocent(s: State, step: Step, id: TaskId)
    requires NoImporters(s) && Enabled(s, step) && !TouchesDisk(step) && !step.Import? && Rotates(step)
    ensures Innocent(s, Next(s, step), id)
  {
    hide NeedsRefresh, RecentFailure, WriteFile;
  }

  lemma OthersInnocent(s: State, step: Step, id: TaskId)
    requires NoImporters(s) && Enabled(s, step) && !TouchesDisk(step) && !step.Import? && !Rotates(step)
    ensures Innocent(s, Next(s, step), id)
  {
    hide NeedsRefresh, RecentFailure, WriteFile;
  }

  lemma OtherTasksInnocent(s: State, step: Step, id: TaskId)
    requires NoImporters(s) && Enabled(s, step) && !TouchesDisk(step) && !step.Import?
    ensures Innocent(s, Next(s, step), id)
  {
    hide *;
    if Rotates(step) {
      RotationsInnocent(s, step, id);
    } else {
      OthersInnocent(s, step, id);
    }
  }

  lemma SameRetriesKeepOne(s: State, t: State)
    requires OneRetry(s) && t.retrying == s.retrying && (t.pending ==> s.retrying && t.session.Some?)
    requires forall id :: HasRetry(t, id) == HasRetry(s, id)
    ensures OneRetry(t)
  {
    hide HasRetry;
    if s.retrying {
      var id :| HasRetry(s, id);
      assert HasRetry(t, id);
    }
  }

  lemma RetryStarts(s: State, t: State, id: TaskId)
    requires OneRetry(s) && !s.retrying && t.retrying && t.session.Some? && HasRetry(t, id)
    requires forall x :: x != id ==> HasRetry(t, x) == HasRetry(s, x)
    ensures OneRetry(t)
  {
    hide HasRetry;
    assert forall x :: HasRetry(t, x) ==> x == id;
  }

  lemma RetryStops(s: State, t: State, id: TaskId)
    requires OneRetry(s) && HasRetry(s, id) && !t.retrying && !t.pending && !HasRetry(t, id)
    requires forall x :: x != id ==> HasRetry(t, x) == HasRetry(s, x)
    ensures OneRetry(t)
  {
    hide HasRetry;
    assert forall x :: !HasRetry(t, x);
  }

  lemma InnocenceKeepsCopies(s: State, t: State)
    requires NoImporters(s) && CopiesSound(s) && SameDisk(s, t) && (forall id :: Innocent(s, t, id))
    ensures NoImporters(t) && CopiesSound(t)
  {
    forall id | id in t.tasks
      ensures !Imports(t.tasks[id])
      ensures match t.tasks[id]
              case Saving(copy) => t.session.Some? && copy == t.session.value.credentials
              case RetrySaving(copy) => t.session.Some? && copy == t.session.value.credentials
              case PersistSaving(copy, _) => t.session.Some? && copy == t.session.value.credentials
              case EnrollReplacing(credentials, _) => t.disk == Some(credentials)
              case _ => true
    {
      assert Innocent(s, t, id);
    }
  }

  lemma InnocenceKeepsRewrites(s: State, t: State)
    requires RewritesSound(s) && SameDisk(s, t) && (forall id :: Innocent(s, t, id))
    ensures RewritesSound(t)
  {
    forall id | id in t.tasks && Persists(t.tasks[id])
      ensures t.session.Some? && (!t.pending ==> (Agrees(t) <==> !t.tasks[id].changed))
    {
      assert Innocent(s, t, id);
    }
  }

  /** A writer keeps the lock through steps that do not touch the file, unless it is dropped or has no session. */
  lemma WriterStays(s: State, step: Step)
    requires Exclusive(s) && Enabled(s, step) && !TouchesDisk(step) && !Torn(s, step) && NoImporters(s) && !step.Import?
    requires s.lock.Some? && Writing(s.tasks[s.lock.value]) && s.session.Some?
    ensures var t := Next(s, step); t.lock == s.lock && s.lock.value in t.tasks && Writing(t.tasks[s.lock.value])
  {
    hide NeedsRefresh, RecentFailure, WriteFile;
  }

  lemma InnocentRetries(s: State, t: State)
    requires forall id :: Innocent(s, t, id)
    ensures forall id :: HasRetry(t, id) == HasRetry(s, id)
  {
    forall id
      ensures HasRetry(t, id) == HasRetry(s, id)
    {
      assert Innocent(s, t, id);
    }
  }

  lemma OtherStepsKeepDisk(s: State, step: Step)
    requires DiskSound(s) && Enabled(s, step) && !TouchesDisk(step) && !step.Import? && !Torn(s, step)
    ensures DiskSound(Next(s, step))
  {
    var t := Next(s, step);
    StepKeepsExclusive(s, step);
    assert !step.ImportOpen? && !step.ImportRestore?;
    OtherStepsLeaveDisk(s, step);
    if s.lock.Some? && s.lock.value in s.tasks && Writing(s.tasks[s.lock.value]) && s.session.Some? {
      WriterStays(s, step);
    }
    assert s.pending ==> s.retrying && s.session.Some?;
    hide Next, Enabled, Innocent, OneRetry, CopiesSound, NoImporters, Exclusive, Torn, TouchesDisk, RewritesSound;
    forall id
      ensures Innocent(s, t, id)
    {
      OtherTasksInnocent(s, step, id);
    }
    InnocentRetries(s, t);
    SameRetriesKeepOne(s, t);
    InnocenceKeepsCopies(s, t);
    InnocenceKeepsRewrites(s, t);
  }

  // ---------- steps that write; the lock owner is the only writer

  lemma OwnerWrites(s: State, id: TaskId)
    requires DiskSound(s) && s.lock == Some(id)
    ensures id in s.tasks
    ensures forall x :: x in s.tasks && x != id ==>
              !s.tasks[x].Saving? && !s.tasks[x].RetrySaving? && !s.tasks[x].EnrollReplacing? && !Persists(s.tasks[x])
  {
  }

  lemma InstallKeepsDisk(s: State, step: Step)
    requires DiskSound(s) && Enabled(s, step) && step.Install?
    ensures DiskSound(Next(s, step))
  {
    var t := Next(s, step);
    StepKeepsExclusive(s, step);
    assert s.lock == Some(step.id);
    OwnerWrites(s, step.id);
    hide Exclusive;
    SameRetriesKeepOne(s, t);
  }

  lemma EndSaveKeepsDisk(s: State, step: Step)
    requires DiskSound(s) && Enabled(s, step) && step.EndSave?
    ensures DiskSound(Next(s, step))
  {
    var t := Next(s, step);
    StepKeepsExclusive(s, step);
    assert s.lock == Some(step.id);
    OwnerWrites(s, step.id);
    hide Exclusive;
    if step.write.Written? || s.retrying {
      SameRetriesKeepOne(s, t);
    } else {
      RetryStarts(s, t, step.retry);
    }
  }

  lemma RetryCheckKeepsDisk(s: State, step: Step)
    requires DiskSound(s) && Enabled(s, step) && step.RetryCheck?
    ensures DiskSound(Next(s, step))
  {
    var t := Next(s, step);
    StepKeepsExclusive(s, step);
    assert s.lock == Some(step.id) && HasRetry(s, step.id);
    OwnerWrites(s, step.id);
    hide Exclusive;
    if s.pending {
      SameRetriesKeepOne(s, t);
    } else {
      RetryStops(s, t, step.id);
    }
  }

  lemma RetryEndKeepsDisk(s: State, step: Step)
    requires DiskSound(s) && Enabled(s, step) && step.RetryEnd?
    ensures DiskSound(Next(s, step))
  {
    var t := Next(s, step);
    StepKeepsExclusive(s, step);
    assert s.lock == Some(step.id) && HasRetry(s, step.id);
    OwnerWrites(s, step.id);
    hide Exclusive;
    if step.write.Written? {
      RetryStops(s, t, step.id);
    } else {
      SameRetriesKeepOne(s, t);
    }
  }

  lemma EnrollReplaceKeepsDisk(s: State, step: Step)
    requires DiskSound(s) && Enabled(s, step) && step.EnrollReplace?
    ensures DiskSound(Next(s, step))
  {
    var t := Next(s, step);
    StepKeepsExclusive(s, step);
    assert s.lock == Some(step.id);
    OwnerWrites(s, step.id);
    hide Exclusive;
    SameRetriesKeepOne(s, t);
  }

  lemma EnrollSaveKeepsDisk(s: State, step: Step)
    requires DiskSound(s) && Enabled(s, step) && step.EnrollSave? && !TornBadly(s, step)
    ensures DiskSound(Next(s, step))
  {
    var t := Next(s, step);
    StepKeepsExclusive(s, step);
    assert s.lock == Some(step.id);
    OwnerWrites(s, step.id);
    hide Exclusive;
    SameRetriesKeepOne(s, t);
  }

  lemma SetIdentityKeepsDisk(s: State, step: Step)
    requires DiskSound(s) && Enabled(s, step) && step.SetIdentity?
    ensures DiskSound(Next(s, step))
  {
    var t := Next(s, step);
    StepKeepsExclusive(s, step);
    assert s.lock == Some(step.id);
    OwnerWrites(s, step.id);
    hide Exclusive;
    SameRetriesKeepOne(s, t);
  }

  lemma LateCancelKeepsDisk(s: State, step: Step)
    requires DiskSound(s) && Enabled(s, step) && step.CancelAfterRename?
    ensures DiskSound(Next(s, step))
  {
    var t := Next(s, step);
    StepKeepsExclusive(s, step);
    assert s.lock == Some(step.id);
    OwnerWrites(s, step.id);
    hide Exclusive;
    SameRetriesKeepOne(s, t);
  }

  lemma TornMildlyKeepsDisk(s: State, step: Step)
    requires DiskSound(s) && Torn(s, step) && step.Cancel? && !TornBadly(s, step)
    ensures DiskSound(Next(s, step))
  {
    var t := Next(s, step);
    StepKeepsExclusive(s, step);
    assert s.lock == Some(step.id);
    OwnerWrites(s, step.id);
    hide Exclusive;
    SameRetriesKeepOne(s, t);
  }

  lemma TornBadlyBreaksDisk(s: State, step: Step)
    requires DiskSound(s) && TokensSound(s) && TornBadly(s, step)
    ensures !DiskSound(Next(s, step)) && Next(s, step).lock.None?
  {
    assert s.lock == Some(step.id);
  }

  /** Without imports, these steps break the agreement, and they always do. */
  lemma StepKeepsDiskIff(s: State, step: Step)
    requires DiskSound(s) && TokensSound(s) && !step.Import?
    ensures DiskSound(Act(s, step)) <==> !TornBadly(s, step)
  {
    if TornBadly(s, step) {
      TornBadlyBreaksDisk(s, step);
    } else if Enabled(s, step) {
      hide DiskSound, TokensSound, Next, Enabled, TornBadly;
      match step {
        case Install(_) => InstallKeepsDisk(s, step);
        case EndSave(_, _, _) => EndSaveKeepsDisk(s, step);
        case RetryCheck(_) => RetryCheckKeepsDisk(s, step);
        case RetryEnd(_, _) => RetryEndKeepsDisk(s, step);
        case EnrollSave(_, _) => EnrollSaveKeepsDisk(s, step);
        case EnrollReplace(_) => EnrollReplaceKeepsDisk(s, step);
        case SetIdentity(_) => SetIdentityKeepsDisk(s, step);
        case CancelAfterRename(_) => LateCancelKeepsDisk(s, step);
        case _ =>
          if Torn(s, step) {
            TornMildlyKeepsDisk(s, step);
          } else {
            OtherStepsKeepDisk(s, step);
          }
      }
    }
  }

  predicate NeverTornBadly(s: State, steps: seq<Step>)
    decreases |steps|
  {
    steps == [] || (!TornBadly(s, steps[0]) && NeverTornBadly(Act(s, steps[0]), steps[1..]))
  }

  lemma {:induction false} RunKeepsDisk(s: State, steps: seq<Step>)
    requires DiskSound(s) && TokensSound(s) && NeverTornBadly(s, steps)
    requires forall step :: step in steps ==> !step.Import?
    ensures DiskSound(Run(s, steps))
    decreases |steps|
  {
    hide DiskSound, TokensSound, Act, TornBadly;
    if steps != [] {
      assert steps[0] in steps;
      StepKeepsDiskIff(s, steps[0]);
      StepKeepsTokens(s, steps[0]);
      RunKeepsDisk(Act(s, steps[0]), steps[1..]);
    }
  }

  lemma InitialDisk(s: State)
    requires Initial(s)
    ensures DiskSound(s)
  {
  }

  /**
   * In every run without imports, torn enrolments and dropped rewrites, whenever the credential lock is free, the
   * file equals memory unless the pending flag is up, and then exactly one retry task is alive: no failed write is
   * forgotten.
   */
  lemma FileAgreesOrRetryIsAlive(s: State, steps: seq<Step>)
    requires Initial(s) && NeverTornBadly(s, steps)
    requires forall step :: step in steps ==> !step.Import?
    ensures var t := Run(s, steps); t.lock.None? ==> Settled(t)
  {
    InitialDisk(s);
    InitialTokens(s);
    RunKeepsDisk(s, steps);
    var t := Run(s, steps);
    if t.lock.None? {
      DiskSoundSettles(t);
    }
  }

  // ---------- imports

  function RetrySteps(retry: TaskId): seq<Step> {
    [Acquire(retry), RetryCheck(retry), RetryEnd(retry, Written)]
  }

  lemma RetrySaves(s: State, retry: TaskId)
    requires s.lock.None? && retry in s.tasks && s.tasks[retry].RetrySleeping? && s.pending && s.session.Some?
    ensures Run(s, RetrySteps(retry))
            == s.(disk := Some(s.session.value.credentials), pending := false, retrying := false,
                  tasks := s.tasks - {retry})
  {
    RunThree(s, Acquire(retry), RetryCheck(retry), RetryEnd(retry, Written));
    var saving := s.tasks[retry := RetryChecking][retry := RetrySaving(s.session.value.credentials)];
    assert saving - {retry} == s.tasks - {retry};
  }

  lemma ImportBacksOut(s: State, importer: TaskId)
    requires s.lock.None? && importer in s.tasks && s.tasks[importer].ImportTrying?
    requires s.tasks[importer].importGeneration == s.generation && s.tasks[importer].previous.Some?
    ensures var t := Run(s, [Acquire(importer), ImportRestore(importer)]);
            t.lock.None? && t.session == s.tasks[importer].previous && t.disk == s.disk && t.pending == s.pending
  {
    RunTwo(s, Acquire(importer), ImportRestore(importer));
  }

  /**
   * From start-up: a rotation's save is refused, so a retry is due. It fires while an import waits for the provider,
   * writes the unverified credentials and clears the flag; when the provider then refuses the import, memory goes
   * back and the file keeps the refused credentials.
   */
  lemma RefusedImportLosesTheFile(s: State, next: Token, credentials: Credentials)
    requires Initial(s) && s.session.Some? && next !in s.issued && credentials.refresh != next
    ensures var t := Run(s, RotationSteps(1, 2, Granted(next, 3600), Refused, 3) + ImportSteps(4, credentials)
                            + RetrySteps(3) + [Acquire(4), ImportRestore(4)]);
            && t.lock.None? && t.session.Some? && t.session.value.credentials.refresh == next
            && t.disk == Some(credentials) && !t.pending && !Settled(t)
  {
    hide Run, RotationSteps, ImportSteps, RetrySteps;
    var rotation := RotationSteps(1, 2, Granted(next, 3600), Refused, 3);
    GrantedRotation(s, 1, 2, next, 3600, Refused, 3);
    var s1 := Run(s, rotation);
    ImportOpens(s1, 4, credentials);
    RunAppend(s, rotation, ImportSteps(4, credentials));
    var s2 := Run(s, rotation + ImportSteps(4, credentials));
    RetrySaves(s2, 3);
    RunAppend(s, rotation + ImportSteps(4, credentials), RetrySteps(3));
    var s3 := Run(s, rotation + ImportSteps(4, credentials) + RetrySteps(3));
    ImportBacksOut(s3, 4);
    RunAppend(s, rotation + ImportSteps(4, credentials) + RetrySteps(3), [Acquire(4), ImportRestore(4)]);
  }

  /**
   * From start-up: a request learns that the stored identity is another one, rewrites it in memory and is dropped
   * before the save replaces the file. The lock is free, no flag is up, and no retry will ever write the file.
   */
  lemma DroppedIdentityLosesTheFile(s: State, identity: nat)
    requires Initial(s) && s.session.Some? && identity != s.session.value.credentials.identity
    ensures var t := Run(s, [Identify(0, identity), Acquire(0)] + [SetIdentity(0), BeginSave(0), Cancel(0)]);
            && t.lock.None? && t.tasks == map[] && !t.pending && !t.retrying && t.disk == s.disk
            && t.session.Some? && t.session.value.credentials.identity == identity && !Settled(t)
  {
    hide Run;
    var held := At(s, 0, IdentifyHolding(identity)).(lock := Some(0));
    IdentifyTakesLock(s, 0, identity);
    RunAppend(s, [Identify(0, identity), Acquire(0)], [SetIdentity(0), BeginSave(0), Cancel(0)]);
    RunThree(held, SetIdentity(0), BeginSave(0), Cancel(0));
    DroppedSave(held, 0, identity);
    assert held.tasks - {0} == map[];
  }

  lemma IdentifyTakesLock(s: State, id: TaskId, identity: nat)
    requires s.lock.None? && id !in s.tasks
    ensures Run(s, [Identify(id, identity), Acquire(id)]) == At(s, id, IdentifyHolding(identity)).(lock := Some(id))
  {
    RunTwo(s, Identify(id, identity), Acquire(id));
    var waiting := s.tasks[id := Identifying(identity)];
    assert waiting[id := IdentifyHolding(identity)] == s.tasks[id := IdentifyHolding(identity)];
  }

  lemma DroppedSave(s: State, id: TaskId, identity: nat)
    requires s.lock == Some(id) && id in s.tasks && s.tasks[id] == IdentifyHolding(identity) && s.session.Some?
    ensures var credentials := s.session.value.credentials.(identity := identity);
            Act(Act(Act(s, SetIdentity(id)), BeginSave(id)), Cancel(id))
            == s.(session := Some(s.session.value.(credentials := credentials)), lock := None, tasks := s.tasks - {id})
  {
    var credentials := s.session.value.credentials.(identity := identity);
    var changed := credentials != s.session.value.credentials;
    var saving := s.tasks[id := Persisting(changed)][id := PersistSaving(credentials, changed)];
    assert saving - {id} == s.tasks - {id};
  }

  /** The ways an import ends: dropped, backed out, or accepted with the save that follows. */
  predicate EndsImport(s: State, step: Step) {
    && Enabled(s, step)
    && (step.ImportRestore?
        || (step.Cancel? && (Imports(s.tasks[step.id]) || Persists(s.tasks[step.id])))
        || step.CancelAfterRename? || (step.EndSave? && s.tasks[step.id].PersistSaving?))
  }

  /** The file is right, or a retry is due: what each ending makes of the state before it. */
  predicate RightAfter(s: State, step: Step)
    requires EndsImport(s, step)
  {
    match step
    case ImportRestore(id) =>
      var previous := s.tasks[id].previous;
      if s.tasks[id].importGeneration != s.generation then s.pending || Agrees(s) // somebody else replaced the session
      else previous.None? || s.pending || s.disk == Some(previous.value.credentials)
    case CancelAfterRename(id) => s.pending || s.session.None? || s.tasks[id].copy == s.session.value.credentials
    case EndSave(id, write, _) =>
      !write.Written? || s.session.None? || s.tasks[id].copy == s.session.value.credentials
    case _ => s.pending || Agrees(s) // dropping the import undoes nothing
  }

  /** For every ending of an import, the file agrees with memory or a retry is due exactly on this condition. */
  lemma ImportEndsIff(s: State, step: Step)
    requires EndsImport(s, step)
    ensures var t := Next(s, step); (t.pending || Agrees(t)) <==> RightAfter(s, step)
  {
  }

  /** Backing out keeps the file right exactly when nobody wrote it since the import opened, or a retry is due. */
  lemma BackingOutAgreesIff(s: State, importer: TaskId)
    requires Enabled(s, ImportRestore(importer)) && s.tasks[importer].importGeneration == s.generation
    requires s.tasks[importer].previous.Some?
    ensures var t := Next(s, ImportRestore(importer));
            (t.pending || Agrees(t))
            <==> (s.pending || s.disk == Some(s.tasks[importer].previous.value.credentials))
  {
    ImportEndsIff(s, ImportRestore(importer));
  }

  /** From start-up: an import is dropped while it is tried. Memory keeps what it brought, the file the old session. */
  lemma DroppedImportLosesTheFile(s: State, credentials: Credentials)
    requires Initial(s) && s.session.Some? && credentials != s.session.value.credentials
    ensures var t := Run(s, ImportSteps(0, credentials) + [Cancel(0)]);
            && t.lock.None? && t.tasks == map[] && !t.pending && !t.retrying && t.disk == s.disk
            && t.session == Some(Session(credentials, None)) && !Settled(t)
  {
    hide Run, ImportSteps;
    ImportOpens(s, 0, credentials);
    RunAppend(s, ImportSteps(0, credentials), [Cancel(0)]);
    var tried := Run(s, ImportSteps(0, credentials));
    RunOne(tried, Cancel(0));
    assert tried.tasks - {0} == map[];
  }

  /** Concretely, one torn enrolment: the file changed, the sync failed, memory still holds the old session. */
  lemma TornEnrolmentLosesTheFile(s: State, id: TaskId, credentials: Credentials, lifetime: nat)
    requires DiskSound(s) && s.lock.None? && id !in s.tasks && credentials.refresh !in s.issued
    requires s.session.Some? && !s.pending && s.session.value.credentials != credentials
    ensures var t := Act(Act(Act(s, Enroll(id, credentials, lifetime)), Acquire(id)), EnrollSave(id, Unsynced));
            t.lock.None? && t.session == s.session && t.disk == Some(credentials) && !Settled(t)
  {
  }
}
