/**
 * How often the client asks for tokens: many callers share one request, no request is made while an access token is
 * good or a failure recent, and the one thing that cuts this short is Blink refusing the installed access token.
 */
module OAuthRequests {
  import opened Wrappers
  import opened OAuthSession

  function AccessOf(s: State): Option<Access> {
    if s.session.Some? then s.session.value.access else None
  }

  /** The access token in memory is the one named. */
  predicate Holds(s: State, grant: Token) {
    AccessOf(s).Some? && AccessOf(s).value.grant == grant
  }

  /** No refresh is due before `until`: the access token outlives it, or a failure is still too recent. */
  predicate HoldsOff(s: State, until: nat) {
    || s.session.None?
    || (AccessOf(s).Some? && until + REFRESH_MARGIN <= AccessOf(s).value.expires)
    || RecentFailure(s.failure, s.generation, until)
  }

  /** No rotation is between its request and the installation of the answer. */
  ghost predicate Idle(s: State) {
    forall id :: id in s.tasks ==> !s.tasks[id].Requesting? && !s.tasks[id].Received?
  }

  ghost predicate Quiet(s: State, until: nat) {
    Exclusive(s) && HoldsOff(s, until) && Idle(s)
  }

  /** Steps that put other credentials into memory. */
  predicate Swaps(step: Step) {
    step.EnrollReplace? || step.ImportOpen? || step.ImportRestore?
  }

  /** Steps that neither decide on a request nor take part in one. */
  predicate Bystands(step: Step) {
    !Swaps(step) && !step.Check? && !step.Respond? && !step.Install?
  }

  // ---------- single steps

  lemma QuietCheckReleases(s: State, id: TaskId, rotator: TaskId, until: nat)
    requires HoldsOff(s, until) && s.clock <= until && Enabled(s, Check(id, rotator))
    ensures Next(s, Check(id, rotator)) == Release(s, id)
  {
  }

  lemma BystandersLeaveMemory(s: State, step: Step)
    requires Enabled(s, step) && Bystands(step)
    ensures var t := Next(s, step);
            && t.log == s.log && t.generation == s.generation && t.failure == s.failure && s.issued <= t.issued
            && t.session.Some? == s.session.Some?
            && AccessOf(t) == if step.Invalidate? && Holds(s, step.grant) then None else AccessOf(s)
  {
    hide WriteFile, NeedsRefresh;
    match step {
      case EndSave(id, write, _) => WritingLeavesMemory(Release(s, id), s.tasks[id].copy, write);
      case RetryEnd(id, write) => WritingLeavesMemory(s.(lock := None), s.tasks[id].copy, write);
      case _ =>
    }
  }

  lemma NoRotationStarts(s: State, step: Step, id: TaskId)
    requires Enabled(s, step) && Bystands(step) && id in Next(s, step).tasks
    requires Next(s, step).tasks[id].Requesting? || Next(s, step).tasks[id].Received?
    ensures id in s.tasks && s.tasks[id] == Next(s, step).tasks[id]
  {
    if Routine(step) {
      RoutineTasks(s, step, id);
      hide Next, Enabled, Coming;
    } else {
      assert step.Enroll? || step.Import?;
      hide Enabled;
    }
  }

  lemma BystandersStayIdle(s: State, step: Step)
    requires Enabled(s, step) && Bystands(step) && Idle(s)
    ensures Idle(Next(s, step))
  {
    hide Next, Enabled, Bystands;
    var t := Next(s, step);
    forall id | id in t.tasks
      ensures !t.tasks[id].Requesting? && !t.tasks[id].Received?
    {
      if t.tasks[id].Requesting? || t.tasks[id].Received? {
        NoRotationStarts(s, step, id);
      }
    }
  }

  /** The owner of the lock in the middle of a rotation is left alone. */
  lemma RotationWaits(s: State, step: Step)
    requires Exclusive(s) && Enabled(s, step) && Bystands(step) && s.lock.Some?
    requires s.tasks[s.lock.value].Requesting? || s.tasks[s.lock.value].Received?
    ensures var t := Next(s, step);
            t.lock == s.lock && s.lock.value in t.tasks && t.tasks[s.lock.value] == s.tasks[s.lock.value]
  {
    hide WriteFile, NeedsRefresh;
  }

  // ---------- no request while nothing is due

  lemma StepStaysQuiet(s: State, step: Step, until: nat)
    requires Quiet(s, until) && !Swaps(step) && s.clock <= until
    requires step.Invalidate? && Holds(s, step.grant) ==> RecentFailure(s.failure, s.generation, until)
    ensures var t := Act(s, step);
            && Quiet(t, until) && t.log == s.log && t.failure == s.failure && t.generation == s.generation
            && (AccessOf(t) == AccessOf(s) || RecentFailure(s.failure, s.generation, until))
            && t.session.Some? == s.session.Some?
  {
    StepKeepsExclusive(s, step);
    if Enabled(s, step) {
      assert !step.Respond? && !step.Install?;
      if step.Check? {
        QuietCheckReleases(s, step.id, step.rotator, until);
        hide Next, Exclusive, Enabled, NeedsRefresh, RecentFailure;
      } else {
        BystandersLeaveMemory(s, step);
        BystandersStayIdle(s, step);
        hide Next, Exclusive, Enabled, RecentFailure, Idle;
      }
    }
  }

  lemma {:induction false} ClockNeverRunsBack(s: State, steps: seq<Step>)
    ensures s.clock <= Run(s, steps).clock
    decreases |steps|
  {
    if steps != [] {
      StepKeepsClock(s, steps[0]);
      hide Act;
      ClockNeverRunsBack(Act(s, steps[0]), steps[1..]);
    }
  }

  lemma StepKeepsClock(s: State, step: Step)
    ensures s.clock <= Act(s, step).clock
  {
  }

  /** The run refuses the access token that memory holds at its start. */
  predicate Refused(s: State, steps: seq<Step>) {
    AccessOf(s).Some? && Invalidate(AccessOf(s).value.grant) in steps
  }

  lemma {:induction false} RunStaysQuiet(s: State, steps: seq<Step>, until: nat)
    requires Quiet(s, until) && (forall step :: step in steps ==> !Swaps(step)) && Run(s, steps).clock <= until
    requires Refused(s, steps) ==> RecentFailure(s.failure, s.generation, until)
    ensures var t := Run(s, steps);
            && t.log == s.log && Quiet(t, until) && t.failure == s.failure && t.session.Some? == s.session.Some?
            && (AccessOf(t) == AccessOf(s) || RecentFailure(s.failure, s.generation, until))
    decreases |steps|
  {
    hide Quiet, Act, Swaps, RecentFailure;
    if steps != [] {
      assert steps[0] in steps && forall step :: step in steps[1..] ==> step in steps;
      ClockNeverRunsBack(s, steps);
      StepStaysQuiet(s, steps[0], until);
      RunStaysQuiet(Act(s, steps[0]), steps[1..], until);
    }
  }

  /**
   * After a rotation installs an access token, callers, waiting or new, make no token request until the margin before
   * its expiry, unless other credentials are swapped in or Blink refuses this very token; and memory keeps it.
   */
  lemma OneRequestServesAllCallers(s: State, rotator: TaskId, steps: seq<Step>)
    requires Exclusive(s) && Enabled(s, Install(rotator))
    requires s.session.Some? && s.generation == s.tasks[rotator].generation
    requires (forall step :: step in steps ==> !Swaps(step)) && Invalidate(s.tasks[rotator].next) !in steps
    ensures var installed := Access(s.tasks[rotator].next, s.tasks[rotator].expires);
            var t := Run(Act(s, Install(rotator)), steps);
            t.clock + 60 <= installed.expires ==> t.log == s.log && AccessOf(t) == Some(installed)
  {
    var t := Act(s, Install(rotator));
    if Run(t, steps).clock + REFRESH_MARGIN <= s.tasks[rotator].expires {
      StepKeepsExclusive(s, Install(rotator));
      RunStaysQuiet(t, steps, Run(t, steps).clock);
    }
  }

  /** After a refused or failed request nothing is sent for the cooldown of that failure, whatever Blink refuses. */
  lemma FailureQuietensAllCallers(s: State, rotator: TaskId, rejected: bool, steps: seq<Step>)
    requires Exclusive(s) && Enabled(s, Respond(rotator, Denied(rejected)))
    requires s.generation == s.tasks[rotator].generation
    requires forall step :: step in steps ==> !Swaps(step)
    ensures var t := Act(s, Respond(rotator, Denied(rejected)));
            Run(t, steps).clock < s.clock + (if rejected then 1800 else 10)
            ==> Run(t, steps).log == s.log
  {
    var step := Respond(rotator, Denied(rejected));
    var t := Act(s, step);
    if Run(t, steps).clock < s.clock + (if rejected then REJECTED_COOLDOWN else TRANSIENT_COOLDOWN) {
      StepKeepsExclusive(s, step);
      RunStaysQuiet(t, steps, Run(t, steps).clock);
    }
  }

  // ---------- a refused token

  /**
   * With the lock free, a new caller sends the refresh token exactly when there is a session, its access token is
   * missing or has less than 60 seconds left, and no refresh of this generation failed in the last 10 seconds, or was
   * rejected in the last 30 minutes.
   */
  lemma CallerRequestsIff(s: State, caller: TaskId, rotator: TaskId)
    requires s.lock.None? && caller !in s.tasks && rotator !in s.tasks && caller != rotator
    ensures var due := s.session.Some? && (s.session.value.access.None?
                                           || s.clock + 60 > s.session.value.access.value.expires);
            var cooling := s.failure.Some? && s.failure.value.generation == s.generation
                           && s.clock < s.failure.value.at + if s.failure.value.rejected then 1800 else 10;
            Run(s, RequestSteps(caller, rotator)).log
            == if due && !cooling then s.log + [Offered(s.session.value.credentials.refresh)] else s.log
  {
    if WouldRequest(s) {
      CallerOffers(s, caller, rotator);
    } else {
      RunThree(s, Call(caller), Acquire(caller), Check(caller, rotator));
    }
  }

  lemma {:induction false} LogOnlyGrows(s: State, steps: seq<Step>)
    ensures s.log <= Run(s, steps).log
    decreases |steps|
  {
    if steps != [] {
      StepExtendsLog(s, steps[0]);
      hide Act;
      LogOnlyGrows(Act(s, steps[0]), steps[1..]);
    }
  }

  lemma OthersExtendLog(s: State, step: Step)
    requires !(Enabled(s, step) && Bystands(step))
    ensures s.log <= Act(s, step).log
  {
    hide NeedsRefresh, RecentFailure, WriteFile;
  }

  lemma StepExtendsLog(s: State, step: Step)
    ensures s.log <= Act(s, step).log
  {
    hide NeedsRefresh, RecentFailure, WriteFile, Bystands;
    if Enabled(s, step) && Bystands(step) {
      BystandersLeaveMemory(s, step);
    } else {
      OthersExtendLog(s, step);
    }
  }

  lemma StepStaysUnasked(s: State, step: Step)
    requires Exclusive(s) && Idle(s) && !Swaps(step) && Act(s, step).log == s.log
    ensures var t := Act(s, step);
            && Exclusive(t) && Idle(t) && t.failure == s.failure && t.generation == s.generation
            && t.session.Some? == s.session.Some?
            && AccessOf(t) == if step.Invalidate? && Holds(s, step.grant) then None else AccessOf(s)
  {
    StepKeepsExclusive(s, step);
    if Enabled(s, step) {
      assert !step.Respond? && !step.Install?;
      if step.Check? {
        SilentCheckReleases(s, step.id, step.rotator);
        hide Next, Exclusive, Enabled, NeedsRefresh, RecentFailure;
      } else {
        BystandersLeaveMemory(s, step);
        BystandersStayIdle(s, step);
        hide Next, Exclusive, Enabled, Idle;
      }
    }
  }

  lemma SilentCheckReleases(s: State, id: TaskId, rotator: TaskId)
    requires Enabled(s, Check(id, rotator)) && Next(s, Check(id, rotator)).log == s.log
    ensures Next(s, Check(id, rotator)) == Release(s, id)
  {
  }

  /** As long as nothing is sent, the failure record stands, and the access token stays unless it is refused. */
  lemma {:induction false} RunStaysUnasked(s: State, steps: seq<Step>)
    requires Exclusive(s) && Idle(s) && Run(s, steps).log == s.log
    requires forall step :: step in steps ==> !Swaps(step)
    ensures var t := Run(s, steps);
            && t.failure == s.failure && t.session.Some? == s.session.Some?
            && AccessOf(t) == if Refused(s, steps) then None else AccessOf(s)
    decreases |steps|
  {
    hide Act, Exclusive, Idle, Swaps;
    if steps != [] {
      var next := Act(s, steps[0]);
      assert steps[0] in steps && forall step :: step in steps <==> step == steps[0] || step in steps[1..];
      StepExtendsLog(s, steps[0]);
      LogOnlyGrows(next, steps[1..]);
      assert next.log == s.log;
      StepStaysUnasked(s, steps[0]);
      RunStaysUnasked(next, steps[1..]);
    }
  }

  /**
   * The exact condition: while nothing has been sent since the rotation, before the margin, and with the lock free, a
   * new caller sends a request if and only if Blink has refused the token that the rotation installed.
   */
  lemma RequestAgainIff(s: State, rotator: TaskId, steps: seq<Step>, caller: TaskId, other: TaskId)
    requires Exclusive(s) && Enabled(s, Install(rotator))
    requires s.session.Some? && s.generation == s.tasks[rotator].generation
    requires forall step :: step in steps ==> !Swaps(step)
    requires var t := Run(Act(s, Install(rotator)), steps);
             && t.log == s.log && t.lock.None? && t.clock + 60 <= s.tasks[rotator].expires
             && caller !in t.tasks && other !in t.tasks && caller != other
    ensures var t := Run(Act(s, Install(rotator)), steps);
            Run(t, RequestSteps(caller, other)).log != t.log <==> Invalidate(s.tasks[rotator].next) in steps
  {
    var installed := Act(s, Install(rotator));
    StepKeepsExclusive(s, Install(rotator));
    InstallSettles(s, rotator);
    var t := Run(installed, steps);
    RunStaysUnasked(installed, steps);
    hide Act, Run, Exclusive, Idle, Enabled, RequestSteps;
    CallerRequestsIff(t, caller, other);
  }

  lemma InstallSettles(s: State, rotator: TaskId)
    requires Exclusive(s) && Enabled(s, Install(rotator))
    requires s.session.Some? && s.generation == s.tasks[rotator].generation
    ensures var t := Act(s, Install(rotator));
            && Idle(t) && t.log == s.log && t.failure.None? && t.session.Some?
            && AccessOf(t) == Some(Access(s.tasks[rotator].next, s.tasks[rotator].expires))
  {
  }

  /** From start-up: the fresh token is refused at once, and the next caller requests another one. */
  lemma RefusedTokenIsReplaced(s: State, next: Token)
    requires Initial(s) && s.session.Some? && next !in s.issued
    ensures var token := s.session.value.credentials.refresh;
            Run(s, RotationSteps(0, 1, Granted(next, 3600), Written, 9) + [Invalidate(next)] + RequestSteps(2, 3)).log
            == [Offered(token), Spent(token), Offered(next)]
  {
    hide Run, RotationSteps, RequestSteps;
    var token := s.session.value.credentials.refresh;
    var rotation := RotationSteps(0, 1, Granted(next, 3600), Written, 9);
    GrantedRotation(s, 0, 1, next, 3600, Written, 9);
    var rotated := Run(s, rotation);
    RunAppend(s, rotation, [Invalidate(next)]);
    RunOne(rotated, Invalidate(next));
    var refused := Run(s, rotation + [Invalidate(next)]);
    CallerOffers(refused, 2, 3);
    RunAppend(s, rotation + [Invalidate(next)], RequestSteps(2, 3));
  }

  /** A refusal that arrives late, of any token older than the one now in memory, never discards that one. */
  lemma LateRefusalsAreHarmless(s: State, rotator: TaskId, next: Token, lifetime: nat, steps: seq<Step>)
    requires Exclusive(s) && Enabled(s, Respond(rotator, Granted(next, lifetime)))
    requires s.session.Some? && s.generation == s.tasks[rotator].generation
    requires forall step :: step in steps ==> !Swaps(step) && (step.Invalidate? ==> step.grant in s.issued)
    ensures var installed := Act(Act(s, Respond(rotator, Granted(next, lifetime))), Install(rotator));
            var t := Run(installed, steps);
            t.clock + 60 <= s.clock + lifetime ==>
              t.log == installed.log && AccessOf(t) == Some(Access(next, s.clock + lifetime))
  {
    var answered := Act(s, Respond(rotator, Granted(next, lifetime)));
    StepKeepsExclusive(s, Respond(rotator, Granted(next, lifetime)));
    AnswerIsReceived(s, rotator, next, lifetime);
    hide Act, Exclusive, Run;
    OneRequestServesAllCallers(answered, rotator, steps);
    InstallSettles(answered, rotator);
  }

  lemma AnswerIsReceived(s: State, rotator: TaskId, next: Token, lifetime: nat)
    requires Exclusive(s) && Enabled(s, Respond(rotator, Granted(next, lifetime)))
    ensures var t := Act(s, Respond(rotator, Granted(next, lifetime)));
            && rotator in t.tasks && t.tasks[rotator] == Received(next, s.clock + lifetime, s.tasks[rotator].generation)
            && Enabled(t, Install(rotator)) && t.session == s.session && t.generation == s.generation
            && next !in s.issued
  {
  }

  // ---------- one request for any number of refusals

  /** From log `before`: nothing sent, a request under way, its answer to be installed, or nothing due until the end. */
  ghost predicate AtMostOne(s: State, before: seq<Exchange>, known: set<Token>, until: nat) {
    && Exclusive(s) && known <= s.issued
    && (Unasked(s, before) || Asking(s, before) || Answered(s, before, known, until) || Served(s, before, known, until))
  }

  ghost predicate Unasked(s: State, before: seq<Exchange>) {
    s.log == before && Idle(s)
  }

  ghost predicate Asking(s: State, before: seq<Exchange>) {
    && s.session.Some? && s.lock.Some? && s.lock.value in s.tasks && s.tasks[s.lock.value].Requesting?
    && s.tasks[s.lock.value].generation == s.generation && s.log == before + [Offered(s.tasks[s.lock.value].token)]
  }

  ghost predicate Answered(s: State, before: seq<Exchange>, known: set<Token>, until: nat) {
    && s.session.Some? && s.lock.Some? && s.lock.value in s.tasks && s.tasks[s.lock.value].Received?
    && s.tasks[s.lock.value].generation == s.generation && OneExchange(s.log, before)
    && s.tasks[s.lock.value].next !in known && until + REFRESH_MARGIN <= s.tasks[s.lock.value].expires
  }

  ghost predicate Served(s: State, before: seq<Exchange>, known: set<Token>, until: nat) {
    && Idle(s) && OneExchange(s.log, before) && HoldsOff(s, until)
    && (RecentFailure(s.failure, s.generation, until) || (AccessOf(s).Some? && AccessOf(s).value.grant !in known))
  }

  /** One request, answered or not. */
  ghost predicate OneExchange(log: seq<Exchange>, before: seq<Exchange>) {
    exists token :: log == before + [Offered(token)] || log == before + [Offered(token), Spent(token)]
  }

  /** The answer lasts: a granted token outlives `until` by the margin, or the cooldown of a refusal covers it. */
  predicate Lasting(reply: Reply, now: nat, until: int) {
    match reply
    case Granted(_, lifetime) => until + REFRESH_MARGIN <= now + lifetime
    case Denied(rejected) => until < now + if rejected then REJECTED_COOLDOWN else TRANSIENT_COOLDOWN
  }

  /** Only access tokens known at the start are refused, and answers last. */
  predicate Regular(s: State, step: Step, known: set<Token>, until: nat) {
    && !Swaps(step) && (step.Invalidate? ==> step.grant in known)
    && (step.Respond? ==> Lasting(step.reply, s.clock, until))
  }

  lemma UnaskedStep(s: State, step: Step, before: seq<Exchange>, known: set<Token>, until: nat)
    requires AtMostOne(s, before, known, until) && Unasked(s, before) && Enabled(s, step)
    requires Regular(s, step, known, until)
    ensures AtMostOne(Next(s, step), before, known, until)
  {
    StepKeepsExclusive(s, step);
    assert !step.Respond? && !step.Install?;
    if step.Check? {
      hide NeedsRefresh, RecentFailure, HoldsOff, OneExchange;
    } else {
      BystandersLeaveMemory(s, step);
      BystandersStayIdle(s, step);
      hide Next, Exclusive, Enabled, Idle;
    }
  }

  lemma AskingStep(s: State, step: Step, before: seq<Exchange>, known: set<Token>, until: nat)
    requires AtMostOne(s, before, known, until) && Asking(s, before) && Enabled(s, step)
    requires Regular(s, step, known, until)
    ensures AtMostOne(Next(s, step), before, known, until)
  {
    StepKeepsExclusive(s, step);
    assert !step.Check? && !step.Install?;
    if step.Respond? {
      assert s.lock == Some(step.id);
      AskingAnswered(s, step, before, known, until);
    } else {
      BystandersLeaveMemory(s, step);
      RotationWaits(s, step);
      hide Next, Exclusive, Enabled, Idle;
    }
  }

  lemma AskingAnswered(s: State, step: Step, before: seq<Exchange>, known: set<Token>, until: nat)
    requires AtMostOne(s, before, known, until) && Asking(s, before) && step.Respond? && Enabled(s, step)
    requires s.lock == Some(step.id) && Lasting(step.reply, s.clock, until)
    ensures var t := Next(s, step); Answered(t, before, known, until) || Served(t, before, known, until)
    ensures known <= Next(s, step).issued
  {
    var token := s.tasks[step.id].token;
    var t := Next(s, step);
    if step.reply.Granted? {
      assert t.log == before + [Offered(token), Spent(token)];
      hide Exclusive, Idle;
    } else {
      assert t.log == before + [Offered(token)];
      assert Idle(t);
    }
  }

  lemma AnsweredStep(s: State, step: Step, before: seq<Exchange>, known: set<Token>, until: nat)
    requires AtMostOne(s, before, known, until) && Answered(s, before, known, until) && Enabled(s, step)
    requires Regular(s, step, known, until)
    ensures AtMostOne(Next(s, step), before, known, until)
  {
    StepKeepsExclusive(s, step);
    assert !step.Check? && !step.Respond?;
    if step.Install? {
      assert s.lock == Some(step.id);
      InstallSettles(s, step.id);
      InstallKeepsIssued(s, step);
      hide Next, Exclusive, Enabled, Idle, OneExchange;
    } else {
      BystandersLeaveMemory(s, step);
      RotationWaits(s, step);
      hide Next, Exclusive, Enabled, Idle, OneExchange;
    }
  }

  lemma InstallKeepsIssued(s: State, step: Step)
    requires step.Install? && Enabled(s, step)
    ensures Next(s, step).issued == s.issued && Act(s, step) == Next(s, step)
  {
  }

  lemma ServedStep(s: State, step: Step, before: seq<Exchange>, known: set<Token>, until: nat)
    requires AtMostOne(s, before, known, until) && Served(s, before, known, until) && Enabled(s, step)
    requires Regular(s, step, known, until) && s.clock <= until
    ensures AtMostOne(Next(s, step), before, known, until)
  {
    StepStaysQuiet(s, step, until);
    StepKeepsIssued(s, step);
    assert Act(s, step) == Next(s, step);
    hide Next, Exclusive, Enabled, Idle, OneExchange, RecentFailure, Act;
  }

  lemma StepKeepsIssued(s: State, step: Step)
    requires Enabled(s, step)
    ensures s.issued <= Next(s, step).issued
  {
    hide NeedsRefresh, RecentFailure;
    match step {
      case EndSave(id, write, _) => WritingLeavesMemory(Release(s, id), s.tasks[id].copy, write);
      case RetryEnd(id, write) => WritingLeavesMemory(s.(lock := None), s.tasks[id].copy, write);
      case _ =>
    }
  }

  lemma StepKeepsAtMostOne(s: State, step: Step, before: seq<Exchange>, known: set<Token>, until: nat)
    requires AtMostOne(s, before, known, until) && Regular(s, step, known, until) && s.clock <= until
    ensures AtMostOne(Act(s, step), before, known, until)
  {
    hide Next, Enabled, Regular, Unasked, Asking, Answered, Served, Exclusive;
    if Enabled(s, step) {
      if Unasked(s, before) {
        UnaskedStep(s, step, before, known, until);
      } else if Asking(s, before) {
        AskingStep(s, step, before, known, until);
      } else if Answered(s, before, known, until) {
        AnsweredStep(s, step, before, known, until);
      } else {
        ServedStep(s, step, before, known, until);
      }
    }
  }

  /** `step` refuses only tokens known at the start, and its answer lasts `duration` from whenever it comes. */
  predicate Ordinary(step: Step, known: set<Token>, duration: int) {
    && !Swaps(step) && (step.Invalidate? ==> step.grant in known)
    && (step.Respond? ==> Lasting(step.reply, 0, duration))
  }

  lemma {:induction false} RunKeepsAtMostOne(s: State, steps: seq<Step>, before: seq<Exchange>, known: set<Token>,
                                             start: nat, until: nat)
    requires AtMostOne(s, before, known, until) && start <= s.clock && Run(s, steps).clock <= until
    requires forall step :: step in steps ==> Ordinary(step, known, until - start)
    ensures AtMostOne(Run(s, steps), before, known, until)
    decreases |steps|
  {
    hide AtMostOne, Act;
    if steps != [] {
      assert steps[0] in steps && forall step :: step in steps[1..] ==> step in steps;
      ClockNeverRunsBack(s, steps);
      StepKeepsClock(s, steps[0]);
      ClockNeverRunsBack(Act(s, steps[0]), steps[1..]);
      assert Regular(s, steps[0], known, until);
      StepKeepsAtMostOne(s, steps[0], before, known, until);
      RunKeepsAtMostOne(Act(s, steps[0]), steps[1..], before, known, start, until);
    }
  }

  /**
   * Any number of callers, and any number of refusals, early or late, of any access tokens known at the start: during
   * a run in which answers last, the client sends at most one token request. So however many callers are refused with
   * one token, one request replaces it for all of them.
   */
  lemma RefusalsCauseOneRequest(s: State, steps: seq<Step>)
    requires Exclusive(s) && Idle(s)
    requires forall step :: step in steps ==> Ordinary(step, s.issued, Run(s, steps).clock - s.clock)
    ensures var t := Run(s, steps); t.log == s.log || OneExchange(t.log, s.log)
  {
    ClockNeverRunsBack(s, steps);
    hide Run;
    RunKeepsAtMostOne(s, steps, s.log, s.issued, s.clock, Run(s, steps).clock);
    var t := Run(s, steps);
    if Asking(t, s.log) {
      assert t.log == s.log + [Offered(t.tasks[t.lock.value].token)];
    }
  }
}
