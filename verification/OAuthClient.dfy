/**
 * The client's methods as they run under the credential lock, each shown to have exactly the effect of its steps in
 * the state machine of `OAuthSession`.
 */
module OAuthClient {
  import opened Wrappers
  import opened OAuthSession

  // ---------- the re-authentication latch

  datatype Outcome = Refreshed | Failed(rejected: bool) | Replaced

  function Latch(outcomes: seq<Outcome>): bool
    decreases |outcomes|
  {
    if outcomes == [] then false
    else
      match outcomes[|outcomes| - 1]
      case Failed(rejected) => rejected || Latch(outcomes[..|outcomes| - 1])
      case _ => false
  }

  /** The user must sign in again exactly when a rejection has not been followed by a success or new credentials. */
  lemma {:induction false} LatchIff(outcomes: seq<Outcome>)
    ensures Latch(outcomes) <==>
            exists i :: 0 <= i < |outcomes| && outcomes[i] == Failed(true)
                        && forall j :: i < j < |outcomes| ==> outcomes[j].Failed?
    decreases |outcomes|
  {
    if outcomes != [] {
      var n := |outcomes| - 1;
      var before := outcomes[..n];
      LatchIff(before);
      if outcomes[n] == Failed(false) {
        if Latch(before) {
          var i :| 0 <= i < n && before[i] == Failed(true) && forall j :: i < j < n ==> before[j].Failed?;
          assert outcomes[i] == Failed(true) && forall j :: i < j < |outcomes| ==> outcomes[j].Failed?;
        } else {
          forall i | 0 <= i < |outcomes| && outcomes[i] == Failed(true)
            ensures exists j :: i < j < |outcomes| && !outcomes[j].Failed?
          {
            assert before[i] == Failed(true);
            var j :| i < j < n && !before[j].Failed?;
            assert !outcomes[j].Failed?;
          }
        }
      }
    }
  }

  lemma LatchAfter(outcomes: seq<Outcome>, last: Outcome)
    ensures Latch(outcomes + [last]) == (last.Failed? && (last.rejected || Latch(outcomes)))
  {
    assert (outcomes + [last])[..|outcomes|] == outcomes;
  }

  // ---------- the pending flag and the retry task

  /** The last attempt to write the credential file failed. */
  predicate Owed(saves: seq<bool>) {
    saves != [] && !saves[|saves| - 1]
  }

  datatype RetryEvent = Claimed | Ended

  predicate RetryAlive(retries: seq<RetryEvent>) {
    retries != [] && retries[|retries| - 1].Claimed?
  }

  /** No retry task is started before the last one has ended. */
  ghost predicate OneAtATime(retries: seq<RetryEvent>) {
    forall i, j :: 0 <= i < j < |retries| && retries[i].Claimed? && retries[j].Claimed? ==>
      exists k :: i < k < j && retries[k].Ended?
  }

  lemma ClaimKeepsOne(retries: seq<RetryEvent>)
    requires OneAtATime(retries) && !RetryAlive(retries)
    ensures OneAtATime(retries + [Claimed])
  {
    var after := retries + [Claimed];
    forall i, j | 0 <= i < j < |after| && after[i].Claimed? && after[j].Claimed?
      ensures exists k :: i < k < j && after[k].Ended?
    {
      if j == |retries| {
        assert after[j - 1].Ended?;
      } else {
        assert retries[i].Claimed? && retries[j].Claimed?;
        var k :| i < k < j && retries[k].Ended?;
        assert after[k].Ended?;
      }
    }
  }

  lemma EndKeepsOne(retries: seq<RetryEvent>)
    requires OneAtATime(retries)
    ensures OneAtATime(retries + [Ended])
  {
    var after := retries + [Ended];
    forall i, j | 0 <= i < j < |after| && after[i].Claimed? && after[j].Claimed?
      ensures exists k :: i < k < j && after[k].Ended?
    {
      assert retries[i].Claimed? && retries[j].Claimed?;
      var k :| i < k < j && retries[k].Ended?;
      assert after[k].Ended?;
    }
  }

  class SessionHealth {
    var failure: Option<Failure>
    var reauthRequired: bool
    var pending: bool
    var retrying: bool
    var successes: nat
    var failures: nat
    var rejections: nat
    var unsaved: nat
    ghost var outcomes: seq<Outcome>
    ghost var saves: seq<bool>
    ghost var retries: seq<RetryEvent>

    /** The flags and counters are functions of what happened. */
    ghost predicate Valid()
      reads this
    {
      && reauthRequired == Latch(outcomes)
      && successes == multiset(outcomes)[Refreshed]
      && rejections == multiset(outcomes)[Failed(true)] && failures == multiset(outcomes)[Failed(false)]
      && pending == Owed(saves) && unsaved == multiset(saves)[false]
      && retrying == RetryAlive(retries) && OneAtATime(retries)
    }

    constructor ()
      ensures Valid() && failure.None? && !pending && !retrying && outcomes == [] && saves == [] && retries == []
    {
      failure, reauthRequired, pending, retrying := None, false, false, false;
      successes, failures, rejections, unsaved := 0, 0, 0, 0;
      outcomes, saves, retries := [], [], [];
    }

    method RefreshSucceeded()
      requires Valid()
      modifies `failure, `reauthRequired, `successes, `outcomes
      ensures Valid() && failure.None? && outcomes == old(outcomes) + [Refreshed]
    {
      successes := successes + 1;
      reauthRequired := false;
      failure := None;
      outcomes := outcomes + [Refreshed];
    }

    method RefreshFailed(generation: nat, now: nat, rejected: bool)
      requires Valid()
      modifies `failure, `reauthRequired, `failures, `rejections, `outcomes
      ensures Valid() && failure == Some(Failure(generation, now, rejected))
      ensures outcomes == old(outcomes) + [Failed(rejected)]
    {
      LatchAfter(outcomes, Failed(rejected));
      hide Latch;
      if rejected {
        rejections := rejections + 1;
        reauthRequired := true;
      } else {
        failures := failures + 1;
      }
      failure := Some(Failure(generation, now, rejected));
      outcomes := outcomes + [Failed(rejected)];
    }

    method CredentialsReplaced()
      requires Valid()
      modifies `failure, `reauthRequired, `outcomes
      ensures Valid() && failure.None? && outcomes == old(outcomes) + [Replaced]
    {
      reauthRequired := false;
      failure := None;
      outcomes := outcomes + [Replaced];
    }

    /** Some(rejected) while a failure of this generation cools down. */
    method CoolingFailure(generation: nat, now: nat) returns (recent: Option<bool>)
      ensures recent.Some? <==>
                && failure.Some? && failure.value.generation == generation
                && now < failure.value.at + if failure.value.rejected then 1800 else 10
      ensures recent.Some? ==> recent.value == failure.value.rejected
    {
      if failure.None? || failure.value.generation != generation {
        return None;
      }
      var cooldown := if failure.value.rejected then REJECTED_COOLDOWN else TRANSIENT_COOLDOWN;
      recent := if now < failure.value.at + cooldown then Some(failure.value.rejected) else None;
    }

    /** A write succeeded; tells whether the file was out of date before it. */
    method Persisted() returns (wasPending: bool)
      requires Valid()
      modifies `pending, `saves
      ensures Valid() && !pending && saves == old(saves) + [true] && wasPending == Owed(old(saves))
    {
      wasPending := pending;
      pending := false;
      saves := saves + [true];
    }

    method PersistFailed()
      requires Valid()
      modifies `pending, `unsaved, `saves
      ensures Valid() && pending && saves == old(saves) + [false]
    {
      unsaved := unsaved + 1;
      pending := true;
      saves := saves + [false];
    }

    /** Claims the single retry task. */
    method StartRetry() returns (claimed: bool)
      requires Valid()
      modifies `retrying, `retries
      ensures Valid() && retrying && claimed == !RetryAlive(old(retries))
      ensures retries == if claimed then old(retries) + [Claimed] else old(retries)
    {
      claimed := !retrying;
      retrying := true;
      if claimed {
        ClaimKeepsOne(retries);
        hide OneAtATime;
        retries := retries + [Claimed];
      }
    }

    /** The retry task ends; from here on a failed write may claim a new one. */
    method StopRetry()
      requires Valid()
      modifies `retrying, `retries
      ensures Valid() && !retrying && retries == old(retries) + [Ended]
    {
      EndKeepsOne(retries);
      hide OneAtATime;
      retrying := false;
      retries := retries + [Ended];
    }
  }

  class BlinkClient {
    var session: Option<Session>
    var generation: nat
    var disk: Option<Credentials>
    const health: SessionHealth

    constructor (stored: Option<Credentials>)
      ensures health.Valid() && fresh(health) && session.None? && generation == 0 && disk == stored
    {
      session, generation, disk := None, 0, stored;
      health := new SessionHealth();
    }

    /** This object holds the memory and the file of the machine state `s`. */
    ghost predicate Represents(s: State)
      reads this, health
    {
      && health.Valid()
      && session == s.session && generation == s.generation && disk == s.disk
      && health.pending == s.pending && health.retrying == s.retrying && health.failure == s.failure
    }

    method ReplaceSession(next: Session)
      requires health.Valid()
      modifies this, health
      ensures health.Valid() && session == Some(next) && generation == old(generation) + 1 && disk == old(disk)
      ensures health.failure.None? && health.pending == old(health.pending) && health.retrying == old(health.retrying)
    {
      session := Some(next);
      generation := generation + 1;
      health.CredentialsReplaced();
    }

    method SaveCurrent(write: Write) returns (ok: bool)
      requires health.Valid()
      modifies this, health
      ensures health.Valid() && session == old(session) && generation == old(generation)
      ensures health.failure == old(health.failure) && health.retrying == old(health.retrying)
      ensures ok <==> session.None? || write.Written?
      ensures disk == if session.None? || write.Refused? then old(disk) else Some(session.value.credentials)
      ensures health.pending == if session.None? then old(health.pending) else !write.Written?
    {
      if session.None? {
        return true;
      }
      if !write.Refused? {
        disk := Some(session.value.credentials);
      }
      if write.Written? {
        var _ := health.Persisted();
        ok := true;
      } else {
        health.PersistFailed();
        ok := false;
      }
    }

    /** With a session in memory, the effect of the machine's two save steps. */
    method PersistLocked(write: Write, ghost s: State, ghost id: TaskId, ghost retry: TaskId) returns (ok: bool)
      requires Represents(s) && s.session.Some? && id in s.tasks && retry !in s.tasks
      requires s.tasks[id].Installed? || s.tasks[id].Persisting?
      modifies this, health
      ensures Represents(Act(Act(s, BeginSave(id)), EndSave(id, write, retry)))
      ensures ok <==> write.Written?
    {
      hide SessionHealth.Valid;
      ok := SaveCurrent(write);
      if !ok {
        var _ := health.StartRetry();
      }
    }

    /** The detached rotation, from the request it has sent to the end of its save. */
    method Rotate(tokenGeneration: nat, reply: Reply, write: Write, now: nat,
                  ghost s: State, ghost id: TaskId, ghost retry: TaskId)
      returns (ok: bool)
      requires Represents(s) && id in s.tasks && s.tasks[id].Requesting? && s.tasks[id].generation == tokenGeneration
      requires s.clock == now && retry !in s.tasks && (reply.Granted? ==> reply.next !in s.issued)
      modifies this, health
      ensures Represents(Act(Act(Act(Act(s, Respond(id, reply)), Install(id)), BeginSave(id)),
                             EndSave(id, write, retry)))
      ensures ok <==> reply.Granted?
    {
      hide SessionHealth.Valid;
      ghost var answered := Act(s, Respond(id, reply));
      if reply.Denied? {
        health.RefreshFailed(tokenGeneration, now, reply.rejected);
        assert id !in answered.tasks;
        return false;
      }
      if session.None? || generation != tokenGeneration {
        assert id !in Act(answered, Install(id)).tasks;
        return true;
      }
      var access := Access(reply.next, now + reply.lifetime);
      session := Some(Session(session.value.credentials.(refresh := reply.next), Some(access)));
      health.RefreshSucceeded();
      var _ := PersistLocked(write, Act(answered, Install(id)), id, retry);
      ok := true;
    }

    /** Forgets the access token that Blink just refused, unless memory holds another one by now. */
    method InvalidateAccess(refused: Token, ghost s: State)
      requires Represents(s)
      modifies this
      ensures Represents(Act(s, Invalidate(refused)))
      ensures session.Some? == old(session.Some?)
      ensures session.Some? ==> session.value.credentials == old(session.value.credentials)
    {
      if session.Some? && session.value.access.Some? && session.value.access.value.grant == refused {
        session := Some(session.value.(access := None));
      }
    }

    /** A request stores the identity it learnt, under the lock; false when there is no session any more. */
    method Identify(identity: nat, write: Write, ghost s: State, ghost id: TaskId, ghost retry: TaskId)
      returns (enrolled: bool)
      requires Represents(s) && id in s.tasks && s.tasks[id] == IdentifyHolding(identity) && retry !in s.tasks
      modifies this, health
      ensures Represents(Act(Act(Act(s, SetIdentity(id)), BeginSave(id)), EndSave(id, write, retry)))
      ensures enrolled <==> s.session.Some?
    {
      hide SessionHealth.Valid;
      ghost var identified := Act(s, SetIdentity(id));
      if session.None? {
        assert id !in identified.tasks;
        return false;
      }
      session := Some(session.value.(credentials := session.value.credentials.(identity := identity)));
      var _ := PersistLocked(write, identified, id, retry);
      enrolled := true;
    }

    /** One turn of the background retry, with the lock; `done` ends the loop. */
    method RetryOnce(write: Write, ghost s: State, ghost id: TaskId) returns (done: bool)
      requires Represents(s) && id in s.tasks && s.tasks[id].RetryChecking?
      modifies this, health
      ensures Represents(Act(Act(s, RetryCheck(id)), RetryEnd(id, write)))
      ensures done <==> id !in Act(Act(s, RetryCheck(id)), RetryEnd(id, write)).tasks
    {
      hide SessionHealth.Valid;
      done := !health.pending;
      if !done {
        done := SaveCurrent(write);
      }
      if done {
        health.StopRetry();
      }
    }

    /** Enrolment under the lock: the file first, then memory. */
    method Enroll(credentials: Credentials, expires: nat, write: Write, ghost s: State, ghost id: TaskId)
      returns (ok: bool)
      requires Represents(s) && id in s.tasks && s.tasks[id] == EnrollSaving(credentials, expires)
      modifies this, health
      ensures Represents(Act(Act(s, EnrollSave(id, write)), EnrollReplace(id)))
      ensures ok <==> write.Written?
    {
      hide SessionHealth.Valid;
      if !write.Refused? {
        disk := Some(credentials);
      }
      if !write.Written? {
        assert id !in Act(s, EnrollSave(id, write)).tasks;
        return false;
      }
      ReplaceSession(Session(credentials, Some(Access(credentials.refresh, expires))));
      var _ := health.Persisted();
      ok := true;
    }

    /** `None` when no refresh is needed, or the request to make. */
    method Refresh(now: nat, ghost s: State, ghost id: TaskId, ghost rotator: TaskId) returns (token: Option<Token>)
      requires Represents(s) && id in s.tasks && s.tasks[id].Checking? && rotator !in s.tasks && s.clock == now
      ensures token.Some? <==>
                && session.Some?
                && (session.value.access.None? || now + 60 > session.value.access.value.expires)
                && !(&& health.failure.Some? && health.failure.value.generation == generation
                     && now < health.failure.value.at + if health.failure.value.rejected then 1800 else 10)
      ensures token.Some? ==> token.value == session.value.credentials.refresh
      ensures Act(s, Check(id, rotator)).log == if token.Some? then s.log + [Offered(token.value)] else s.log
      ensures token.Some? <==> rotator in Act(s, Check(id, rotator)).tasks
    {
      if session.None? || !NeedsRefresh(session.value, now) {
        return None;
      }
      var recent := health.CoolingFailure(generation, now);
      token := if recent.Some? then None else Some(session.value.credentials.refresh);
    }
  }
}
