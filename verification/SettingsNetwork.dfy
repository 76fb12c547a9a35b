/**
 * Which calls that change one setting succeed and which leave it changed, on every network: decided by what becomes of
 * each request and by when late writes arrive.
 */
module SettingsNetwork {
  import opened Wrappers
  import opened CameraSettings
  import opened SettingsClient
  import opened SettingsOutcome

  // ---------- where the change is

  datatype Stage = Unsent | Pending | Landed

  /** The world before request `n` of a call that has sent nothing but the change. */
  function Before(r: Response, change: Patch, net: seq<Event>, n: nat, stage: Stage): World {
    match stage
    case Unsent => World(r, [], Drop(net, n), [])
    case Pending => World(r, [change], Drop(net, n), [])
    case Landed => World(Apply(r, change), [], Drop(net, n), [change])
  }

  /** What becomes of a write. */
  function Taken(outcome: Outcome): Stage {
    match outcome
    case Fine => Landed
    case Unconfirmed => Landed
    case Later => Pending
    case LaterUnconfirmed => Pending
    case _ => Unsent
  }

  /** Late writes arrive at one of the requests from `n` to `end`, that one excluded. */
  predicate Arrives(net: seq<Event>, n: nat, end: nat) {
    exists i :: n <= i < end && EventAt(net, i).arrive
  }

  predicate AllAnswered(net: seq<Event>, n: nat, end: nat) {
    forall i :: n <= i < end ==> Answered(Out(net, i))
  }

  /** From `stage` before request `n` to the stage before request `end`. */
  function Moved(net: seq<Event>, n: nat, end: nat, stage: Stage): Stage {
    if stage.Pending? && Arrives(net, n, end) then Landed else stage
  }

  lemma ServedBefore(r: Response, change: Patch, net: seq<Event>, n: nat, stage: Stage)
    ensures var w := Before(r, change, net, n, stage);
            && Served(w) == Before(r, change, net, n + 1, Moved(net, n, n + 1, stage))
            && Answers(w) == Answered(Out(net, n))
  {
    hide Apply;
    DropAt(net, n, 0);
    OneApplied(r, change);
    assert EventAt(net, n).arrive ==> Arrives(net, n, n + 1);
  }

  lemma SentBefore(r: Response, change: Patch, net: seq<Event>, n: nat)
    ensures Sent(Before(r, change, net, n, Unsent), change) == Before(r, change, net, n + 1, Taken(Out(net, n)))
  {
    hide Apply;
    DropAt(net, n, 0);
  }

  lemma WroteFirst(r: Response, change: Patch, net: seq<Event>, camera: Camera, key: Key, vendor: VendorKey,
                   encoded: Json)
    requires Asked(r, camera, key, vendor, encoded) == Ok(change)
    ensures var reply := Wrote(Before(r, change, net, 1, Unsent), camera, key, vendor, encoded);
            if IsThreshold(key) && !Answered(Out(net, 1)) then
              reply.result.Err? && reply.world == Before(r, change, net, 2, Unsent)
            else
              && (reply.result.Ok? <==> Answered(Out(net, PostAt(key))))
              && reply.world == Before(r, change, net, PostAt(key) + 1, Taken(Out(net, PostAt(key))))
  {
    hide Asked, Sent, Served, Answers, Answered, Out;
    ServedBefore(r, change, net, 1, Unsent);
    ServedBefore(r, change, net, 2, Unsent);
    SentBefore(r, change, net, PostAt(key));
    if IsThreshold(key) {
      ThresholdNeedsDefault(r, camera, key, vendor, encoded);
    }
  }

  // ---------- reading it back

  /** Of the reads from request `n` on, the `k`-th is the first to find the change, and all up to it are answered. */
  predicate FirstShown(net: seq<Event>, n: nat, k: nat, stage: Stage) {
    && k > 0 && AllAnswered(net, n, n + k) && Moved(net, n, n + k, stage).Landed?
    && (k == 1 || !Moved(net, n, n + k - 1, stage).Landed?)
  }

  lemma OneMoved(net: seq<Event>, n: nat, end: nat, stage: Stage)
    requires n < end
    ensures Moved(net, n, end, stage) == Moved(net, n + 1, end, Moved(net, n, n + 1, stage))
    ensures AllAnswered(net, n, end) <==> Answered(Out(net, n)) && AllAnswered(net, n + 1, end)
    ensures Moved(net, n, n, stage) == stage && AllAnswered(net, n, n)
  {
    hide Answered;
    if Arrives(net, n, end) {
      var i :| n <= i < end && EventAt(net, i).arrive;
      assert if i == n then Arrives(net, n, n + 1) else Arrives(net, n + 1, end);
    }
    if Arrives(net, n, n + 1) || Arrives(net, n + 1, end) {
      var i :| n <= i < end && EventAt(net, i).arrive;
    }
  }

  /** How the reads after a write end, after `k` of them. */
  ghost predicate ReadsEnd(net: seq<Event>, n: nat, stage: Stage, attempts: nat, k: nat,
                           result: Result<Option<seq<SettingField>>, SettingError>) {
    match result
    case Ok(Some(_)) => FirstShown(net, n, k, stage) && k <= attempts
    case Ok(None) => k == attempts && AllAnswered(net, n, n + k) && (k == 0 || !Moved(net, n, n + k, stage).Landed?)
    case Err(_) =>
      && 0 < k <= attempts && AllAnswered(net, n, n + k - 1) && !Answered(Out(net, n + k - 1))
      && (k == 1 || !Moved(net, n, n + k - 1, stage).Landed?)
  }

  lemma {:induction false} ReadBack(r: Response, change: Patch, net: seq<Event>, n: nat, stage: Stage, camera: Camera,
                                    key: Key, expected: Json, attempts: nat) returns (k: nat)
    requires Shown(Apply(r, change), camera, key, expected) && !Shown(r, camera, key, expected)
    ensures var reply := Verified(Before(r, change, net, n, stage), camera, key, expected, attempts);
            && reply.world == Before(r, change, net, n + k, Moved(net, n, n + k, stage))
            && ReadsEnd(net, n, stage, attempts, k, reply.result)
    decreases attempts
  {
    hide Shown, Fields, Apply, Served, Answers, Answered, Out, Moved, AllAnswered;
    OneMoved(net, n, n + 1, stage);
    if attempts == 0 {
      k := 0;
    } else {
      ServedBefore(r, change, net, n, stage);
      var next := Moved(net, n, n + 1, stage);
      OneMoved(net, n + 1, n + 2, next);
      if !Answered(Out(net, n)) || next.Landed? {
        k := 1;
      } else {
        var more := ReadBack(r, change, net, n + 1, next, camera, key, expected, attempts - 1);
        k := more + 1;
        OneMoved(net, n, n + k, stage);
        if more > 0 {
          OneMoved(net, n, n + more, stage);
        }
      }
    }
  }

  /** The reads end in one way only. */
  lemma ReadsEndOnce(net: seq<Event>, n: nat, stage: Stage, attempts: nat, k: nat,
                     result: Result<Option<seq<SettingField>>, SettingError>, shown: nat)
    requires ReadsEnd(net, n, stage, attempts, k, result)
    requires FirstShown(net, n, shown, stage) && shown <= attempts
    ensures result.Ok? && result.value.Some? && k == shown
  {
    hide Answered, Out;
  }

  // ---------- writing the old entry back

  /** The writes in the order in which they will have taken effect. */
  function Settled(w: World): seq<Patch> {
    w.landed + w.late
  }

  lemma ServedSettles(w: World)
    ensures Settled(Served(w)) == Settled(w)
  {
    hide ApplyAll;
  }

  lemma {:induction false} VerifiedSettles(w: World, camera: Camera, key: Key, expected: Json, attempts: nat)
    ensures Settled(Verified(w, camera, key, expected, attempts).world) == Settled(w)
    decreases attempts
  {
    hide Shown, Fields, Served, Answers, Settled;
    if attempts > 0 {
      ServedSettles(w);
      VerifiedSettles(Served(w), camera, key, expected, attempts - 1);
    }
  }

  /** The old entry, if it can be written, takes effect after the change: it is late as well, or the change has come. */
  predicate Superseded(net: seq<Event>, n: nat, key: Key) {
    var q := n + PostAt(key) - 1;
    && (IsThreshold(key) ==> Answered(Out(net, n)))
    && !Taken(Out(net, q)).Unsent? && (Taken(Out(net, q)).Pending? || Arrives(net, n, q + 1))
  }

  lemma SentOrder(w: World, patch: Patch)
    ensures var stage := Taken(Out(w.net, 0));
            Settled(Sent(w, patch))
            == if stage.Unsent? then w.landed + w.late
               else if stage.Pending? || EventAt(w.net, 0).arrive then w.landed + w.late + [patch]
               else w.landed + [patch] + w.late
  {
    hide Apply, ApplyAll;
  }

  lemma SentLast(r: Response, change: Patch, net: seq<Event>, n: nat, stage: Stage, back: Patch)
    requires back != change
    ensures EndsWith(Settled(Sent(Before(r, change, net, n, stage), back)), change)
            <==> !stage.Unsent? && (Taken(Out(net, n)).Unsent?
                   || (stage.Pending? && Taken(Out(net, n)).Landed? && !EventAt(net, n).arrive))
  {
    hide Apply, Sent, Taken;
    DropAt(net, n, 0);
    SentOrder(Before(r, change, net, n, stage), back);
  }

  lemma BackSettles(r: Response, change: Patch, net: seq<Event>, n: nat, stage: Stage, camera: Camera, key: Key,
                    vendor: VendorKey, current: Json, was: Json)
    requires var back := Asked(r, camera, key, vendor, current);
             && back == Asked(Apply(r, change), camera, key, vendor, current) && back != Ok(change)
    requires !stage.Landed?
    ensures EndsWith(Settled(Undone(Before(r, change, net, n, stage), camera, key, vendor, current, was).world), change)
            <==> stage.Pending? && !(Asked(r, camera, key, vendor, current).Ok? && Superseded(net, n, key))
  {
    hide Apply, Asked, Verified, Sent, Served, Answers, Answered, Out, Taken;
    var w := Before(r, change, net, n, stage);
    VerifiedSettles(Wrote(w, camera, key, vendor, current).world, camera, key, was, VERIFY_ATTEMPTS);
    WroteBack(r, change, net, n, stage, camera, key, vendor, current);
  }

  lemma WroteBack(r: Response, change: Patch, net: seq<Event>, n: nat, stage: Stage, camera: Camera, key: Key,
                  vendor: VendorKey, current: Json)
    requires var back := Asked(r, camera, key, vendor, current);
             && back == Asked(Apply(r, change), camera, key, vendor, current) && back != Ok(change)
    requires !stage.Landed?
    ensures EndsWith(Settled(Wrote(Before(r, change, net, n, stage), camera, key, vendor, current).world), change)
            <==> stage.Pending? && !(Asked(r, camera, key, vendor, current).Ok? && Superseded(net, n, key))
  {
    hide Apply, Asked, Sent, Served, Answers, Answered, Out, Taken, Arrives;
    var w := Before(r, change, net, n, stage);
    var back := Asked(r, camera, key, vendor, current);
    ServedBefore(r, change, net, n, stage);
    ArrivesOnce(net, n);
    if back.Ok? {
      SentLast(r, change, net, n, stage, back.value);
      SentLast(r, change, net, n + 1, Moved(net, n, n + 1, stage), back.value);
      if IsThreshold(key) {
        ThresholdNeedsDefault(r, camera, key, vendor, current);
      }
    }
  }

  lemma ArrivesOnce(net: seq<Event>, n: nat)
    ensures Arrives(net, n, n + 1) <==> EventAt(net, n).arrive
    ensures Arrives(net, n, n + 2) <==> EventAt(net, n).arrive || EventAt(net, n + 1).arrive
  {
  }

  // ---------- the whole call

  /** The change is found by one of the four reads, and everything up to the refresh after it is answered. */
  predicate Delivers(net: seq<Event>, key: Key) {
    var p := PostAt(key);
    && Reached(net, key) && Answered(Out(net, p))
    && exists k {:trigger FirstShown(net, p + 1, k, Taken(Out(net, p)))} ::
         && 0 < k <= VERIFY_ATTEMPTS && FirstShown(net, p + 1, k, Taken(Out(net, p)))
         && Answered(Out(net, p + 1 + k))
  }

  /** Every read is answered and none finds the change. */
  predicate Exhausts(net: seq<Event>, key: Key) {
    var p := PostAt(key);
    && Answered(Out(net, p)) && AllAnswered(net, p + 1, p + 1 + VERIFY_ATTEMPTS)
    && !Moved(net, p + 1, p + 1 + VERIFY_ATTEMPTS, Taken(Out(net, p))).Landed?
  }

  /** The change is sent and takes effect, and the old entry is not written after it. */
  predicate Sticks(net: seq<Event>, key: Key, backable: bool) {
    && Reached(net, key) && !Taken(Out(net, PostAt(key))).Unsent?
    && !(backable && Exhausts(net, key) && Superseded(net, PostAt(key) + 1 + VERIFY_ATTEMPTS, key))
  }

  /** The old entry can be asked for. */
  predicate Backable(r: Response, camera: Camera, key: Key) {
    && VendorKeyOf(camera, key).Some? && VendorKeyOf(camera, key).value in r.config && Back(r, camera, key).Ok?
  }

  lemma StageSettles(r: Response, change: Patch, net: seq<Event>, n: nat, stage: Stage)
    ensures EndsWith(Settled(Before(r, change, net, n, stage)), change) <==> !stage.Unsent?
  {
    hide Apply;
  }

  /** The reads after a confirmed write succeed exactly when one finds the change and the refresh is answered. */
  lemma ReadsDeliver(r: Response, change: Patch, net: seq<Event>, camera: Camera, key: Key, desired: Json)
    requires Shown(Apply(r, change), camera, key, desired) && !Shown(r, camera, key, desired)
    requires Reached(net, key) && Answered(Out(net, PostAt(key)))
    ensures var w := Before(r, change, net, PostAt(key) + 1, Taken(Out(net, PostAt(key))));
            var read := Verified(w, camera, key, desired, VERIFY_ATTEMPTS);
            read.result.Ok? && read.result.value.Some? && Answers(read.world) <==> Delivers(net, key)
  {
    hide Apply, Shown, Fields, Verified, Served, Answers, Answered, Out, Moved, Taken, FirstShown, Reached;
    var n, stage := PostAt(key) + 1, Taken(Out(net, PostAt(key)));
    var read := Verified(Before(r, change, net, n, stage), camera, key, desired, VERIFY_ATTEMPTS);
    var k := ReadBack(r, change, net, n, stage, camera, key, desired, VERIFY_ATTEMPTS);
    ServedBefore(r, change, net, n + k, Moved(net, n, n + k, stage));
    forall shown: nat | FirstShown(net, n, shown, stage) && shown <= VERIFY_ATTEMPTS
      ensures read.result.Ok? && read.result.value.Some? && k == shown
    {
      ReadsEndOnce(net, n, stage, VERIFY_ATTEMPTS, k, read.result, shown);
    }
    ShownIsSome(net, n, k, stage);
  }

  lemma ShownIsSome(net: seq<Event>, n: nat, k: nat, stage: Stage)
    ensures FirstShown(net, n, k, stage) ==> k > 0
  {
  }

  /** They give up exactly when all are answered and none finds the change. */
  lemma ReadsGiveUp(r: Response, change: Patch, net: seq<Event>, camera: Camera, key: Key, desired: Json)
    requires Shown(Apply(r, change), camera, key, desired) && !Shown(r, camera, key, desired)
    requires Answered(Out(net, PostAt(key)))
    ensures var n, stage := PostAt(key) + 1, Taken(Out(net, PostAt(key)));
            var w := Before(r, change, net, n, stage);
            var read := Verified(w, camera, key, desired, VERIFY_ATTEMPTS);
            && (read.result.Ok? && read.result.value.None? <==> Exhausts(net, key))
            && (Exhausts(net, key) ==> read.world == Before(r, change, net, n + VERIFY_ATTEMPTS, stage))
            && Settled(read.world) == Settled(w)
  {
    hide Apply, Shown, Fields, Verified, Served, Answers, Answered, Out, Taken, Settled;
    var n, stage := PostAt(key) + 1, Taken(Out(net, PostAt(key)));
    var w := Before(r, change, net, n, stage);
    var k := ReadBack(r, change, net, n, stage, camera, key, desired, VERIFY_ATTEMPTS);
    VerifiedSettles(w, camera, key, desired, VERIFY_ATTEMPTS);
    MovedStays(net, n, n + k, n + VERIFY_ATTEMPTS, stage);
  }

  lemma MovedStays(net: seq<Event>, n: nat, end: nat, later: nat, stage: Stage)
    requires end <= later
    ensures Moved(net, n, end, stage).Landed? ==> Moved(net, n, later, stage).Landed?
  {
    if Arrives(net, n, end) {
      var i :| n <= i < end && EventAt(net, i).arrive;
      assert n <= i < later;
    }
  }

  /** After a confirmed write: whether the call succeeds, and what becomes of the change in the end. */
  lemma ReadsDecide(r: Response, change: Patch, net: seq<Event>, camera: Camera, key: Key, vendor: VendorKey,
                    current: Json, was: Json, desired: Json)
    requires Shown(Apply(r, change), camera, key, desired) && !Shown(r, camera, key, desired)
    requires var back := Asked(r, camera, key, vendor, current);
             && back == Asked(Apply(r, change), camera, key, vendor, current) && back != Ok(change)
    requires Reached(net, key) && Answered(Out(net, PostAt(key)))
    ensures var w := Before(r, change, net, PostAt(key) + 1, Taken(Out(net, PostAt(key))));
            var read := Verified(w, camera, key, desired, VERIFY_ATTEMPTS);
            var end := if read.result.Ok? && read.result.value.None?
                       then Undone(read.world, camera, key, vendor, current, was).world else read.world;
            && (read.result.Ok? && read.result.value.Some? && Answers(read.world) <==> Delivers(net, key))
            && (EndsWith(Settled(end), change) <==> Sticks(net, key, Asked(r, camera, key, vendor, current).Ok?))
  {
    hide Apply, Asked, Shown, Fields, Verified, Undone, Served, Answers, Answered, Out, Taken, Delivers, Reached,
      EndsWith, Settled, Superseded;
    var n, stage := PostAt(key) + 1, Taken(Out(net, PostAt(key)));
    ReadsDeliver(r, change, net, camera, key, desired);
    ReadsGiveUp(r, change, net, camera, key, desired);
    StageSettles(r, change, net, n, stage);
    if Exhausts(net, key) {
      assert !stage.Landed?;
      BackSettles(r, change, net, n + VERIFY_ATTEMPTS, stage, camera, key, vendor, current, was);
    }
  }

  lemma ConfirmedEnds(r: Response, change: Patch, net: seq<Event>, camera: Camera, key: Key, vendor: VendorKey,
                      encoded: Json, current: Json, was: Json, desired: Json)
    requires Asked(r, camera, key, vendor, encoded) == Ok(change)
    requires Shown(Apply(r, change), camera, key, desired) && !Shown(r, camera, key, desired)
    requires var back := Asked(r, camera, key, vendor, current);
             && back == Asked(Apply(r, change), camera, key, vendor, current) && back != Ok(change)
    requires Reached(net, key) && Answered(Out(net, PostAt(key)))
    ensures var w := Before(r, change, net, 1, Unsent);
            var reply := WrittenAndVerified(w, camera, key, vendor, current, encoded, was, desired);
            && (reply.result.Ok? <==> Delivers(net, key))
            && (EndsWith(Settled(reply.world), change)
                <==> Sticks(net, key, Asked(r, camera, key, vendor, current).Ok?))
  {
    hide Asked, Apply, Shown, Fields, Wrote, Verified, Undone, Served, Answers, Answered, Out, Taken, Settled, EndsWith,
      Delivers, Sticks, Before;
    WroteFirst(r, change, net, camera, key, vendor, encoded);
    ReadsDecide(r, change, net, camera, key, vendor, current, was, desired);
    var w := Before(r, change, net, PostAt(key) + 1, Taken(Out(net, PostAt(key))));
    ServedSettles(Verified(w, camera, key, desired, VERIFY_ATTEMPTS).world);
  }

  lemma StopsAtWrite(t: World, camera: Camera, key: Key, vendor: VendorKey, current: Json, encoded: Json, was: Json,
                     desired: Json)
    ensures var wrote := Wrote(t, camera, key, vendor, encoded);
            var reply := WrittenAndVerified(t, camera, key, vendor, current, encoded, was, desired);
            wrote.result.Err? ==> reply.result.Err? && reply.world == wrote.world
  {
    hide Wrote, Verified, Undone, Served, Answers;
  }

  lemma NeverConfirmed(net: seq<Event>, key: Key, backable: bool)
    requires Answered(Out(net, 0)) && !(Reached(net, key) && Answered(Out(net, PostAt(key))))
    ensures !Delivers(net, key)
    ensures Sticks(net, key, backable) <==> Reached(net, key) && !Taken(Out(net, PostAt(key))).Unsent?
    ensures Reached(net, key) <==> !(IsThreshold(key) && !Answered(Out(net, 1)))
  {
    hide Answered, Out, Superseded, FirstShown, Moved, AllAnswered;
  }

  lemma UnconfirmedEnds(r: Response, change: Patch, net: seq<Event>, camera: Camera, key: Key, vendor: VendorKey,
                        encoded: Json, current: Json, was: Json, desired: Json)
    requires Asked(r, camera, key, vendor, encoded) == Ok(change) && Answered(Out(net, 0))
    requires !(Reached(net, key) && Answered(Out(net, PostAt(key))))
    ensures var w := Before(r, change, net, 1, Unsent);
            var reply := WrittenAndVerified(w, camera, key, vendor, current, encoded, was, desired);
            && reply.result.Err? && !Delivers(net, key)
            && (EndsWith(Settled(reply.world), change)
                <==> Sticks(net, key, Asked(r, camera, key, vendor, current).Ok?))
  {
    hide *;
    WroteFirst(r, change, net, camera, key, vendor, encoded);
    StopsAtWrite(Before(r, change, net, 1, Unsent), camera, key, vendor, current, encoded, was, desired);
    NeverConfirmed(net, key, Asked(r, camera, key, vendor, current).Ok?);
    StageSettles(r, change, net, PostAt(key) + 1, Taken(Out(net, PostAt(key))));
    StageSettles(r, change, net, 2, Unsent);
  }

  /** The same for the call from its first write on. */
  lemma AttemptEnds(r: Response, change: Patch, net: seq<Event>, camera: Camera, key: Key, vendor: VendorKey,
                    encoded: Json, current: Json, was: Json, desired: Json)
    requires Asked(r, camera, key, vendor, encoded) == Ok(change)
    requires Shown(Apply(r, change), camera, key, desired) && !Shown(r, camera, key, desired)
    requires var back := Asked(r, camera, key, vendor, current);
             && back == Asked(Apply(r, change), camera, key, vendor, current) && back != Ok(change)
    requires Answered(Out(net, 0))
    ensures var w := Before(r, change, net, 1, Unsent);
            var reply := WrittenAndVerified(w, camera, key, vendor, current, encoded, was, desired);
            && (reply.result.Ok? <==> Delivers(net, key))
            && (EndsWith(Settled(reply.world), change)
                <==> Sticks(net, key, Asked(r, camera, key, vendor, current).Ok?))
  {
    hide *;
    if Reached(net, key) && Answered(Out(net, PostAt(key))) {
      ConfirmedEnds(r, change, net, camera, key, vendor, encoded, current, was, desired);
    } else {
      UnconfirmedEnds(r, change, net, camera, key, vendor, encoded, current, was, desired);
    }
  }

  // ---------- over every network

  /**
   * On every network: a call succeeds iff its checks pass, its write is confirmed, one of the four reads finds the
   * change and everything up to the refresh is answered; and once the late writes have arrived the setting is changed
   * iff the write took effect, at once or late, and the old entry was not written after it.
   */
  lemma OutcomeIff(w: World, camera: Camera, key: Key, value: Json, revision: seq<SettingField>)
    requires w.late == [] && w.landed == []
    ensures var reply := Updated(w, camera, key, value, revision);
            var matches := revision == Fields(w.now, camera);
            && (reply.result.Ok? <==>
                  && matches && Answers(w)
                  && (AlreadyShown(w.now, camera, key, value)
                      || (Attempted(w.now, camera, key, value) && Delivers(w.net, key))))
            && (Fields(Arrived(reply.world).now, camera) != Fields(w.now, camera) <==>
                  matches && Attempted(w.now, camera, key, value) && Sticks(w.net, key, Backable(w.now, camera, key)))
  {
    hide Updated, Fields, AlreadyShown, Attempted, Delivers, Sticks, Backable, Arrived, Change, Answered;
    if Answers(w) && revision == Fields(w.now, camera) && Attempted(w.now, camera, key, value) {
      AttemptOutcome(w, camera, key, value);
      SettledListing(w, camera, key, value, revision);
      AttemptedIsNew(w.now, camera, key, value);
    } else {
      NothingAsked(w, camera, key, value, revision);
      NothingArrives(Updated(w, camera, key, value, revision).world);
      SticksAnswered(w.net, key, Backable(w.now, camera, key));
    }
  }

  lemma AttemptedIsNew(r: Response, camera: Camera, key: Key, value: Json)
    requires Attempted(r, camera, key, value)
    ensures !AlreadyShown(r, camera, key, value)
  {
    hide FieldOf, Validated, Change;
  }

  lemma NothingArrives(w: World)
    requires w.late == []
    ensures Arrived(w).now == w.now
  {
  }

  lemma SticksAnswered(net: seq<Event>, key: Key, backable: bool)
    ensures Sticks(net, key, backable) ==> Answered(EventAt(net, 0).outcome)
  {
    hide Answered;
  }

  /** An attempted change shows in the end exactly when it is the last write to take effect. */
  lemma SettledListing(w: World, camera: Camera, key: Key, value: Json, revision: seq<SettingField>)
    requires w.late == [] && w.landed == [] && Attempted(w.now, camera, key, value)
    ensures Change(w.now, camera, key, value).Ok?
    ensures var t := Updated(w, camera, key, value, revision).world;
            Fields(Arrived(t).now, camera) != Fields(w.now, camera)
            <==> EndsWith(Settled(t), Change(w.now, camera, key, value).value)
  {
    hide Updated, Fields, Apply, Change, FieldOf, Validated, Arrived;
    ListingIsOldOrNew(w, camera, key, value, revision);
    ListingsDiffer(w.now, camera, key, value);
  }

  lemma AttemptOutcome(w: World, camera: Camera, key: Key, value: Json)
    requires w.late == [] && w.landed == [] && Answers(w) && Attempted(w.now, camera, key, value)
    ensures Change(w.now, camera, key, value).Ok?
    ensures var reply := Updated(w, camera, key, value, Fields(w.now, camera));
            && (reply.result.Ok? <==> Delivers(w.net, key))
            && (EndsWith(Settled(reply.world), Change(w.now, camera, key, value).value)
                <==> Sticks(w.net, key, Backable(w.now, camera, key)))
  {
    hide EndsEarly, Updated, Fields, FieldOf, Validated, Change, Apply, Asked, WrittenAndVerified, Shown, VendorKeyOf,
      Served, Answered, Delivers, Sticks, Settled, EndsWith, Attempted, Alike, Proper, SameTarget;
    AttemptedReaches(w.now, camera, key, value);
    var vendor, encoded, was, desired := ReachesWrite(w, camera, key, value);
    var change := Change(w.now, camera, key, value).value;
    ListingsDiffer(w.now, camera, key, value);
    BackIsNotChange(w.now, camera, key, value);
    RequestsOfCall(w.now, camera, key, value);
    ServedBefore(w.now, change, w.net, 0, Unsent);
    WholeNet(w, change);
    AttemptEnds(w.now, change, w.net, camera, key, vendor, encoded, w.now.config[vendor], was, desired);
  }

  lemma WholeNet(w: World, change: Patch)
    requires w.late == [] && w.landed == []
    ensures w == Before(w.now, change, w.net, 0, Unsent) && Moved(w.net, 0, 1, Unsent) == Unsent
  {
  }

  // ---------- when nothing comes late

  predicate Prompt(net: seq<Event>) {
    forall e :: e in net ==> !e.outcome.Later? && !e.outcome.LaterUnconfirmed?
  }

  predicate Confirmed(net: seq<Event>, key: Key) {
    Answered(Out(net, PostAt(key) + 1)) && Answered(Out(net, PostAt(key) + 2))
  }

  /** The write takes effect, and its answer, the first read after it or the refresh fails. */
  predicate Strands(net: seq<Event>, key: Key) {
    && Reached(net, key)
    && (Out(net, PostAt(key)).Unconfirmed? || (Out(net, PostAt(key)).Fine? && !Confirmed(net, key)))
  }

  predicate Succeeds(net: seq<Event>, key: Key) {
    Reached(net, key) && Out(net, PostAt(key)).Fine? && Confirmed(net, key)
  }

  lemma PromptStages(net: seq<Event>, key: Key, backable: bool)
    requires Prompt(net)
    ensures Delivers(net, key) <==> Succeeds(net, key)
    ensures Sticks(net, key, backable) && !Delivers(net, key) <==> Strands(net, key)
    ensures Strands(net, key) ==> Answered(EventAt(net, 0).outcome)
  {
    hide Superseded, EventAt, AllAnswered;
    var p := PostAt(key);
    NotPending(net, p);
    FirstRead(net, p + 1, Taken(Out(net, p)));
    assert Succeeds(net, key) ==> FirstShown(net, p + 1, 1, Taken(Out(net, p)));
    assert Exhausts(net, key) ==> Taken(Out(net, p)).Unsent?;
  }

  /** A change that is there is found by the first read or by none. */
  lemma FirstRead(net: seq<Event>, n: nat, stage: Stage)
    requires !stage.Pending?
    ensures forall k: nat :: FirstShown(net, n, k, stage) <==> k == 1 && stage.Landed? && Answered(Out(net, n))
  {
    hide Answered;
  }

  lemma NotPending(net: seq<Event>, i: nat)
    requires Prompt(net)
    ensures !Taken(Out(net, i)).Pending?
  {
    if i < |net| {
      assert net[i] in net;
    }
  }

  predicate Quick(w: World) {
    w.late == [] && Prompt(w.net)
  }

  lemma QuickServed(w: World, patch: Patch)
    requires Quick(w)
    ensures Quick(Served(w)) && Quick(Sent(w, patch))
  {
    hide Apply;
    NotPending(w.net, 0);
  }

  lemma {:induction false} QuickVerified(w: World, camera: Camera, key: Key, expected: Json, attempts: nat)
    requires Quick(w)
    ensures Quick(Verified(w, camera, key, expected, attempts).world)
    decreases attempts
  {
    hide Shown, Fields, Served, Answers, Quick;
    if attempts > 0 {
      QuickServed(w, Alerts(true));
      QuickVerified(Served(w), camera, key, expected, attempts - 1);
    }
  }

  lemma QuickWrote(w: World, camera: Camera, key: Key, vendor: VendorKey, value: Json)
    requires Quick(w)
    ensures Quick(Wrote(w, camera, key, vendor, value).world)
  {
    hide Asked, Served, Sent, Answers, Quick;
    QuickServed(w, Alerts(true));
    var plain, late := Asked(w.now, camera, key, vendor, value), Asked(Served(w).now, camera, key, vendor, value);
    if plain.Ok? {
      QuickServed(w, plain.value);
    }
    if late.Ok? {
      QuickServed(Served(w), late.value);
    }
  }

  lemma QuickUpdated(w: World, camera: Camera, key: Key, value: Json, revision: seq<SettingField>)
    requires Quick(w)
    ensures Quick(Updated(w, camera, key, value, revision).world)
  {
    hide Quick, Served, Answers, Fields, FieldOf, Validated, VendorKeyOf, Encode, WrittenAndVerified;
    QuickServed(w, Alerts(true));
    forall vendor, current, encoded, was, desired
      ensures Quick(WrittenAndVerified(Served(w), camera, key, vendor, current, encoded, was, desired).world)
    {
      QuickWritten(Served(w), camera, key, vendor, current, encoded, was, desired);
    }
  }

  lemma QuickWritten(t: World, camera: Camera, key: Key, vendor: VendorKey, current: Json, encoded: Json, was: Json,
                     desired: Json)
    requires Quick(t)
    ensures Quick(WrittenAndVerified(t, camera, key, vendor, current, encoded, was, desired).world)
  {
    hide Quick, Served, Answers, Wrote, Verified;
    var w1 := Wrote(t, camera, key, vendor, encoded).world;
    var w2 := Verified(w1, camera, key, desired, VERIFY_ATTEMPTS).world;
    var w3 := Wrote(w2, camera, key, vendor, current).world;
    QuickWrote(t, camera, key, vendor, encoded);
    QuickVerified(w1, camera, key, desired, VERIFY_ATTEMPTS);
    QuickServed(w2, Alerts(true));
    QuickWrote(w2, camera, key, vendor, current);
    QuickVerified(w3, camera, key, was, VERIFY_ATTEMPTS);
  }

  /**
   * With nothing late: a call succeeds iff its requests up to the refresh do, and it fails with the setting changed iff
   * the write takes effect and then its answer, the first read-back or the refresh fails.
   */
  lemma PromptOutcomeIff(w: World, camera: Camera, key: Key, value: Json, revision: seq<SettingField>)
    requires w.late == [] && w.landed == [] && Prompt(w.net)
    ensures var reply := Updated(w, camera, key, value, revision);
            var matches := revision == Fields(w.now, camera);
            && (reply.result.Ok? <==>
                  && matches && Answers(w)
                  && (AlreadyShown(w.now, camera, key, value)
                      || (Attempted(w.now, camera, key, value) && Succeeds(w.net, key))))
            && (reply.result.Err? && Fields(reply.world.now, camera) != revision && matches <==>
                  matches && Attempted(w.now, camera, key, value) && Strands(w.net, key))
  {
    hide Updated, Fields, AlreadyShown, Attempted, Delivers, Sticks, Backable, Succeeds, Strands, Answered, Prompt;
    OutcomeIff(w, camera, key, value, revision);
    QuickUpdated(w, camera, key, value, revision);
    NothingArrives(Updated(w, camera, key, value, revision).world);
    PromptStages(w.net, key, Backable(w.now, camera, key));
    SticksAnswered(w.net, key, Backable(w.now, camera, key));
    if Attempted(w.now, camera, key, value) {
      AttemptedIsNew(w.now, camera, key, value);
    }
  }

  /** Concretely: a sensitivity of 5 can be asked to become 6, so each of these runs exists. */
  lemma SensitivityChanges(camera: Camera)
    requires camera.kind == Default
    ensures var r := Response(map[MotionSensitivity := Integer(5)], None);
            && Attempted(r, camera, Sensitivity, Integer(6))
            && Changed(r, camera, Sensitivity, Integer(6))
               == Ok(Response(map[MotionSensitivity := Integer(6)], None))
            && Strands([Event(true, Fine), Event(true, Fine), Event(true, Failing)], Sensitivity)
            && Strands([Event(true, Fine), Event(true, Unconfirmed)], Sensitivity)
            && Strands([Event(true, Fine), Event(true, Fine), Event(true, Fine), Event(true, Failing)], Sensitivity)
  {
    var r := Response(map[MotionSensitivity := Integer(5)], None);
    assert r.config[MotionSensitivity := Integer(6)] == map[MotionSensitivity := Integer(6)];
  }
}
