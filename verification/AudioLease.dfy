/**
 * Microphone ownership of one camera. Every method of the source holds the
 * state lock from start to end, so each is one atomic step; any number of
 * browser sessions, TLS connections and provider observations may interleave.
 */
module AudioLease {
  import opened Wrappers
  import opened Bytes
  import Adts = AdtsFraming

  const AUDIO_QUEUE_DEPTH: nat := 3
  const MAX_AUDIO_AGE: nat := 200 // milliseconds
  const U64_MAX: nat := 0xffff_ffff_ffff_ffff

  datatype AudioLeaseError =
    | Closed | UnsupportedOffer | Busy | Unavailable | Stale | Expired | InvalidFrame | Backpressure

  /** What subscribers see; the sent-frame counter is refreshed only now and then. */
  datatype Status = Status(
    connected: bool, format: Option<U32>, microphoneEnabled: bool, sentFrames: nat,
    multiClient: Option<bool>, available: Option<bool>, recordingStatus: Option<Byte>)

  datatype Frame = Frame(payload: seq<Byte>, created: nat, generation: nat, epoch: nat)

  /** `sender` is the bounded queue to the TLS connection, absent while no connection is open. */
  datatype State = State(
    generation: nat, epoch: nat, format: Option<U32>, owned: bool, sentFrames: nat,
    sender: Option<seq<Frame>>, multiClient: Option<bool>, available: Option<bool>,
    recordingRequest: Option<bool>, recordingStatus: Option<Byte>, published: Status)

  datatype Lease = Lease(generation: nat, epoch: nat)

  const INITIAL: State :=
    State(0, 0, None, false, 0, None, None, None, None, None, Status(false, None, false, 0, None, None, None))

  predicate SupportedFormat(format: Option<U32>) {
    format == Some(0xa000_0001) || format == Some(0xa000_0003)
  }

  predicate PolicyAllows(multiClient: Option<bool>, available: Option<bool>) {
    match multiClient
    case Some(false) => true
    case Some(true) => available == Some(true)
    case None => false
  }

  predicate Fresh(created: nat, now: nat) {
    created <= now <= created + MAX_AUDIO_AGE
  }

  /** Eligibility as a subscriber judges it. */
  predicate Supported(status: Status) {
    status.connected && SupportedFormat(status.format) && PolicyAllows(status.multiClient, status.available)
  }

  function Publish(s: State): State {
    s.(published := Status(s.sender.Some?, s.format, s.owned, s.sentFrames,
                             s.multiClient, s.available, s.recordingStatus))
  }

  // ---------- the atomic steps

  function Connect(s: State, multiClient: Option<bool>): State {
    Publish(s.(generation := s.generation + 1, epoch := s.epoch + 1, format := None, sentFrames := 0, owned := false,
               sender := Some([]), multiClient := multiClient, available := None,
               recordingRequest := None, recordingStatus := None))
  }

  function ClaimError(s: State): Option<AudioLeaseError> {
    if s.sender.None? then Some(Closed)
    else if !SupportedFormat(s.format) then Some(UnsupportedOffer)
    else if s.owned then Some(Busy)
    else if !PolicyAllows(s.multiClient, s.available) then Some(Unavailable)
    else None
  }

  function Claim(s: State): State {
    if ClaimError(s).Some? then s else Publish(s.(epoch := s.epoch + 1, owned := true, sentFrames := 0))
  }

  function RequestRecording(s: State, save: bool): State {
    if s.sender.None? then s else Publish(s.(recordingRequest := Some(save), recordingStatus := None))
  }

  function SubmitError(s: State, lease: Lease, payload: seq<Byte>, created: nat, now: nat): Option<AudioLeaseError> {
    if !Adts.WholeFrame(payload) then Some(InvalidFrame)
    else if s.generation != lease.generation || s.epoch != lease.epoch || !s.owned
            || !PolicyAllows(s.multiClient, s.available) then Some(Stale)
    else if !Fresh(created, now) then Some(Expired)
    else if s.sender.None? then Some(Closed)
    else if |s.sender.value| >= AUDIO_QUEUE_DEPTH then Some(Backpressure)
    else None
  }

  function Submit(s: State, lease: Lease, payload: seq<Byte>, created: nat, now: nat): State {
    if SubmitError(s, lease, payload, created, now).Some? || s.sender.None? then s
    else s.(sender := Some(s.sender.value + [Frame(payload, created, lease.generation, lease.epoch)]))
  }

  function Receive(s: State): State {
    if s.sender.None? || s.sender.value == [] then s else s.(sender := Some(s.sender.value[1..]))
  }

  function DropLease(s: State, lease: Lease): State {
    if s.generation == lease.generation && s.epoch == lease.epoch && s.owned
    then Publish(s.(epoch := s.epoch + 1, owned := false))
    else s
  }

  predicate Current(s: State, connection: nat) {
    s.generation == connection && s.sender.Some?
  }

  function ObserveRecording(s: State, connection: nat, status: Byte): State {
    if !Current(s, connection) then s else Publish(s.(recordingStatus := Some(status)))
  }

  function ObserveAvailability(s: State, connection: nat, available: bool): State {
    if !Current(s, connection) || s.available == Some(available) then s
    else if !available && s.multiClient == Some(true)
    then Publish(s.(available := Some(available), epoch := s.epoch + 1, owned := false))
    else Publish(s.(available := Some(available)))
  }

  function ObserveOffer(s: State, connection: nat, format: U32): State {
    if !Current(s, connection) || s.format == Some(format) then s
    else
      var available := if s.format.Some? && s.multiClient == Some(true) then None else s.available;
      Publish(s.(epoch := s.epoch + 1, owned := false, available := available, format := Some(format)))
  }

  function FrameSent(s: State, connection: nat, epoch: nat): State {
    if s.generation == connection && s.epoch == epoch && s.owned then
      var sent := if s.sentFrames < U64_MAX then s.sentFrames + 1 else U64_MAX;
      var counted := s.(sentFrames := sent);
      if sent == 1 || sent % 16 == 0 then Publish(counted) else counted
    else s
  }

  function DropConnection(s: State, connection: nat): State {
    if s.generation != connection then s
    else Publish(s.(epoch := s.epoch + 1, owned := false, format := None, sender := None, multiClient := None,
                    available := None, recordingRequest := None, recordingStatus := None))
  }

  // ---------- what the writer reads

  /** None: this connection is obsolete. Otherwise its multi-client policy and the epoch that wants the microphone. */
  function Control(s: State, connection: nat): Option<(bool, Option<nat>)> {
    if !Current(s, connection) then None
    else Some((s.multiClient == Some(true),
               if s.owned && PolicyAllows(s.multiClient, s.available) then Some(s.epoch) else None))
  }

  function RecordingWanted(s: State, connection: nat): Option<bool> {
    if Current(s, connection) then s.recordingRequest else None
  }

  predicate ValidFrame(s: State, connection: nat, frame: Frame, now: nat) {
    && s.generation == connection
    && s.generation == frame.generation
    && s.epoch == frame.epoch
    && s.owned
    && s.sender.Some?
    && PolicyAllows(s.multiClient, s.available)
    && Fresh(frame.created, now)
  }

  // ---------- runs

  datatype Event =
    | Connected(policy: Option<bool>)
    | Claimed
    | RecordingRequested(save: bool)
    | Submitted(lease: Lease, payload: seq<Byte>, created: nat, now: nat)
    | Received
    | LeaseDropped(lease: Lease)
    | RecordingObserved(connection: nat, status: Byte)
    | AvailabilityObserved(connection: nat, isAvailable: bool)
    | OfferObserved(connection: nat, format: U32)
    | FrameWasSent(connection: nat, epoch: nat)
    | ConnectionDropped(connection: nat)

  function Step(s: State, e: Event): State {
    match e
    case Connected(policy) => Connect(s, policy)
    case Claimed => Claim(s)
    case RecordingRequested(save) => RequestRecording(s, save)
    case Submitted(lease, payload, created, now) => Submit(s, lease, payload, created, now)
    case Received => Receive(s)
    case LeaseDropped(lease) => DropLease(s, lease)
    case RecordingObserved(connection, status) => ObserveRecording(s, connection, status)
    case AvailabilityObserved(connection, available) => ObserveAvailability(s, connection, available)
    case OfferObserved(connection, format) => ObserveOffer(s, connection, format)
    case FrameWasSent(connection, epoch) => FrameSent(s, connection, epoch)
    case ConnectionDropped(connection) => DropConnection(s, connection)
  }

  function Run(s: State, events: seq<Event>): State
    decreases |events|
  {
    if events == [] then s else Run(Step(s, events[0]), events[1..])
  }

  /** The microphone is owned only by an authorised owner, and what subscribers see agrees with the state. */
  ghost predicate Inv(s: State) {
    && (s.owned ==> s.sender.Some? && SupportedFormat(s.format) && PolicyAllows(s.multiClient, s.available))
    && (s.sender.Some? ==>
          && |s.sender.value| <= AUDIO_QUEUE_DEPTH
          && forall f :: f in s.sender.value ==>
               f.generation == s.generation && f.epoch <= s.epoch && Adts.WholeFrame(f.payload))
    && (s.sender.None? ==> s.multiClient.None?)
    && s.published == s.published.(connected := s.sender.Some?, format := s.format, microphoneEnabled := s.owned,
                                   multiClient := s.multiClient, available := s.available,
                                   recordingStatus := s.recordingStatus)
    && s.published.sentFrames <= s.sentFrames <= U64_MAX
    && s.published.sentFrames / 16 == s.sentFrames / 16
    && (s.sentFrames >= 1 ==> s.published.sentFrames >= 1)
  }

  lemma StepKeepsInv(s: State, e: Event)
    requires Inv(s)
    ensures Inv(Step(s, e))
    ensures s.generation <= Step(s, e).generation && s.epoch <= Step(s, e).epoch
    ensures e.Connected? || Step(s, e).generation == s.generation
  {
    if e.FrameWasSent? {
      assert (s.sentFrames + 1) % 16 != 0 ==> (s.sentFrames + 1) / 16 == s.sentFrames / 16;
      assert U64_MAX % 16 == 15;
    }
  }

  /** Over any run of any sessions, connections and provider events. */
  lemma {:induction false} RunKeepsInv(s: State, events: seq<Event>)
    requires Inv(s)
    ensures Inv(Run(s, events))
    ensures s.generation <= Run(s, events).generation && s.epoch <= Run(s, events).epoch
    decreases |events|
  {
    if events != [] {
      StepKeepsInv(s, events[0]);
      RunKeepsInv(Step(s, events[0]), events[1..]);
    }
  }

  /** Every state reachable from the initial one satisfies the invariant. */
  lemma ReachableKeepsInv(events: seq<Event>)
    ensures Inv(Run(INITIAL, events))
  {
    InitialInv();
    RunKeepsInv(INITIAL, events);
  }

  lemma InitialInv()
    ensures Inv(INITIAL)
  {
  }

  lemma {:induction false} RunAppend(s: State, left: seq<Event>, right: seq<Event>)
    ensures Run(s, left + right) == Run(Run(s, left), right)
    decreases |left|
  {
    if left == [] {
      assert left + right == right;
    } else {
      RunAppend(Step(s, left[0]), left[1..], right);
      assert (left + right)[1..] == left[1..] + right;
    }
  }

  // ---------- revocation is final, and only revocation ends an ownership

  /** The authority that a lease, or a frame queued under it, carries. */
  predicate Authorised(s: State, lease: Lease) {
    s.generation == lease.generation && s.epoch == lease.epoch && s.owned
  }

  /** The steps that end a live ownership, read off the state they meet. */
  predicate Revokes(s: State, e: Event, lease: Lease) {
    match e
    case Connected(_) => true
    case LeaseDropped(dropped) => dropped == lease
    case ConnectionDropped(connection) => connection == lease.generation
    case OfferObserved(connection, format) => connection == lease.generation && s.format != Some(format)
    case AvailabilityObserved(connection, available) =>
      connection == lease.generation && !available && s.multiClient == Some(true)
    case _ => false
  }

  /** A live owner loses the microphone by exactly the revoking steps; a stale drop never takes it. */
  lemma OwnershipEndsExactlyByRevocation(s: State, e: Event, lease: Lease)
    requires Inv(s) && Authorised(s, lease)
    ensures Authorised(Step(s, e), lease) <==> !Revokes(s, e, lease)
    ensures Revokes(s, e, lease) ==> Step(s, e).epoch == s.epoch + 1
  {
  }

  lemma RevokedStep(s: State, e: Event, lease: Lease)
    requires !Authorised(s, lease) && lease.epoch <= s.epoch
    ensures !Authorised(Step(s, e), lease) && lease.epoch <= Step(s, e).epoch
  {
  }

  /** Once an issued lease stops matching, no run makes it or a frame queued under it valid again. */
  lemma {:induction false} RevocationIsFinal(s: State, events: seq<Event>, lease: Lease)
    requires !Authorised(s, lease) && lease.epoch <= s.epoch
    ensures !Authorised(Run(s, events), lease)
    ensures forall connection, frame: Frame, now ::
              frame.generation == lease.generation && frame.epoch == lease.epoch
              ==> !ValidFrame(Run(s, events), connection, frame, now)
    decreases |events|
  {
    if events != [] {
      RevokedStep(s, events[0], lease);
      RevocationIsFinal(Step(s, events[0]), events[1..], lease);
    }
  }

  /** Whether some step of a run revokes the lease. */
  predicate RevokedDuring(s: State, events: seq<Event>, lease: Lease)
    decreases |events|
  {
    events != [] && (Revokes(s, events[0], lease) || RevokedDuring(Step(s, events[0]), events[1..], lease))
  }

  /** Over a whole run, an owner still holds the microphone iff no step of the run revoked it. */
  lemma {:induction false} OwnedUntilRevoked(s: State, events: seq<Event>, lease: Lease)
    requires Inv(s) && Authorised(s, lease)
    ensures Authorised(Run(s, events), lease) <==> !RevokedDuring(s, events, lease)
    decreases |events|
  {
    if events != [] {
      var next := Step(s, events[0]);
      StepKeepsInv(s, events[0]);
      OwnershipEndsExactlyByRevocation(s, events[0], lease);
      if Authorised(next, lease) {
        OwnedUntilRevoked(next, events[1..], lease);
      } else {
        RevocationIsFinal(next, events[1..], lease);
      }
    }
  }

  /** The lease that a successful claim hands out. */
  function Granted(s: State): Lease {
    Lease(s.generation, s.epoch + 1)
  }

  lemma GrantIsAuthorised(s: State)
    requires ClaimError(s).None?
    ensures Authorised(Claim(s), Granted(s)) && Claim(s).sentFrames == 0
  {
  }

  /** How many completed writes were reported for a lease. */
  function Reported(events: seq<Event>, lease: Lease): nat {
    if events == [] then 0
    else Reported(events[..|events| - 1], lease)
         + if events[|events| - 1] == FrameWasSent(lease.generation, lease.epoch) then 1 else 0
  }

  /** As long as an owner is not revoked, exactly its own completed writes are counted, up to the 64-bit limit. */
  lemma {:induction false} FramesAreCounted(s: State, events: seq<Event>, lease: Lease)
    requires Inv(s) && Authorised(s, lease) && !RevokedDuring(s, events, lease)
    ensures var sent := s.sentFrames + Reported(events, lease);
            Run(s, events).sentFrames == if sent <= 0xffff_ffff_ffff_ffff then sent else 0xffff_ffff_ffff_ffff
    decreases |events|
  {
    if events != [] {
      var n := |events| - 1;
      NotRevokedBefore(s, events, lease, n);
      FramesAreCounted(s, events[..n], lease);
      RunAppend(s, events[..n], [events[n]]);
      assert events == events[..n] + [events[n]] && [events[n]][1..] == [];
      var before := Run(s, events[..n]);
      RunKeepsInv(s, events[..n]);
      OwnedUntilRevoked(s, events[..n], lease);
      OwnedUntilRevoked(s, events, lease);
      hide Run, RevokedDuring;
      assert Run(s, events) == Step(before, events[n]) by { RunOne(before, events[n]); }
    }
  }

  lemma {:induction false} NotRevokedBefore(s: State, events: seq<Event>, lease: Lease, n: nat)
    requires n <= |events| && !RevokedDuring(s, events, lease)
    ensures !RevokedDuring(s, events[..n], lease)
    decreases n
  {
    hide Step, Revokes;
    if n > 0 {
      NotRevokedBefore(Step(s, events[0]), events[1..], lease, n - 1);
      assert events[..n][1..] == events[1..][..n - 1];
    }
  }

  lemma RunOne(s: State, e: Event)
    ensures Run(s, [e]) == Step(s, e)
  {
    hide Step;
    assert [e][1..] == [];
    assert Run(Step(s, e), []) == Step(s, e);
  }

  // ---------- every field as a function of what happened

  /** How many connections were opened, which is the number of the newest one. */
  function Opened(events: seq<Event>): nat {
    if events == [] then 0
    else Opened(events[..|events| - 1]) + if events[|events| - 1].Connected? then 1 else 0
  }

  predicate Closes(before: seq<Event>, e: Event) {
    e == ConnectionDropped(Opened(before))
  }

  predicate StillOpen(events: seq<Event>) {
    && events != []
    && var before, last := events[..|events| - 1], events[|events| - 1];
       last.Connected? || (StillOpen(before) && !Closes(before, last))
  }

  /** An event of the newest connection while it is open. */
  predicate Heard(before: seq<Event>, connection: nat) {
    StillOpen(before) && connection == Opened(before)
  }

  /** The policy the newest connection was opened with. */
  function Policy(events: seq<Event>): Option<bool> {
    if events == [] then None
    else
      var before, last := events[..|events| - 1], events[|events| - 1];
      if last.Connected? then last.policy else if Closes(before, last) then None else Policy(before)
  }

  /** The last audio format that the provider offered on it. */
  function Offer(events: seq<Event>): Option<U32> {
    if events == [] then None
    else
      var before, last := events[..|events| - 1], events[|events| - 1];
      if last.Connected? || Closes(before, last) then None
      else if last.OfferObserved? && Heard(before, last.connection) then Some(last.format)
      else Offer(before)
  }

  /** Its last word on availability, which a changed offer of a multi-client connection takes back. */
  function Availability(events: seq<Event>): Option<bool> {
    if events == [] then None
    else
      var before, last := events[..|events| - 1], events[|events| - 1];
      if last.Connected? || Closes(before, last) then None
      else if last.AvailabilityObserved? && Heard(before, last.connection) then Some(last.isAvailable)
      else if last.OfferObserved? && Heard(before, last.connection) && Policy(before) == Some(true)
              && Offer(before).Some? && Offer(before) != Some(last.format) then None
      else Availability(before)
  }

  /** The last request to save or discard on it. */
  function LastSave(events: seq<Event>): Option<bool> {
    if events == [] then None
    else
      var before, last := events[..|events| - 1], events[|events| - 1];
      if last.Connected? || Closes(before, last) then None
      else if last.RecordingRequested? && StillOpen(before) then Some(last.save)
      else LastSave(before)
  }

  /** The state of the recording that the provider reported since that request. */
  function RecordingState(events: seq<Event>): Option<Byte> {
    if events == [] then None
    else
      var before, last := events[..|events| - 1], events[|events| - 1];
      if last.Connected? || Closes(before, last) then None
      else if last.RecordingRequested? && StillOpen(before) then None
      else if last.RecordingObserved? && Heard(before, last.connection) then Some(last.status)
      else RecordingState(before)
  }

  /** In every reachable state. */
  lemma {:induction false} FieldsAreHistory(events: seq<Event>)
    ensures var s := Run(INITIAL, events);
            && s.generation == Opened(events) && s.sender.Some? == StillOpen(events)
            && s.multiClient == Policy(events) && s.format == Offer(events) && s.available == Availability(events)
            && s.recordingRequest == LastSave(events) && s.recordingStatus == RecordingState(events)
    decreases |events|
  {
    if events != [] {
      var n := |events| - 1;
      FieldsAreHistory(events[..n]);
      RunAppend(INITIAL, events[..n], [events[n]]);
      assert events == events[..n] + [events[n]];
      RunOne(Run(INITIAL, events[..n]), events[n]);
      HistoryOneMore(Run(INITIAL, events[..n]), events[..n], events[n]);
    }
  }

  ghost predicate Remembers(s: State, events: seq<Event>) {
    && s.generation == Opened(events) && s.sender.Some? == StillOpen(events)
    && s.multiClient == Policy(events) && s.format == Offer(events) && s.available == Availability(events)
    && s.recordingRequest == LastSave(events) && s.recordingStatus == RecordingState(events)
  }

  lemma HistoryOneMore(s: State, before: seq<Event>, last: Event)
    requires Remembers(s, before)
    ensures Remembers(Step(s, last), before + [last])
  {
    hide Step, Remembers;
    if last.Connected? || last.ConnectionDropped? {
      OpeningOneMore(s, before, last);
    } else if last.OfferObserved? || last.AvailabilityObserved? {
      OfferOneMore(s, before, last);
    } else {
      OtherOneMore(s, before, last);
    }
  }

  lemma OpeningOneMore(s: State, before: seq<Event>, last: Event)
    requires Remembers(s, before) && (last.Connected? || last.ConnectionDropped?)
    ensures Remembers(Step(s, last), before + [last])
  {
    assert (before + [last])[..|before|] == before;
  }

  lemma OfferOneMore(s: State, before: seq<Event>, last: Event)
    requires Remembers(s, before) && (last.OfferObserved? || last.AvailabilityObserved?)
    ensures Remembers(Step(s, last), before + [last])
  {
    assert (before + [last])[..|before|] == before;
  }

  lemma OtherOneMore(s: State, before: seq<Event>, last: Event)
    requires Remembers(s, before) && !last.Connected? && !last.ConnectionDropped?
    requires !last.OfferObserved? && !last.AvailabilityObserved?
    ensures Remembers(Step(s, last), before + [last])
  {
    assert (before + [last])[..|before|] == before;
  }

  /** Of the leases granted by two different claims of one run, at most one is ever authorised. */
  lemma OneOwner(s: State, between: seq<Event>, after: seq<Event>)
    requires Inv(s) && ClaimError(s).None?
    requires ClaimError(Run(Claim(s), between)).None?
    ensures var second := Run(Claim(s), between);
            && Granted(s) != Granted(second)
            && !Authorised(Run(Claim(second), after), Granted(s))
  {
    StepKeepsInv(s, Claimed);
    RunKeepsInv(Claim(s), between);
    var second := Run(Claim(s), between);
    RevocationIsFinal(Claim(second), after, Granted(s));
  }

  /** Published eligibility is exact: a claim succeeds iff subscribers see a supported, unowned microphone. */
  lemma PublishedEligibilityIsExact(s: State)
    requires Inv(s)
    ensures ClaimError(s).None? <==> Supported(s.published) && !s.published.microphoneEnabled
    ensures ClaimError(s).None? <==>
              && s.sender.Some? && !s.owned && (s.format == Some(0xa000_0001) || s.format == Some(0xa000_0003))
              && (s.multiClient == Some(false) || (s.multiClient == Some(true) && s.available == Some(true)))
  {
    PolicyAllowsIff(s.multiClient, s.available);
    hide PolicyAllows;
  }

  lemma PolicyAllowsIff(multiClient: Option<bool>, available: Option<bool>)
    ensures PolicyAllows(multiClient, available) <==>
              multiClient == Some(false) || (multiClient == Some(true) && available == Some(true))
  {
    match multiClient {
      case None =>
      case Some(many) => assert multiClient == Some(true) || multiClient == Some(false);
    }
  }

  /** A frame enters the queue only under the live lease, whole, fresh, and within the queue bound. */
  lemma SubmitIffAuthorised(s: State, lease: Lease, payload: seq<Byte>, created: nat, now: nat)
    requires Inv(s)
    ensures SubmitError(s, lease, payload, created, now).None? <==>
              && Authorised(s, lease) && Adts.WholeFrame(payload) && created <= now <= created + 200
              && |s.sender.value| < 3
    ensures SubmitError(s, lease, payload, created, now).None? ==>
              && Submit(s, lease, payload, created, now).sender.value
                 == s.sender.value + [Frame(payload, created, lease.generation, lease.epoch)]
              && ValidFrame(Submit(s, lease, payload, created, now), lease.generation,
                            Frame(payload, created, lease.generation, lease.epoch), now)
  {
  }

  // ---------- the runtime object

  class AudioRuntime {
    var state: State

    constructor ()
      ensures state == INITIAL && Inv(state)
    {
      state := INITIAL;
    }

    method PublishStatus()
      modifies this
      ensures state == Publish(old(state))
    {
      state := state.(published := Status(state.sender.Some?, state.format, state.owned, state.sentFrames,
                                          state.multiClient, state.available, state.recordingStatus));
    }

    /** A reconnect invalidates every earlier owner and queued frame. */
    method ConnectWithPolicy(multiClient: Option<bool>) returns (connection: nat)
      modifies this
      ensures state == Connect(old(state), multiClient) && connection == state.generation
    {
      state := state.(generation := state.generation + 1, epoch := state.epoch + 1);
      state := state.(format := None, sentFrames := 0, owned := false, sender := Some([]));
      state := state.(multiClient := multiClient, available := None, recordingRequest := None, recordingStatus := None);
      PublishStatus();
      connection := state.generation;
    }

    method ClaimMicrophone() returns (r: Result<Lease, AudioLeaseError>)
      modifies this
      ensures state == Claim(old(state))
      ensures r == if ClaimError(old(state)).Some? then Err(ClaimError(old(state)).value) else Ok(Granted(old(state)))
    {
      if state.sender.None? {
        return Err(Closed);
      }
      if state.format != Some(0xa000_0001) && state.format != Some(0xa000_0003) {
        return Err(UnsupportedOffer);
      }
      if state.owned {
        return Err(Busy);
      }
      if !PolicyAllows(state.multiClient, state.available) {
        return Err(Unavailable);
      }
      state := state.(epoch := state.epoch + 1, owned := true, sentFrames := 0);
      PublishStatus();
      return Ok(Lease(state.generation, state.epoch));
    }

    method Request(save: bool) returns (r: Result<(), AudioLeaseError>)
      modifies this
      ensures state == RequestRecording(old(state), save) && r.Err? == old(state).sender.None?
    {
      if state.sender.None? {
        return Err(Closed);
      }
      state := state.(recordingRequest := Some(save), recordingStatus := None);
      PublishStatus();
      return Ok(());
    }

    /** A full queue refuses the frame instead of keeping speech for later. */
    method SubmitFrame(lease: Lease, payload: seq<Byte>, created: nat, now: nat)
      returns (r: Result<(), AudioLeaseError>)
      modifies this
      ensures state == Submit(old(state), lease, payload, created, now)
      ensures r == match SubmitError(old(state), lease, payload, created, now)
                   case Some(e) => Err(e) case None => Ok(())
    {
      if !Adts.WholeFrame(payload) {
        return Err(InvalidFrame);
      }
      if state.generation != lease.generation || state.epoch != lease.epoch || !state.owned
         || !PolicyAllows(state.multiClient, state.available) {
        return Err(Stale);
      }
      if !Fresh(created, now) {
        return Err(Expired);
      }
      if state.sender.None? {
        return Err(Closed);
      }
      if |state.sender.value| >= AUDIO_QUEUE_DEPTH {
        return Err(Backpressure);
      }
      state := state.(sender := Some(state.sender.value + [Frame(payload, created, lease.generation, lease.epoch)]));
      return Ok(());
    }

    method ReceiveFrame() returns (frame: Option<Frame>)
      modifies this
      ensures state == Receive(old(state))
      ensures frame == if old(state).sender.Some? && old(state).sender.value != []
                       then Some(old(state).sender.value[0]) else None
    {
      if state.sender.None? || state.sender.value == [] {
        return None;
      }
      frame := Some(state.sender.value[0]);
      state := state.(sender := Some(state.sender.value[1..]));
    }

    method ReleaseLease(lease: Lease)
      modifies this
      ensures state == DropLease(old(state), lease)
    {
      if state.generation == lease.generation && state.epoch == lease.epoch && state.owned {
        state := state.(epoch := state.epoch + 1, owned := false);
        PublishStatus();
      }
    }

    method NoteRecording(connection: nat, status: Byte) returns (r: Result<(), AudioLeaseError>)
      modifies this
      ensures state == ObserveRecording(old(state), connection, status)
      ensures r.Ok? == Current(old(state), connection)
    {
      if state.generation != connection || state.sender.None? {
        return Err(Closed);
      }
      state := state.(recordingStatus := Some(status));
      PublishStatus();
      return Ok(());
    }

    method NoteAvailability(connection: nat, available: bool) returns (r: Result<(), AudioLeaseError>)
      modifies this
      ensures state == ObserveAvailability(old(state), connection, available)
      ensures r.Ok? == Current(old(state), connection)
    {
      if state.generation != connection || state.sender.None? {
        return Err(Closed);
      }
      if state.available != Some(available) {
        state := state.(available := Some(available));
        if !available && state.multiClient == Some(true) {
          state := state.(epoch := state.epoch + 1, owned := false);
        }
        PublishStatus();
      }
      return Ok(());
    }

    method NoteOffer(connection: nat, format: U32) returns (r: Result<(), AudioLeaseError>)
      modifies this
      ensures state == ObserveOffer(old(state), connection, format)
      ensures r.Ok? == Current(old(state), connection)
    {
      if state.generation != connection || state.sender.None? {
        return Err(Closed);
      }
      if state.format != Some(format) {
        state := state.(epoch := state.epoch + 1, owned := false);
        if state.format.Some? && state.multiClient == Some(true) {
          state := state.(available := None);
        }
        state := state.(format := Some(format));
        PublishStatus();
      }
      return Ok(());
    }

    /** Counts only completed writes of the current authorised epoch. */
    method CountSentFrame(connection: nat, epoch: nat)
      modifies this
      ensures state == FrameSent(old(state), connection, epoch)
    {
      if state.generation == connection && state.epoch == epoch && state.owned {
        state := state.(sentFrames := if state.sentFrames < U64_MAX then state.sentFrames + 1 else U64_MAX);
        if state.sentFrames == 1 || state.sentFrames % 16 == 0 {
          PublishStatus();
        }
      }
    }

    method CloseConnection(connection: nat)
      modifies this
      ensures state == DropConnection(old(state), connection)
    {
      if state.generation == connection {
        state := state.(epoch := state.epoch + 1, owned := false, format := None, sender := None, multiClient := None);
        state := state.(available := None, recordingRequest := None, recordingStatus := None);
        PublishStatus();
      }
    }

    /** Plays the calls that other tasks make while one task is not looking. */
    method Play(events: seq<Event>)
      modifies this
      ensures state == Run(old(state), events)
    {
      for i := 0 to |events|
        invariant Run(old(state), events) == Run(state, events[i..])
      {
        assert events[i..][1..] == events[i + 1..];
        match events[i] {
          case Connected(policy) => var _ := ConnectWithPolicy(policy);
          case Claimed => var _ := ClaimMicrophone();
          case RecordingRequested(save) => var _ := Request(save);
          case Submitted(lease, payload, created, now) => var _ := SubmitFrame(lease, payload, created, now);
          case Received => var _ := ReceiveFrame();
          case LeaseDropped(lease) => ReleaseLease(lease);
          case RecordingObserved(connection, status) => var _ := NoteRecording(connection, status);
          case AvailabilityObserved(connection, available) => var _ := NoteAvailability(connection, available);
          case OfferObserved(connection, format) => var _ := NoteOffer(connection, format);
          case FrameWasSent(connection, epoch) => CountSentFrame(connection, epoch);
          case ConnectionDropped(connection) => CloseConnection(connection);
        }
      }
    }
  }
}
