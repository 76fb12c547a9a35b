/**
 * The single writer of one TLS connection: it turns the changing ownership of
 * AudioLease into START, STOP, SAVE, DISCARD, keepalive and AAC writes.
 *
 * Other tasks act through a script: one batch of their calls is played at every
 * awaited write and, when `preemptive`, also before every lock that the writer
 * takes. A claim for every script is a claim for every interleaving.
 */
module AudioUplink {
  import opened Wrappers
  import opened Bytes
  import opened AudioLease
  import Adts = AdtsFraming
  import Immi = ImmiFraming

  datatype Packet =
    | Start(epoch: nat)
    | Stop
    | Recording(save: bool)
    | Keepalive(beat: Option<U32>)
    | Audio(epoch: nat, number: U32, payload: seq<Byte>, created: nat, begun: nat, budget: nat, authorised: bool)

  /** What other tasks do at one point, how long it takes, and whether an awaited write completes. */
  datatype Batch = Batch(events: seq<Event>, elapsed: nat, delivered: bool)

  /** `log` holds the completed writes; `torn` the last, incomplete one of a failed connection. */
  datatype World = World(
    state: State, now: nat, preemptive: bool, script: seq<Batch>, log: seq<Packet>, torn: Option<Packet>)

  datatype Writer = Writer(
    epoch: Option<nat>, startedEpoch: Option<nat>, sequence: U32, recordingRequest: Option<bool>)

  const IDLE: Writer := Writer(None, None, 0, None)

  datatype Outcome = Outcome(writer: Writer, world: World, ok: bool)

  // ---------- interference

  function Elapse(w: World): World {
    if w.script == [] then w
    else
      var batch := w.script[0];
      w.(state := Run(w.state, batch.events), now := w.now + batch.elapsed, script := w.script[1..])
  }

  function Lock(w: World): World {
    if w.preemptive then Elapse(w) else w
  }

  function BoundedWrite(w: World, packet: Packet): (World, bool) {
    var later := Elapse(w);
    if w.script == [] || w.script[0].delivered
    then (later.(log := later.log + [packet]), true)
    else (later.(torn := Some(packet)), false)
  }

  // ---------- the writer

  function SendStop(u: Writer, w: World): Outcome {
    var (after, ok) := BoundedWrite(w, Stop);
    if ok then Outcome(u.(startedEpoch := None), after, true) else Outcome(u, after, false)
  }

  function SyncRecording(u: Writer, w0: World, connection: nat): Outcome {
    var w := Lock(w0);
    var wanted := RecordingWanted(w.state, connection);
    if wanted.Some? && u.recordingRequest != wanted then
      var (after, ok) := BoundedWrite(w, Recording(wanted.value));
      if ok then Outcome(u.(recordingRequest := wanted), after, true) else Outcome(u, after, false)
    else Outcome(u, w, true)
  }

  function Reconcile(u: Writer, w: World, connection: nat): Outcome {
    var synced := SyncRecording(u, w, connection);
    if !synced.ok then synced else SettleAndActivate(synced.writer, Lock(synced.world), connection)
  }

  /** From the first reading of the desire, made in `w`. */
  function SettleAndActivate(u: Writer, w: World, connection: nat): Outcome {
    match Control(w.state, connection)
    case None => Outcome(u, w, true)
    case Some((multiClient, desired)) =>
      if !multiClient then Outcome(u, w, true)
      else
        var settled :=
          if u.startedEpoch.Some? && u.startedEpoch != desired then SendStop(u, w) else Outcome(u, w, true);
        if !settled.ok then settled else Activate(settled.writer, Lock(settled.world), connection)
  }

  /** From the second reading, made in `w`: the stop may have awaited while ownership changed again. */
  function Activate(u: Writer, w: World, connection: nat): Outcome {
    match Control(w.state, connection)
    case Some((true, Some(epoch))) =>
      if u.startedEpoch == Some(epoch) then Outcome(u, w, true)
      else
        var (after, ok) := BoundedWrite(w, Start(epoch));
        if !ok then Outcome(u, after, false)
        else
          var started, checked := u.(startedEpoch := Some(epoch)), Lock(after);
          if Control(checked.state, connection) != Some((true, Some(epoch))) then SendStop(started, checked)
          else Outcome(started, checked, true)
    case _ => Outcome(u, w, true)
  }

  function Send(u: Writer, w: World, connection: nat, frame: Frame): Outcome {
    var r := Reconcile(u, w, connection);
    if !r.ok then r else Prepare(r.writer, Lock(r.world), connection, frame)
  }

  function Prepare(u: Writer, w: World, connection: nat, frame: Frame): Outcome {
    if !ValidFrame(w.state, connection, frame, w.now) then Outcome(u, w, true)
    else
      var again := Lock(w);
      if Control(again.state, connection) == Some((true, Some(frame.epoch))) && u.startedEpoch != Some(frame.epoch)
      then Outcome(u, again, true)
      else
        var counted := if u.epoch != Some(frame.epoch) then u.(sequence := 0, epoch := Some(frame.epoch)) else u;
        if !Adts.WholeFrame(frame.payload) then Outcome(counted, again, false)
        else WriteFrame(counted, Lock(again), connection, frame)
  }

  function WriteFrame(u: Writer, w: World, connection: nat, frame: Frame): Outcome {
    if !ValidFrame(w.state, connection, frame, w.now) then Outcome(u, w, true)
    else
      var timed := Lock(w);
      if !Fresh(frame.created, timed.now) then Outcome(u, timed, true)
      else
        var budget := frame.created + MAX_AUDIO_AGE - timed.now;
        var authorised := ValidFrame(timed.state, connection, frame, timed.now);
        var packet := Audio(frame.epoch, u.sequence, frame.payload, frame.created, timed.now, budget, authorised);
        var (after, ok) := BoundedWrite(timed, packet);
        if !ok then Outcome(u, after, false)
        else
          var counted := Lock(after);
          Outcome(u.(sequence := Adts.Successor(u.sequence)),
                  counted.(state := FrameSent(counted.state, connection, frame.epoch)), true)
  }

  // ---------- a whole connection

  datatype Wake = Changed | Heard(events: seq<Immi.ImmiEvent>) | FrameReady(frame: Frame) | Tick

  datatype Ticker = Ticker(ticks: U32, sequence: U32)

  datatype Ended = Ended(writer: Writer, ticker: Ticker, world: World)

  function NextTick(k: Ticker): Ticker {
    var ticks := Adts.Successor(k.ticks);
    Ticker(ticks, if ticks % 10 == 0 then Adts.Successor(k.sequence) else k.sequence)
  }

  function TickPacket(k: Ticker): Packet {
    Keepalive(if k.ticks % 10 == 0 then Some(k.sequence) else None)
  }

  /** Observations are applied in order; false when the connection is found obsolete. */
  function Observe(w: World, connection: nat, events: seq<Immi.ImmiEvent>): (World, bool)
    decreases |events|
  {
    if events == [] then (w, true)
    else if events[0].Video? then Observe(w, connection, events[1..])
    else
      var locked := Lock(w);
      if !Current(locked.state, connection) then (locked, false)
      else Observe(locked.(state := Step(locked.state, Observation(connection, events[0]))), connection, events[1..])
  }

  function Observation(connection: nat, e: Immi.ImmiEvent): Event
    requires !e.Video?
  {
    match e
    case AudioConfig(format) => OfferObserved(connection, format)
    case AudioAvailability(available) => AvailabilityObserved(connection, available)
    case ProviderRecording(status) => RecordingObserved(connection, status)
  }

  /** The event loop: reconcile, then handle whichever wake-up comes next. */
  function Session(u: Writer, k: Ticker, w0: World, connection: nat, wakes: seq<Wake>): Ended
    decreases |wakes|
  {
    var w := Lock(w0);
    if wakes == [] || Control(w.state, connection).None? then Ended(u, k, w)
    else
      var r := Reconcile(u, w, connection);
      if !r.ok then Ended(r.writer, k, r.world)
      else
        var woken := Elapse(r.world);
        match wakes[0]
        case Changed => Session(r.writer, k, woken, connection, wakes[1..])
        case FrameReady(frame) =>
          var sent := Send(r.writer, woken, connection, frame);
          if sent.ok then Session(sent.writer, k, sent.world, connection, wakes[1..])
          else Ended(sent.writer, k, sent.world)
        case Tick =>
          var next := NextTick(k);
          var ready := if r.writer.startedEpoch.Some? then woken else Lock(woken);
          var (after, ok) := BoundedWrite(ready, TickPacket(next));
          if ok then Session(r.writer, next, after, connection, wakes[1..]) else Ended(r.writer, next, after)
        case Heard(events) =>
          var (after, current) := Observe(woken, connection, events);
          if current then Session(r.writer, k, after, connection, wakes[1..]) else Ended(r.writer, k, after)
  }

  // ---------- what the log of a connection must look like

  /** The epoch of the last START not followed by a STOP. */
  function OpenStart(log: seq<Packet>): Option<nat> {
    if log == [] then None
    else
      match log[|log| - 1]
      case Start(epoch) => Some(epoch)
      case Stop => None
      case _ => OpenStart(log[..|log| - 1])
  }

  function LastRecording(log: seq<Packet>): Option<bool> {
    if log == [] then None
    else if log[|log| - 1].Recording? then Some(log[|log| - 1].save)
    else LastRecording(log[..|log| - 1])
  }

  /** How many AAC packets of one epoch a log holds. */
  function AudioCount(log: seq<Packet>, epoch: nat): nat {
    if log == [] then 0
    else
      var last := log[|log| - 1];
      AudioCount(log[..|log| - 1], epoch) + if last.Audio? && last.epoch == epoch then 1 else 0
  }

  /** What must hold of a write, given the completed writes before it. */
  predicate WriteSafe(before: seq<Packet>, p: Packet, policy: Option<bool>) {
    match p
    case Start(_) => policy == Some(true)
    case Stop => policy == Some(true) && OpenStart(before).Some?
    case Recording(save) => LastRecording(before) != Some(save)
    case Keepalive(_) => true
    case Audio(epoch, number, payload, created, begun, budget, _) =>
      && policy.Some?
      && (policy == Some(true) ==> OpenStart(before) == Some(epoch))
      && number == AudioCount(before, epoch) % 0x1_0000_0000
      && created <= begun && begun + budget == created + MAX_AUDIO_AGE
      && Adts.WholeFrame(payload)
  }

  predicate LogSafe(log: seq<Packet>, policy: Option<bool>) {
    forall i :: 0 <= i < |log| ==> WriteSafe(log[..i], log[i], policy)
  }

  /** START and STOP strictly alternate, beginning with START. */
  predicate Alternates(log: seq<Packet>) {
    forall i :: 0 <= i < |log| ==>
      && (log[i].Start? ==> OpenStart(log[..i]).None?)
      && (log[i].Stop? ==> OpenStart(log[..i]).Some?)
  }

  /** Every AAC write began while its frame was still authorised and fresh. */
  predicate NoStaleAudio(log: seq<Packet>) {
    forall i :: 0 <= i < |log| ==> log[i].Audio? ==> log[i].authorised
  }

  function Written(w: World): seq<Packet> {
    w.log + if w.torn.Some? then [w.torn.value] else []
  }

  lemma Extend(log: seq<Packet>, p: Packet, policy: Option<bool>)
    requires LogSafe(log, policy) && WriteSafe(log, p, policy)
    ensures LogSafe(log + [p], policy)
    ensures Alternates(log) && (p.Start? ==> OpenStart(log).None?) ==> Alternates(log + [p])
    ensures NoStaleAudio(log) && (p.Audio? ==> p.authorised) ==> NoStaleAudio(log + [p])
    ensures OpenStart(log + [p]) == match p case Start(e) => Some(e) case Stop => None case _ => OpenStart(log)
    ensures LastRecording(log + [p]) == if p.Recording? then Some(p.save) else LastRecording(log)
    ensures forall e :: AudioCount(log + [p], e) == AudioCount(log, e) + if p.Audio? && p.epoch == e then 1 else 0
  {
    var longer := log + [p];
    assert longer[..|log|] == log;
    forall i | 0 <= i < |log|
      ensures longer[..i] == log[..i] && longer[i] == log[i]
    {
    }
  }

  // ---------- the invariant of a live connection

  ghost predicate Live(u: Writer, w: World, connection: nat, policy: Option<bool>) {
    && Inv(w.state)
    && connection <= w.state.generation
    && (Current(w.state, connection) ==> w.state.multiClient == policy)
    && w.torn.None?
    && LogSafe(w.log, policy)
    && (!w.preemptive ==> Alternates(w.log) && NoStaleAudio(w.log))
    && u.startedEpoch == OpenStart(w.log)
    && u.recordingRequest == LastRecording(w.log)
    && (u.epoch.Some? ==>
          && u.epoch.value <= w.state.epoch
          && u.sequence == AudioCount(w.log, u.epoch.value) % 0x1_0000_0000)
    && (forall e :: u.epoch.None? || u.epoch.value < e ==> AudioCount(w.log, e) == 0)
  }

  /** What a connection leaves on the wire, whether it ended well or not. */
  ghost predicate Safe(w: World, policy: Option<bool>) {
    LogSafe(Written(w), policy) && (!w.preemptive ==> Alternates(Written(w)) && NoStaleAudio(Written(w)))
  }

  ghost predicate Kept(r: Outcome, w: World, connection: nat, policy: Option<bool>) {
    && r.world.preemptive == w.preemptive
    && Safe(r.world, policy)
    && (r.ok ==> Live(r.writer, r.world, connection, policy))
  }

  lemma LiveIsSafe(u: Writer, w: World, connection: nat, policy: Option<bool>)
    requires Live(u, w, connection, policy)
    ensures Safe(w, policy)
  {
    assert Written(w) == w.log;
  }

  lemma ElapseKeeps(u: Writer, w: World, connection: nat, policy: Option<bool>)
    requires Live(u, w, connection, policy)
    ensures Live(u, Elapse(w), connection, policy)
    ensures w.state.epoch <= Elapse(w).state.epoch
  {
    if w.script != [] {
      RunKeepsConnection(w.state, w.script[0].events, connection, policy);
    }
  }

  /** The policy a connection was opened with holds for as long as it is current. */
  lemma {:induction false} RunKeepsConnection(s: State, events: seq<Event>, connection: nat, policy: Option<bool>)
    requires Inv(s) && connection <= s.generation && (Current(s, connection) ==> s.multiClient == policy)
    ensures var t := Run(s, events);
            && Inv(t) && s.generation <= t.generation && s.epoch <= t.epoch
            && (Current(t, connection) ==> t.multiClient == policy)
    decreases |events|
  {
    if events != [] {
      StepKeepsInv(s, events[0]);
      RunKeepsConnection(Step(s, events[0]), events[1..], connection, policy);
    }
  }

  lemma WriteKeeps(u: Writer, w: World, connection: nat, policy: Option<bool>, p: Packet)
    requires Live(u, w, connection, policy)
    requires WriteSafe(w.log, p, policy)
    requires !w.preemptive && p.Start? ==> OpenStart(w.log).None?
    requires !w.preemptive && p.Audio? ==> p.authorised
    ensures var (after, ok) := BoundedWrite(w, p);
            && after.preemptive == w.preemptive && Safe(after, policy)
            && w.state.epoch <= after.state.epoch
            && (ok ==> after.log == w.log + [p] && Live(u, after.(log := w.log), connection, policy))
  {
    ElapseKeeps(u, w, connection, policy);
    Extend(w.log, p, policy);
    var (after, ok) := BoundedWrite(w, p);
    assert Written(after) == w.log + [p];
    if ok {
      assert after.(log := w.log) == Elapse(w);
    }
  }

  lemma StopKeeps(u: Writer, w: World, connection: nat, policy: Option<bool>)
    requires Live(u, w, connection, policy) && u.startedEpoch.Some? && policy == Some(true)
    ensures Kept(SendStop(u, w), w, connection, policy)
    ensures SendStop(u, w).ok ==> SendStop(u, w).writer.startedEpoch.None?
  {
    hide Run, Inv, LogSafe, Alternates, NoStaleAudio;
    WriteKeeps(u, w, connection, policy, Stop);
    Extend(w.log, Stop, policy);
  }

  lemma RecordingKeeps(u: Writer, w: World, connection: nat, policy: Option<bool>, save: bool)
    requires Live(u, w, connection, policy) && u.recordingRequest != Some(save)
    ensures var (after, ok) := BoundedWrite(w, Recording(save));
            && after.preemptive == w.preemptive && Safe(after, policy)
            && (ok ==> Live(u.(recordingRequest := Some(save)), after, connection, policy))
  {
    hide Run, Inv, LogSafe, Alternates, NoStaleAudio;
    WriteKeeps(u, w, connection, policy, Recording(save));
    Extend(w.log, Recording(save), policy);
  }

  lemma SyncKeeps(u: Writer, w: World, connection: nat, policy: Option<bool>)
    requires Live(u, w, connection, policy)
    ensures Kept(SyncRecording(u, w, connection), w, connection, policy)
  {
    hide Run, Live, Safe, BoundedWrite;
    ElapseKeeps(u, w, connection, policy);
    var locked := Lock(w);
    LiveIsSafe(u, locked, connection, policy);
    var wanted := RecordingWanted(locked.state, connection);
    if wanted.Some? && u.recordingRequest != wanted {
      RecordingKeeps(u, locked, connection, policy, wanted.value);
    }
  }

  lemma StartKeeps(u: Writer, w: World, connection: nat, policy: Option<bool>, epoch: nat)
    requires Live(u, w, connection, policy) && policy == Some(true)
    requires !w.preemptive ==> u.startedEpoch.None?
    ensures var (after, ok) := BoundedWrite(w, Start(epoch));
            && after.preemptive == w.preemptive && Safe(after, policy)
            && (ok ==> Live(u.(startedEpoch := Some(epoch)), after, connection, policy))
  {
    hide Run, Inv, LogSafe, Alternates, NoStaleAudio;
    WriteKeeps(u, w, connection, policy, Start(epoch));
    Extend(w.log, Start(epoch), policy);
  }

  lemma LockKeeps(u: Writer, w: World, connection: nat, policy: Option<bool>)
    requires Live(u, w, connection, policy)
    ensures Live(u, Lock(w), connection, policy) && Safe(Lock(w), policy) && Lock(w).preemptive == w.preemptive
  {
    ElapseKeeps(u, w, connection, policy);
    LiveIsSafe(u, Lock(w), connection, policy);
  }

  lemma WantingMeansPolicy(u: Writer, w: World, connection: nat, policy: Option<bool>, desired: Option<nat>)
    requires Live(u, w, connection, policy) && Control(w.state, connection) == Some((true, desired))
    ensures policy == Some(true)
  {
    hide Inv, LogSafe, Alternates, NoStaleAudio;
  }

  lemma ActivateKeeps(u: Writer, w: World, connection: nat, policy: Option<bool>)
    requires Live(u, w, connection, policy)
    requires !w.preemptive ==>
               u.startedEpoch.None? || Control(w.state, connection) == Some((true, u.startedEpoch))
    ensures Kept(Activate(u, w, connection), w, connection, policy)
  {
    hide Run, Live, Safe, Control, Lock, BoundedWrite, SendStop;
    LiveIsSafe(u, w, connection, policy);
    match Control(w.state, connection) {
      case Some((true, Some(epoch))) =>
        if u.startedEpoch != Some(epoch) {
          WantingMeansPolicy(u, w, connection, policy, Some(epoch));
          StartKeeps(u, w, connection, policy, epoch);
          var (after, ok) := BoundedWrite(w, Start(epoch));
          if ok {
            var started := u.(startedEpoch := Some(epoch));
            LockKeeps(started, after, connection, policy);
            StopKeeps(started, Lock(after), connection, policy);
          }
        }
      case _ =>
    }
  }

  lemma SettleKeeps(u: Writer, w: World, connection: nat, policy: Option<bool>)
    requires Live(u, w, connection, policy)
    ensures Kept(SettleAndActivate(u, w, connection), w, connection, policy)
  {
    LiveIsSafe(u, w, connection, policy);
    match Control(w.state, connection) {
      case None =>
      case Some((multiClient, desired)) =>
        if multiClient {
          if u.startedEpoch.Some? && u.startedEpoch != desired {
            StopKeeps(u, w, connection, policy);
            var settled := SendStop(u, w);
            if settled.ok {
              ElapseKeeps(settled.writer, settled.world, connection, policy);
              ActivateKeeps(settled.writer, Lock(settled.world), connection, policy);
            }
          } else {
            ElapseKeeps(u, w, connection, policy);
            ActivateKeeps(u, Lock(w), connection, policy);
          }
        }
    }
  }

  lemma ReconcileKeeps(u: Writer, w: World, connection: nat, policy: Option<bool>)
    requires Live(u, w, connection, policy)
    ensures Kept(Reconcile(u, w, connection), w, connection, policy)
  {
    SyncKeeps(u, w, connection, policy);
    var synced := SyncRecording(u, w, connection);
    if synced.ok {
      ElapseKeeps(synced.writer, synced.world, connection, policy);
      SettleKeeps(synced.writer, Lock(synced.world), connection, policy);
    }
  }

  // ---------- sending one frame

  lemma AuthorisedBefore(w: World, lease: Lease)
    requires lease.epoch <= w.state.epoch && Authorised(Lock(w).state, lease)
    ensures Authorised(w.state, lease)
  {
    if !Authorised(w.state, lease) && w.preemptive && w.script != [] {
      RevocationIsFinal(w.state, w.script[0].events, lease);
    }
  }

  lemma CountKeeps(u: Writer, w: World, connection: nat, policy: Option<bool>, epoch: nat)
    requires Live(u, w, connection, policy)
    ensures var counted := Lock(w);
            Live(u, counted.(state := FrameSent(counted.state, connection, epoch)), connection, policy)
  {
    hide Run, LogSafe, Alternates, NoStaleAudio;
    ElapseKeeps(u, w, connection, policy);
    StepKeepsInv(Lock(w).state, FrameWasSent(connection, epoch));
  }

  lemma AudioKeeps(u: Writer, w: World, connection: nat, policy: Option<bool>, p: Packet)
    requires Live(u, w, connection, policy) && p.Audio? && u.epoch == Some(p.epoch) && p.number == u.sequence
    requires WriteSafe(w.log, p, policy) && (!w.preemptive ==> p.authorised)
    ensures var (after, ok) := BoundedWrite(w, p);
            && after.preemptive == w.preemptive && Safe(after, policy)
            && (ok ==> Live(u.(sequence := Adts.Successor(u.sequence)), after, connection, policy))
  {
    hide Run, Inv, LogSafe, Alternates, NoStaleAudio, WriteSafe, Adts.WholeFrame, Safe, BoundedWrite, OpenStart;
    hide LastRecording, AudioCount;
    WriteKeeps(u, w, connection, policy, p);
    Extend(w.log, p, policy);
  }

  lemma WriteFrameKeeps(u: Writer, w: World, connection: nat, policy: Option<bool>, frame: Frame)
    requires Live(u, w, connection, policy)
    requires u.epoch == Some(frame.epoch) && Adts.WholeFrame(frame.payload)
    requires ValidFrame(w.state, connection, frame, w.now) && policy == Some(true) ==>
               u.startedEpoch == Some(frame.epoch)
    ensures Kept(WriteFrame(u, w, connection, frame), w, connection, policy)
  {
    hide Run, Inv, LogSafe, Alternates, NoStaleAudio, FrameSent, Adts.WholeFrame;
    LiveIsSafe(u, w, connection, policy);
    if ValidFrame(w.state, connection, frame, w.now) {
      assert policy.Some?;
      ElapseKeeps(u, w, connection, policy);
      var timed := Lock(w);
      LiveIsSafe(u, timed, connection, policy);
      if Fresh(frame.created, timed.now) {
        var p := Audio(frame.epoch, u.sequence, frame.payload, frame.created, timed.now,
                       frame.created + MAX_AUDIO_AGE - timed.now,
                       ValidFrame(timed.state, connection, frame, timed.now));
        assert timed.log == w.log;
        assert WriteSafe(timed.log, p, policy);
        AudioKeeps(u, timed, connection, policy, p);
        var (after, ok) := BoundedWrite(timed, p);
        if ok {
          var counted := u.(sequence := Adts.Successor(u.sequence));
          CountKeeps(counted, after, connection, policy, frame.epoch);
          var r := WriteFrame(u, w, connection, frame);
          LiveIsSafe(r.writer, r.world, connection, policy);
        }
      }
    }
  }

  lemma PrepareKeeps(u: Writer, w: World, connection: nat, policy: Option<bool>, frame: Frame)
    requires Live(u, w, connection, policy)
    ensures Kept(Prepare(u, w, connection, frame), w, connection, policy)
  {
    hide Run, LogSafe, Alternates, NoStaleAudio, Adts.WholeFrame;
    LiveIsSafe(u, w, connection, policy);
    if ValidFrame(w.state, connection, frame, w.now) {
      ElapseKeeps(u, w, connection, policy);
      var again := Lock(w);
      LiveIsSafe(u, again, connection, policy);
      var counted := if u.epoch != Some(frame.epoch) then u.(sequence := 0, epoch := Some(frame.epoch)) else u;
      assert Live(counted, again, connection, policy);
      ElapseKeeps(counted, again, connection, policy);
      var last := Lock(again);
      if ValidFrame(last.state, connection, frame, last.now) {
        AuthorisedBefore(again, Lease(frame.generation, frame.epoch));
      }
      if !(Control(again.state, connection) == Some((true, Some(frame.epoch)))
           && u.startedEpoch != Some(frame.epoch)) && Adts.WholeFrame(frame.payload) {
        WriteFrameKeeps(counted, last, connection, policy, frame);
      }
    }
  }

  lemma SendKeeps(u: Writer, w: World, connection: nat, policy: Option<bool>, frame: Frame)
    requires Live(u, w, connection, policy)
    ensures Kept(Send(u, w, connection, frame), w, connection, policy)
  {
    ReconcileKeeps(u, w, connection, policy);
    var r := Reconcile(u, w, connection);
    if r.ok {
      ElapseKeeps(r.writer, r.world, connection, policy);
      PrepareKeeps(r.writer, Lock(r.world), connection, policy, frame);
    }
  }

  // ---------- whole connections

  lemma ObserveOneKeeps(u: Writer, w: World, connection: nat, policy: Option<bool>, e: Event)
    requires Live(u, w, connection, policy) && !e.Connected?
    ensures var after := Lock(w); Live(u, after.(state := Step(after.state, e)), connection, policy)
  {
    hide Run, Inv, LogSafe, Alternates, NoStaleAudio;
    assert Current(Step(Lock(w).state, e), connection) ==>
             Current(Lock(w).state, connection) && Step(Lock(w).state, e).multiClient == Lock(w).state.multiClient;
    ElapseKeeps(u, w, connection, policy);
    StepKeepsInv(Lock(w).state, e);
  }

  lemma {:induction false} ObserveKeeps(
      u: Writer, w: World, connection: nat, policy: Option<bool>, events: seq<Immi.ImmiEvent>)
    requires Live(u, w, connection, policy)
    ensures var (after, _) := Observe(w, connection, events);
            Live(u, after, connection, policy) && after.preemptive == w.preemptive
    decreases |events|
  {
    hide Live, Run, Step;
    if events != [] {
      if events[0].Video? {
        ObserveKeeps(u, w, connection, policy, events[1..]);
      } else {
        var e, locked := Observation(connection, events[0]), Lock(w);
        ElapseKeeps(u, w, connection, policy);
        ObserveOneKeeps(u, w, connection, policy, e);
        if Current(locked.state, connection) {
          ObserveKeeps(u, locked.(state := Step(locked.state, e)), connection, policy, events[1..]);
        }
      }
    }
  }

  lemma TickKeeps(u: Writer, w: World, connection: nat, policy: Option<bool>, p: Packet)
    requires Live(u, w, connection, policy) && p.Keepalive?
    ensures var (after, ok) := BoundedWrite(w, p);
            && after.preemptive == w.preemptive && Safe(after, policy)
            && (ok ==> Live(u, after, connection, policy))
  {
    hide Run, Inv, LogSafe, Alternates, NoStaleAudio;
    WriteKeeps(u, w, connection, policy, p);
    assert LogSafe(w.log, policy);
    Extend(w.log, p, policy);
  }

  lemma {:induction false} SessionKeeps(
      u: Writer, k: Ticker, w0: World, connection: nat, policy: Option<bool>, wakes: seq<Wake>)
    requires Live(u, w0, connection, policy)
    ensures Session(u, k, w0, connection, wakes).world.preemptive == w0.preemptive
    ensures Safe(Session(u, k, w0, connection, wakes).world, policy)
    decreases |wakes|
  {
    hide Reconcile, Send, Observe, Run, Live, Safe, BoundedWrite;
    var w := Lock(w0);
    ElapseKeeps(u, w0, connection, policy);
    LiveIsSafe(u, w, connection, policy);
    if wakes != [] && Control(w.state, connection).Some? {
      ReconcileKeeps(u, w, connection, policy);
      var r := Reconcile(u, w, connection);
      if r.ok {
        var woken := Elapse(r.world);
        ElapseKeeps(r.writer, r.world, connection, policy);
        LiveIsSafe(r.writer, woken, connection, policy);
        match wakes[0] {
          case Changed =>
            SessionKeeps(r.writer, k, woken, connection, policy, wakes[1..]);
          case FrameReady(frame) =>
            SendKeeps(r.writer, woken, connection, policy, frame);
            var sent := Send(r.writer, woken, connection, frame);
            if sent.ok {
              SessionKeeps(sent.writer, k, sent.world, connection, policy, wakes[1..]);
            }
          case Tick =>
            var p := TickPacket(NextTick(k));
            var ready := if r.writer.startedEpoch.Some? then woken else Lock(woken);
            ElapseKeeps(r.writer, woken, connection, policy);
            TickKeeps(r.writer, ready, connection, policy, p);
            var (after, ok) := BoundedWrite(ready, p);
            if ok {
              SessionKeeps(r.writer, NextTick(k), after, connection, policy, wakes[1..]);
            }
          case Heard(events) =>
            ObserveKeeps(r.writer, woken, connection, policy, events);
            var (after, current) := Observe(woken, connection, events);
            LiveIsSafe(r.writer, after, connection, policy);
            if current {
              SessionKeeps(r.writer, k, after, connection, policy, wakes[1..]);
            }
        }
      }
    }
  }

  function Opened(s: State, policy: Option<bool>, now: nat, preemptive: bool, script: seq<Batch>): World {
    World(Connect(s, policy), now, preemptive, script, [], None)
  }

  lemma OpeningIsLive(s: State, policy: Option<bool>, now: nat, preemptive: bool, script: seq<Batch>)
    requires Inv(s)
    ensures Live(IDLE, Opened(s, policy, now, preemptive, script), s.generation + 1, policy)
  {
    StepKeepsInv(s, Connected(policy));
  }

  /**
   * Main result: whatever other tasks do, and wherever they do it, the writes of a
   * connection are safe; with others running only at awaits, START and STOP alternate
   * and no AAC write begins after its frame was revoked.
   */
  lemma ConnectionIsSafe(
      s: State, policy: Option<bool>, now: nat, preemptive: bool, script: seq<Batch>, wakes: seq<Wake>)
    requires Inv(s)
    ensures var log := Written(Session(IDLE, Ticker(0, 0), Opened(s, policy, now, preemptive, script),
                                       s.generation + 1, wakes).world);
            LogSafe(log, policy) && (!preemptive ==> Alternates(log) && NoStaleAudio(log))
  {
    hide Session, Live, Run, Alternates, NoStaleAudio, LogSafe;
    var w := Opened(s, policy, now, preemptive, script);
    OpeningIsLive(s, policy, now, preemptive, script);
    SessionKeeps(IDLE, Ticker(0, 0), w, s.generation + 1, policy, wakes);
  }

  // ---------- the same facts, without reference to the last write

  predicate IsControl(p: Packet) {
    p.Start? || p.Stop?
  }

  function Controls(log: seq<Packet>): seq<Packet> {
    if log == [] then []
    else
      var last := log[|log| - 1];
      Controls(log[..|log| - 1]) + if IsControl(last) then [last] else []
  }

  lemma {:induction false} AlternatesMeansEvenOdd(log: seq<Packet>)
    requires Alternates(log)
    ensures forall k :: 0 <= k < |Controls(log)| ==> Controls(log)[k].Start? == (k % 2 == 0)
    ensures OpenStart(log).Some? <==> |Controls(log)| % 2 == 1
  {
    if log != [] {
      var before, last := log[..|log| - 1], log[|log| - 1];
      assert forall i :: 0 <= i < |before| ==> before[i] == log[i] && before[..i] == log[..i];
      AlternatesMeansEvenOdd(before);
    }
  }

  lemma {:induction false} OpenStartMeansBracket(log: seq<Packet>, epoch: nat)
    requires OpenStart(log) == Some(epoch)
    ensures exists j :: 0 <= j < |log| && log[j] == Start(epoch) && forall k :: j < k < |log| ==> !IsControl(log[k])
  {
    var before, last := log[..|log| - 1], log[|log| - 1];
    if !last.Start? {
      OpenStartMeansBracket(before, epoch);
      var j :| 0 <= j < |before| && before[j] == Start(epoch) && forall k :: j < k < |before| ==> !IsControl(before[k]);
      assert log[j] == Start(epoch);
      assert forall k :: j < k < |log| ==> k == |log| - 1 || log[k] == before[k];
    } else {
      assert log[|log| - 1] == Start(epoch);
    }
  }

  function NumbersOf(log: seq<Packet>, epoch: nat): seq<U32> {
    if log == [] then []
    else
      var last := log[|log| - 1];
      NumbersOf(log[..|log| - 1], epoch) + if last.Audio? && last.epoch == epoch then [last.number] else []
  }

  lemma {:induction false} NumbersCountUp(log: seq<Packet>, policy: Option<bool>, epoch: nat)
    requires LogSafe(log, policy)
    ensures |NumbersOf(log, epoch)| == AudioCount(log, epoch)
    ensures forall k :: 0 <= k < |NumbersOf(log, epoch)| ==> NumbersOf(log, epoch)[k] == k % 0x1_0000_0000
  {
    if log != [] {
      var before, last := log[..|log| - 1], log[|log| - 1];
      assert forall i :: 0 <= i < |before| ==> before[i] == log[i] && before[..i] == log[..i];
      assert WriteSafe(before, last, policy);
      NumbersCountUp(before, policy, epoch);
    }
  }

  /** Every AAC write of a multi-client connection lies inside the START of its own epoch, under full preemption. */
  lemma AudioIsBracketed(log: seq<Packet>, i: nat)
    requires LogSafe(log, Some(true)) && i < |log| && log[i].Audio?
    ensures exists j :: 0 <= j < i && log[j] == Start(log[i].epoch) && forall k :: j < k < i ==> !IsControl(log[k])
  {
    assert WriteSafe(log[..i], log[i], Some(true));
    OpenStartMeansBracket(log[..i], log[i].epoch);
    var before := log[..i];
    var j :| 0 <= j < |before| && before[j] == Start(log[i].epoch)
             && forall k :: j < k < |before| ==> !IsControl(before[k]);
    assert log[j] == before[j] && forall k :: j < k < i ==> log[k] == before[k];
  }

  /** Without a known policy a connection carries neither control nor AAC; a legacy one carries no control. */
  lemma PolicyLimitsWrites(log: seq<Packet>, policy: Option<bool>, i: nat)
    requires LogSafe(log, policy) && i < |log|
    ensures policy != Some(true) ==> !IsControl(log[i])
    ensures policy.None? ==> !log[i].Audio?
  {
    assert WriteSafe(log[..i], log[i], policy);
  }

  // ---------- exactly when START and STOP stop alternating

  /**
   * Between the two readings of one reconciliation another thread released the
   * microphone and claimed it again, so the second reading wants a newer epoch
   * although the first asked for no STOP.
   */
  predicate ReclaimedBetweenReadings(u: Writer, w: World, connection: nat) {
    && u.startedEpoch.Some?
    && Control(w.state, connection) == Some((true, u.startedEpoch))
    && match Control(Lock(w).state, connection)
       case Some((true, Some(epoch))) => Some(epoch) != u.startedEpoch
       case _ => false
  }

  lemma SettleAlternatesIff(u: Writer, w: World, connection: nat, policy: Option<bool>)
    requires Live(u, w, connection, policy) && Alternates(w.log)
    ensures Alternates(Written(SettleAndActivate(u, w, connection).world))
            <==> !ReclaimedBetweenReadings(u, w, connection)
  {
    hide Alternates, LogSafe, Inv, Run;
    assert Written(w) == w.log;
    match Control(w.state, connection) {
      case Some((true, desired)) =>
        if u.startedEpoch.Some? && u.startedEpoch != desired {
          ControlAlternates(w.log, Stop);
          var settled := SendStop(u, w);
          if settled.ok {
            ElapseKeeps(u, w, connection, policy);
            ActivateAlternatesIff(settled.writer, Lock(settled.world), connection);
          } else {
            assert Written(settled.world) == w.log + [Stop];
          }
        } else {
          ActivateAlternatesIff(u, Lock(w), connection);
        }
      case _ =>
    }
  }

  lemma ControlAlternates(log: seq<Packet>, p: Packet)
    requires Alternates(log)
    ensures Alternates(log + [p]) <==> (p.Start? ==> OpenStart(log).None?) && (p.Stop? ==> OpenStart(log).Some?)
    ensures OpenStart(log + [p]) == match p case Start(e) => Some(e) case Stop => None case _ => OpenStart(log)
  {
    var longer := log + [p];
    assert longer[..|log|] == log && longer[|log|] == p;
    assert forall i :: 0 <= i < |log| ==> longer[..i] == log[..i] && longer[i] == log[i];
  }

  lemma AlternationNeverRecovers(log: seq<Packet>, p: Packet)
    requires !Alternates(log)
    ensures !Alternates(log + [p])
  {
    var i :| 0 <= i < |log| && !((log[i].Start? ==> OpenStart(log[..i]).None?)
                                 && (log[i].Stop? ==> OpenStart(log[..i]).Some?));
    assert (log + [p])[..i] == log[..i] && (log + [p])[i] == log[i];
  }

  lemma ActivateAlternatesIff(u: Writer, w: World, connection: nat)
    requires w.torn.None? && Alternates(w.log) && u.startedEpoch == OpenStart(w.log)
    ensures Alternates(Written(Activate(u, w, connection).world))
            <==> (match Control(w.state, connection)
                  case Some((true, Some(epoch))) => u.startedEpoch.None? || u.startedEpoch == Some(epoch)
                  case _ => true)
  {
    hide Alternates, OpenStart, Run;
    assert Written(w) == w.log;
    match Control(w.state, connection) {
      case Some((true, Some(epoch))) =>
        if u.startedEpoch != Some(epoch) {
          var p := Start(epoch);
          ControlAlternates(w.log, p);
          var (after, ok) := BoundedWrite(w, p);
          assert Written(after) == w.log + [p];
          if ok {
            var checked := Lock(after);
            assert Written(checked) == w.log + [p];
            assert Written(SendStop(u.(startedEpoch := Some(epoch)), checked).world) == w.log + [p] + [Stop];
            if Alternates(w.log + [p]) {
              ControlAlternates(w.log + [p], Stop);
            } else {
              AlternationNeverRecovers(w.log + [p], Stop);
            }
          }
        }
      case _ =>
    }
  }

  /** One reconciliation breaks the alternation iff ownership was re-claimed between its two readings. */
  lemma ReconcileAlternatesIff(u: Writer, w: World, connection: nat, policy: Option<bool>)
    requires Live(u, w, connection, policy) && Alternates(w.log)
    ensures var synced := SyncRecording(u, w, connection);
            Alternates(Written(Reconcile(u, w, connection).world))
            <==> synced.ok ==> !ReclaimedBetweenReadings(synced.writer, Lock(synced.world), connection)
  {
    hide Alternates, OpenStart, LogSafe, Inv, Run, SettleAndActivate;
    SyncKeeps(u, w, connection, policy);
    var synced := SyncRecording(u, w, connection);
    var wanted := RecordingWanted(Lock(w).state, connection);
    if wanted.Some? && u.recordingRequest != wanted {
      ControlAlternates(w.log, Recording(wanted.value));
      assert Written(synced.world) == w.log + [Recording(wanted.value)];
    }
    if synced.ok {
      ElapseKeeps(synced.writer, synced.world, connection, policy);
      SettleAlternatesIff(synced.writer, Lock(synced.world), connection, policy);
    }
  }

  // ---------- the same condition over a whole connection

  /** During this reconciliation ownership is re-claimed between its two readings. */
  predicate Reclaimed(u: Writer, w: World, connection: nat) {
    var synced := SyncRecording(u, w, connection);
    synced.ok && ReclaimedBetweenReadings(synced.writer, Lock(synced.world), connection)
  }

  /** During some reconciliation of the session, its own or that of a frame being sent. */
  predicate EverReclaimed(u: Writer, k: Ticker, w0: World, connection: nat, wakes: seq<Wake>)
    decreases |wakes|
  {
    var w := Lock(w0);
    wakes != [] && Control(w.state, connection).Some?
    && (Reclaimed(u, w, connection)
        || (var r := Reconcile(u, w, connection);
            r.ok
            && (var woken := Elapse(r.world);
                match wakes[0]
                case Changed => EverReclaimed(r.writer, k, woken, connection, wakes[1..])
                case FrameReady(frame) =>
                  var sent := Send(r.writer, woken, connection, frame);
                  Reclaimed(r.writer, woken, connection)
                  || (sent.ok && EverReclaimed(sent.writer, k, sent.world, connection, wakes[1..]))
                case Tick =>
                  var next := NextTick(k);
                  var ready := if r.writer.startedEpoch.Some? then woken else Lock(woken);
                  var (after, ok) := BoundedWrite(ready, TickPacket(next));
                  ok && EverReclaimed(r.writer, next, after, connection, wakes[1..])
                case Heard(events) =>
                  var (after, current) := Observe(woken, connection, events);
                  current && EverReclaimed(r.writer, k, after, connection, wakes[1..]))))
  }

  /** Without preemption there is nothing between the readings. */
  lemma {:induction false} NeverReclaimedAtAwaits(u: Writer, k: Ticker, w0: World, connection: nat,
                                                  policy: Option<bool>,
                                                  wakes: seq<Wake>)
    requires Live(u, w0, connection, policy) && !w0.preemptive
    ensures !EverReclaimed(u, k, w0, connection, wakes)
  {
    SessionKeeps(u, k, w0, connection, policy, wakes);
    hide Session, Live, Safe, Reconcile, EverReclaimed;
    SessionAlternatesIff(u, k, w0, connection, policy, wakes);
  }

  /** Everything a stage writes comes after what was written before it, and success leaves nothing torn. */
  ghost predicate Extends(r: Outcome, w: World) {
    w.log <= Written(r.world) && (r.ok ==> r.world.torn.None?)
  }

  lemma WriteExtends(w: World, p: Packet)
    requires w.torn.None?
    ensures var (after, ok) := BoundedWrite(w, p);
            Written(after) == w.log + [p] && (ok ==> after.torn.None?)
  {
    hide Run;
  }

  lemma LockWritesNothing(w: World)
    ensures Lock(w).log == w.log && Lock(w).torn == w.torn && Elapse(w).log == w.log && Elapse(w).torn == w.torn
  {
    hide Run;
  }

  lemma StopExtends(u: Writer, w: World)
    requires w.torn.None?
    ensures Extends(SendStop(u, w), w)
  {
    hide BoundedWrite;
    WriteExtends(w, Stop);
  }

  lemma SyncExtends(u: Writer, w: World, connection: nat)
    requires w.torn.None?
    ensures Extends(SyncRecording(u, w, connection), w)
  {
    hide BoundedWrite, Lock;
    LockWritesNothing(w);
    var wanted := RecordingWanted(Lock(w).state, connection);
    if wanted.Some? {
      WriteExtends(Lock(w), Recording(wanted.value));
    }
  }

  lemma ActivateExtends(u: Writer, w: World, connection: nat)
    requires w.torn.None?
    ensures Extends(Activate(u, w, connection), w)
  {
    hide BoundedWrite, Lock, SendStop;
    match Control(w.state, connection) {
      case Some((true, Some(epoch))) =>
        WriteExtends(w, Start(epoch));
        var (after, ok) := BoundedWrite(w, Start(epoch));
        LockWritesNothing(after);
        if ok {
          var checked := Lock(after);
          assert checked.log == w.log + [Start(epoch)] && Written(checked) == checked.log;
          StopExtends(u.(startedEpoch := Some(epoch)), checked);
        }
      case _ =>
    }
  }

  lemma SettleExtends(u: Writer, w: World, connection: nat)
    requires w.torn.None?
    ensures Extends(SettleAndActivate(u, w, connection), w)
  {
    hide Lock, SendStop, Activate;
    var settled := if u.startedEpoch.Some? then SendStop(u, w) else Outcome(u, w, true);
    StopExtends(u, w);
    LockWritesNothing(settled.world);
    if settled.ok {
      ActivateExtends(settled.writer, Lock(settled.world), connection);
    }
    LockWritesNothing(w);
    ActivateExtends(u, Lock(w), connection);
  }

  lemma ReconcileExtends(u: Writer, w: World, connection: nat)
    requires w.torn.None?
    ensures Extends(Reconcile(u, w, connection), w)
  {
    hide Lock, SyncRecording, SettleAndActivate;
    SyncExtends(u, w, connection);
    var synced := SyncRecording(u, w, connection);
    LockWritesNothing(synced.world);
    if synced.ok {
      SettleExtends(synced.writer, Lock(synced.world), connection);
    }
  }

  /** After its reconciliation, sending a frame writes at most the AAC packet. */
  ghost predicate WritesAudio(r: Outcome, w: World) {
    && Extends(r, w)
    && (Written(r.world) == w.log || exists p: Packet :: p.Audio? && Written(r.world) == w.log + [p])
  }

  lemma WriteFrameWrites(u: Writer, w: World, connection: nat, frame: Frame)
    requires w.torn.None?
    ensures WritesAudio(WriteFrame(u, w, connection, frame), w)
  {
    hide BoundedWrite, Lock, FrameSent;
    LockWritesNothing(w);
    var timed := Lock(w);
    if Fresh(frame.created, timed.now) && ValidFrame(w.state, connection, frame, w.now) {
      var packet := Audio(frame.epoch, u.sequence, frame.payload, frame.created, timed.now,
                          frame.created + MAX_AUDIO_AGE - timed.now,
                          ValidFrame(timed.state, connection, frame, timed.now));
      WriteExtends(timed, packet);
      LockWritesNothing(BoundedWrite(timed, packet).0);
    }
  }

  lemma PrepareWrites(u: Writer, w: World, connection: nat, frame: Frame)
    requires w.torn.None?
    ensures WritesAudio(Prepare(u, w, connection, frame), w)
  {
    hide Lock, WriteFrame, Adts.WholeFrame;
    LockWritesNothing(w);
    LockWritesNothing(Lock(w));
    var counted := if u.epoch != Some(frame.epoch) then u.(sequence := 0, epoch := Some(frame.epoch)) else u;
    WriteFrameWrites(counted, Lock(Lock(w)), connection, frame);
  }

  lemma ObserveWritesNothing(w: World, connection: nat, events: seq<Immi.ImmiEvent>)
    ensures Observe(w, connection, events).0.log == w.log && Observe(w, connection, events).0.torn == w.torn
    decreases |events|
  {
    hide Run, Step;
  }

  lemma {:induction false} SessionExtends(u: Writer, k: Ticker, w0: World, connection: nat, wakes: seq<Wake>)
    requires w0.torn.None?
    ensures w0.log <= Written(Session(u, k, w0, connection, wakes).world)
    decreases |wakes|
  {
    hide Reconcile, Run, Prepare, Observe;
    var w := Lock(w0);
    if wakes != [] && Control(w.state, connection).Some? {
      ReconcileExtends(u, w, connection);
      var r := Reconcile(u, w, connection);
      if r.ok {
        var woken := Elapse(r.world);
        match wakes[0] {
          case Changed => SessionExtends(r.writer, k, woken, connection, wakes[1..]);
          case FrameReady(frame) =>
            SendExtends(r.writer, woken, connection, frame);
            var sent := Send(r.writer, woken, connection, frame);
            hide Send;
            if sent.ok {
              SessionExtends(sent.writer, k, sent.world, connection, wakes[1..]);
            }
          case Tick =>
            var ready := if r.writer.startedEpoch.Some? then woken else Lock(woken);
            var (after, ok) := BoundedWrite(ready, TickPacket(NextTick(k)));
            if ok {
              SessionExtends(r.writer, NextTick(k), after, connection, wakes[1..]);
            }
          case Heard(events) =>
            ObserveWritesNothing(woken, connection, events);
            var (after, current) := Observe(woken, connection, events);
            if current {
              SessionExtends(r.writer, k, after, connection, wakes[1..]);
            }
        }
      }
    }
  }

  lemma SendExtends(u: Writer, w: World, connection: nat, frame: Frame)
    requires w.torn.None?
    ensures Extends(Send(u, w, connection, frame), w)
  {
    hide Reconcile, Prepare, Run;
    ReconcileExtends(u, w, connection);
    var r := Reconcile(u, w, connection);
    if r.ok {
      PrepareWrites(r.writer, Lock(r.world), connection, frame);
    }
  }

  lemma PrefixAlternates(log: seq<Packet>, more: seq<Packet>)
    requires log <= more && Alternates(more)
    ensures Alternates(log)
  {
    assert forall i :: 0 <= i < |log| ==> more[..i] == log[..i] && more[i] == log[i];
  }

  lemma SendAlternatesIff(u: Writer, w: World, connection: nat, policy: Option<bool>, frame: Frame)
    requires Live(u, w, connection, policy) && Alternates(w.log)
    ensures Alternates(Written(Send(u, w, connection, frame).world)) <==> !Reclaimed(u, w, connection)
  {
    ReconcileAlternatesIff(u, w, connection, policy);
    ReconcileExtends(u, w, connection);
    hide Reconcile, Prepare, Run, Alternates, Live, SyncRecording;
    var r := Reconcile(u, w, connection);
    if r.ok {
      var locked := Lock(r.world);
      assert Written(r.world) == locked.log;
      PrepareWrites(r.writer, locked, connection, frame);
      var sent := Prepare(r.writer, locked, connection, frame);
      if Written(sent.world) != locked.log {
        var p: Packet :| p.Audio? && Written(sent.world) == locked.log + [p];
        if Alternates(locked.log) {
          ControlAlternates(locked.log, p);
        } else {
          AlternationNeverRecovers(locked.log, p);
        }
      }
    }
  }

  lemma TickAlternates(w: World, p: Packet)
    requires w.torn.None? && p.Keepalive? && Alternates(w.log)
    ensures Alternates(Written(BoundedWrite(w, p).0))
  {
    ControlAlternates(w.log, p);
    hide Alternates, Run;
    assert Written(BoundedWrite(w, p).0) == w.log + [p];
  }

  /**
   * Over a whole connection, under full preemption: START and STOP alternate if and only if in none of its
   * reconciliations the microphone was re-claimed between the two readings.
   */
  lemma {:induction false} SessionAlternatesIff(u: Writer, k: Ticker, w0: World, connection: nat, policy: Option<bool>,
                                                wakes: seq<Wake>)
    requires Live(u, w0, connection, policy) && Alternates(w0.log)
    ensures Alternates(Written(Session(u, k, w0, connection, wakes).world))
            <==> !EverReclaimed(u, k, w0, connection, wakes)
    decreases |wakes|
  {
    hide Reconcile, Send, Observe, Run, Live, BoundedWrite, Alternates, Reclaimed, Prepare;
    var w := Lock(w0);
    ElapseKeeps(u, w0, connection, policy);
    LiveIsUntorn(u, w0, connection, policy);
    LiveIsUntorn(u, w, connection, policy);
    if wakes != [] && Control(w.state, connection).Some? {
      ReconcileKeeps(u, w, connection, policy);
      ReconcileAlternatesIff(u, w, connection, policy);
      ReclaimedMeans(u, w, connection);
      var r := Reconcile(u, w, connection);
      if Reclaimed(u, w, connection) {
        RoundExtends(u, k, w0, connection, wakes);
        if Alternates(Written(Session(u, k, w0, connection, wakes).world)) {
          PrefixAlternates(Written(r.world), Written(Session(u, k, w0, connection, wakes).world));
        }
      } else if r.ok {
        var woken := Elapse(r.world);
        ElapseKeeps(r.writer, r.world, connection, policy);
        LiveIsUntorn(r.writer, woken, connection, policy);
        assert Written(r.world) == woken.log by { LiveIsUntorn(r.writer, r.world, connection, policy); }
        match wakes[0] {
          case Changed =>
            SessionAlternatesIff(r.writer, k, woken, connection, policy, wakes[1..]);
          case FrameReady(frame) =>
            SendKeeps(r.writer, woken, connection, policy, frame);
            SendAlternatesIff(r.writer, woken, connection, policy, frame);
            var sent := Send(r.writer, woken, connection, frame);
            if sent.ok {
              LiveIsUntorn(sent.writer, sent.world, connection, policy);
              if Reclaimed(r.writer, woken, connection) {
                SessionExtends(sent.writer, k, sent.world, connection, wakes[1..]);
                BrokenStays(sent.world.log, Written(Session(sent.writer, k, sent.world, connection, wakes[1..]).world));
              } else {
                SessionAlternatesIff(sent.writer, k, sent.world, connection, policy, wakes[1..]);
              }
            }
          case Tick =>
            var p := TickPacket(NextTick(k));
            var ready := if r.writer.startedEpoch.Some? then woken else Lock(woken);
            ElapseKeeps(r.writer, woken, connection, policy);
            LiveIsUntorn(r.writer, ready, connection, policy);
            TickKeeps(r.writer, ready, connection, policy, p);
            TickAlternates(ready, p);
            var (after, ok) := BoundedWrite(ready, p);
            if ok {
              LiveIsUntorn(r.writer, after, connection, policy);
              SessionAlternatesIff(r.writer, NextTick(k), after, connection, policy, wakes[1..]);
            }
          case Heard(events) =>
            ObserveKeeps(r.writer, woken, connection, policy, events);
            ObserveWritesNothing(woken, connection, events);
            var (after, current) := Observe(woken, connection, events);
            if current {
              SessionAlternatesIff(r.writer, k, after, connection, policy, wakes[1..]);
            }
        }
      }
    }
  }

  lemma BrokenStays(log: seq<Packet>, more: seq<Packet>)
    requires log <= more && !Alternates(log)
    ensures !Alternates(more)
  {
    if Alternates(more) {
      PrefixAlternates(log, more);
    }
  }

  lemma LiveIsUntorn(u: Writer, w: World, connection: nat, policy: Option<bool>)
    requires Live(u, w, connection, policy)
    ensures w.torn.None? && Written(w) == w.log
  {
    hide Inv, LogSafe;
  }

  lemma ReclaimedMeans(u: Writer, w: World, connection: nat)
    ensures var synced := SyncRecording(u, w, connection);
            Reclaimed(u, w, connection)
            <==> synced.ok && ReclaimedBetweenReadings(synced.writer, Lock(synced.world), connection)
  {
  }

  /** The first reconciliation of a session comes before everything else that it writes. */
  lemma RoundExtends(u: Writer, k: Ticker, w0: World, connection: nat, wakes: seq<Wake>)
    requires w0.torn.None? && wakes != [] && Control(Lock(w0).state, connection).Some?
    ensures Written(Reconcile(u, Lock(w0), connection).world) <= Written(Session(u, k, w0, connection, wakes).world)
  {
    hide Reconcile, Run, Prepare, Observe;
    var w := Lock(w0);
    ReconcileExtends(u, w, connection);
    var r := Reconcile(u, w, connection);
    if r.ok {
      var woken := Elapse(r.world);
      assert Written(r.world) == woken.log;
      match wakes[0] {
        case Changed => SessionExtends(r.writer, k, woken, connection, wakes[1..]);
        case FrameReady(frame) =>
          SendExtends(r.writer, woken, connection, frame);
          var sent := Send(r.writer, woken, connection, frame);
          hide Send;
          if sent.ok {
            SessionExtends(sent.writer, k, sent.world, connection, wakes[1..]);
          }
        case Tick =>
          var ready := if r.writer.startedEpoch.Some? then woken else Lock(woken);
          var (after, ok) := BoundedWrite(ready, TickPacket(NextTick(k)));
          if ok {
            SessionExtends(r.writer, NextTick(k), after, connection, wakes[1..]);
          }
        case Heard(events) =>
          ObserveWritesNothing(woken, connection, events);
          var (after, current) := Observe(woken, connection, events);
          if current {
            SessionExtends(r.writer, k, after, connection, wakes[1..]);
          }
      }
    }
  }

  // ---------- a run in which START follows START

  const QUIET: Batch := Batch([], 0, true)

  /** The provider offers audio and grants availability, and a viewer claims the microphone. */
  const CLAIMED: Batch :=
    Batch([OfferObserved(1, 0xa000_0001), AvailabilityObserved(1, true), Claimed], 0, true)

  /** The viewer lets go and another one claims at once. */
  const RECLAIMED: Batch := Batch([LeaseDropped(Lease(1, 3)), Claimed], 0, true)

  const RACE: seq<Batch> :=
    [CLAIMED, QUIET, QUIET, QUIET, QUIET, QUIET, QUIET, QUIET, QUIET, QUIET, RECLAIMED]

  lemma RunOne(s: State, e: Event, rest: seq<Event>)
    ensures Run(s, [e] + rest) == Run(Step(s, e), rest)
  {
    assert ([e] + rest)[1..] == rest;
  }

  lemma FirstStart(w: World)
    requires w.preemptive && w.torn.None? && |w.script| >= 6
    requires forall i :: 0 <= i < 6 ==> w.script[i] == QUIET
    requires RecordingWanted(w.state, 1).None? && Control(w.state, 1) == Some((true, Some(3)))
    ensures Reconcile(IDLE, w, 1)
            == Outcome(IDLE.(startedEpoch := Some(3)), w.(script := w.script[5..], log := w.log + [Start(3)]), true)
  {
  }

  lemma SecondStart(u: Writer, w: World)
    requires u == IDLE.(startedEpoch := Some(3)) && w.preemptive && w.torn.None?
    requires w.script == [QUIET, QUIET, RECLAIMED]
    requires RecordingWanted(w.state, 1).None? && Control(w.state, 1) == Some((true, Some(3)))
    requires Control(Run(w.state, RECLAIMED.events), 1) == Some((true, Some(5)))
    ensures var r := Reconcile(u, w, 1); r.ok && r.world.script == [] && r.world.log == w.log + [Start(5)]
  {
    hide Run;
    RunNothing(w.state);
    var locked := Lock(Lock(w));
    assert locked == w.(script := [RECLAIMED]);
  }

  lemma RaceStates()
    ensures var s := Run(Connect(INITIAL, Some(true)), CLAIMED.events);
            && RecordingWanted(s, 1).None?
            && Control(s, 1) == Some((true, Some(3)))
            && Control(Run(s, RECLAIMED.events), 1) == Some((true, Some(5)))
  {
    var joined := Connect(INITIAL, Some(true));
    RunOne(joined, CLAIMED.events[0], CLAIMED.events[1..]);
    assert CLAIMED.events == [CLAIMED.events[0]] + CLAIMED.events[1..];
    var offered := Step(joined, CLAIMED.events[0]);
    RunOne(offered, CLAIMED.events[1], [Claimed]);
    assert CLAIMED.events[1..] == [CLAIMED.events[1]] + [Claimed];
    var available := Step(offered, CLAIMED.events[1]);
    RunOne(available, Claimed, []);
    assert [Claimed] == [Claimed] + [];
    var claimed := Step(available, Claimed);
    RunOne(claimed, RECLAIMED.events[0], [Claimed]);
    assert RECLAIMED.events == [RECLAIMED.events[0]] + [Claimed];
    RunOne(Step(claimed, RECLAIMED.events[0]), Claimed, []);
  }

  lemma OneRound(u: Writer, k: Ticker, w: World, connection: nat, wakes: seq<Wake>)
    requires wakes != [] && wakes[0] == Changed
    requires Control(Lock(w).state, connection).Some? && Reconcile(u, Lock(w), connection).ok
    ensures var r := Reconcile(u, Lock(w), connection);
            Session(u, k, w, connection, wakes) == Session(r.writer, k, Elapse(r.world), connection, wakes[1..])
  {
    hide Reconcile, Control;
  }

  lemma NoRound(u: Writer, k: Ticker, w: World, connection: nat)
    ensures Session(u, k, w, connection, []).world == Lock(w)
  {
  }

  /**
   * Under full preemption START can follow START: the viewer of epoch 3 lets go and
   * epoch 5 is claimed between the two readings of the second reconciliation.
   */
  lemma StartCanFollowStart()
    ensures Session(IDLE, Ticker(0, 0), Opened(INITIAL, Some(true), 0, true, RACE), 1, [Changed, Changed]).world.log
            == [Start(3), Start(5)]
    ensures !Alternates([Start(3), Start(5)])
  {
    hide Run, Reconcile, Control, RecordingWanted, Session;
    var ticker, wakes := Ticker(0, 0), [Changed, Changed];
    var w0 := Opened(INITIAL, Some(true), 0, true, RACE);
    FirstRound(w0);
    var r1 := Reconcile(IDLE, Lock(w0), 1);
    OneRound(IDLE, ticker, w0, 1, wakes);
    var w2 := Elapse(r1.world);
    var r2 := Reconcile(r1.writer, Lock(w2), 1);
    SecondStart(r1.writer, Lock(w2));
    assert wakes[1..] == [Changed] && wakes[1..][1..] == [];
    OneRound(r1.writer, ticker, w2, 1, wakes[1..]);
    NoRound(r2.writer, ticker, Elapse(r2.world), 1);
    assert [Start(3)] + [Start(5)] == [Start(3), Start(5)];
    assert Lock(Elapse(r2.world)) == r2.world;
    var log := [Start(3), Start(5)];
    assert OpenStart(log[..1]) == Some(3) && log[1].Start?;
  }

  lemma FirstRound(w0: World)
    requires w0 == Opened(INITIAL, Some(true), 0, true, RACE)
    ensures Control(Lock(w0).state, 1).Some?
    ensures var r := Reconcile(IDLE, Lock(w0), 1);
            var w := Lock(Elapse(r.world));
            && r.ok && r.writer == IDLE.(startedEpoch := Some(3))
            && w.preemptive && w.torn.None? && w.script == [QUIET, QUIET, RECLAIMED] && w.log == [Start(3)]
            && RecordingWanted(w.state, 1).None? && Control(w.state, 1) == Some((true, Some(3)))
            && Control(Run(w.state, RECLAIMED.events), 1) == Some((true, Some(5)))
  {
    hide Run, Reconcile, Control, RecordingWanted;
    RaceStates();
    var w1 := Lock(w0);
    assert w1.script == RACE[1..];
    assert forall i :: 0 <= i < 6 ==> w1.script[i] == RACE[i + 1] == QUIET;
    FirstStart(w1);
    RunNothing(w1.state);
    var r := Reconcile(IDLE, w1, 1);
    assert r.world.script == RACE[6..];
    var w2 := Elapse(r.world);
    assert w2.script == RACE[7..];
    var w3 := Lock(w2);
    assert w3.script == RACE[8..] == [QUIET, QUIET, RECLAIMED];
    assert w3.log == [] + [Start(3)];
  }

  lemma RunNothing(s: State)
    ensures Run(s, []) == s
  {
  }

  // ---------- what reconciliation and sending achieve when nobody interferes

  function RecordingDue(u: Writer, s: State, connection: nat): seq<Packet> {
    var wanted := RecordingWanted(s, connection);
    if wanted.Some? && u.recordingRequest != wanted then [Recording(wanted.value)] else []
  }

  function ControlsDue(u: Writer, s: State, connection: nat): seq<Packet> {
    match Control(s, connection)
    case Some((true, desired)) =>
      if u.startedEpoch == desired then []
      else (if u.startedEpoch.Some? then [Stop] else []) + (if desired.Some? then [Start(desired.value)] else [])
    case _ => []
  }

  lemma UndisturbedSettle(u: Writer, w: World, connection: nat)
    requires w.script == []
    ensures var r := SettleAndActivate(u, w, connection);
            && r.ok
            && r.world == w.(log := w.log + ControlsDue(u, w.state, connection))
            && r.writer == u.(startedEpoch := match Control(w.state, connection)
                                              case Some((true, desired)) => desired
                                              case _ => u.startedEpoch)
  {
    hide Control;
    match Control(w.state, connection) {
      case Some((true, desired)) =>
        assert w.log + [Stop] + [] == w.log + [Stop] && w.log + [] == w.log;
        if desired.Some? {
          assert w.log + [Stop] + [Start(desired.value)] == w.log + ([Stop] + [Start(desired.value)]);
          assert [] + [Start(desired.value)] == [Start(desired.value)];
        }
      case _ =>
        assert w.log + [] == w.log;
    }
  }

  /** Undisturbed, one reconciliation writes exactly what is due, reaches the desire, and leaves nothing due. */
  lemma UndisturbedReconcile(u: Writer, w: World, connection: nat)
    requires w.script == []
    ensures var r := Reconcile(u, w, connection);
            && r.ok
            && r.world == w.(log := w.log + RecordingDue(u, w.state, connection) + ControlsDue(u, w.state, connection))
            && RecordingDue(r.writer, w.state, connection) == ControlsDue(r.writer, w.state, connection) == []
            && (match Control(w.state, connection)
                case Some((true, desired)) => r.writer.startedEpoch == desired
                case _ => r.writer.startedEpoch == u.startedEpoch)
            && r.writer.epoch == u.epoch && r.writer.sequence == u.sequence
  {
    hide Control, RecordingWanted;
    var w1 := w.(log := w.log + RecordingDue(u, w.state, connection));
    var synced := SyncRecording(u, w, connection);
    assert synced.ok && synced.world == w1 by {
      assert w.log + [] == w.log;
    }
    UndisturbedSettle(synced.writer, w1, connection);
  }

  /** Undisturbed, an authorised, fresh and whole frame is written under the next number of its epoch. */
  lemma UndisturbedSend(u: Writer, w: World, connection: nat, policy: Option<bool>, frame: Frame)
    requires w.script == [] && Live(u, w, connection, policy)
    requires ValidFrame(w.state, connection, frame, w.now) && Adts.WholeFrame(frame.payload)
    ensures var r := Send(u, w, connection, frame);
            var before := Reconcile(u, w, connection).world.log;
            && r.ok
            && r.world.log
               == before + [Audio(frame.epoch, AudioCount(before, frame.epoch) % 0x1_0000_0000, frame.payload,
                                  frame.created, w.now, frame.created + 200 - w.now, true)]
            && r.world.state == FrameSent(w.state, connection, frame.epoch)
  {
    hide Reconcile, Inv, LogSafe, Alternates, NoStaleAudio, FrameSent, Adts.WholeFrame;
    UndisturbedReconcile(u, w, connection);
    ReconcileKeeps(u, w, connection, policy);
  }

  /** Undisturbed, a frame that is not valid writes nothing beyond the reconciliation and takes no number. */
  lemma InvalidFrameIsDropped(u: Writer, w: World, connection: nat, frame: Frame)
    requires w.script == [] && !ValidFrame(w.state, connection, frame, w.now)
    ensures var r, before := Send(u, w, connection, frame), Reconcile(u, w, connection);
            r.ok && r.world == before.world && r.writer == before.writer
  {
    hide Reconcile, ValidFrame;
    UndisturbedReconcile(u, w, connection);
  }

  /** However a frame came through its first check, it is not written once others have taken its 200 milliseconds. */
  lemma LateFrameIsNotSent(u: Writer, w: World, connection: nat, frame: Frame)
    requires w.preemptive && w.script != [] && w.now + w.script[0].elapsed > frame.created + 200
    ensures var r := WriteFrame(u, w, connection, frame);
            && r.ok && r.world.log == w.log && r.world.torn == w.torn && r.writer == u
            && (ValidFrame(w.state, connection, frame, w.now) ==> r.world.now == w.now + w.script[0].elapsed)
  {
    hide ValidFrame, Run;
  }
}
