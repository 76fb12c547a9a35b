/** The bytes of every uplink write, and the writer as the object that produces them. */
module AudioTransport {
  import opened Wrappers
  import opened Bytes
  import opened AudioLease
  import opened AudioUplink
  import Adts = AdtsFraming
  import Immi = ImmiFraming

  const START: seq<Byte> := [0x17, 0, 0, 0, 3, 0, 0, 0, 0]
  const STOP: seq<Byte> := [0x17, 0, 0, 0, 4, 0, 0, 0, 0]
  const SAVE: seq<Byte> := [0x17, 0, 0, 0, 1, 0, 0, 0, 0]
  const DISCARD: seq<Byte> := [0x17, 0, 0, 0, 2, 0, 0, 0, 0]
  const LATENCY: seq<Byte> :=
    [0x12, 0, 0, 3, 0xe8, 0, 0, 0, 0x18, 0, 0, 0, 0, 0, 0, 0, 0, 0, 0, 0, 0, 0, 0, 0, 0, 0, 0, 0, 0, 0, 0, 0, 0]

  predicate Sendable(p: Packet) {
    p.Audio? ==> Adts.WholeFrame(p.payload)
  }

  /** The bytes handed to the socket. */
  function WireBytes(p: Packet): seq<Byte>
    requires Sendable(p)
  {
    match p
    case Start(_) => START
    case Stop => STOP
    case Recording(save) => if save then SAVE else DISCARD
    case Keepalive(beat) => (if beat.Some? then [0x0a] + BigEndian(beat.value) + [0, 0, 0, 0] else []) + LATENCY
    case Audio(_, number, payload, _, _, _, _) => Adts.AudioPacket(number, payload)
  }

  function Silence(): seq<Byte> {
    seq(24, _ => 0)
  }

  /** The IMMI frames a write stands for. */
  function Messages(p: Packet): (frames: seq<Immi.Frame>)
    requires Sendable(p)
    ensures forall f :: f in frames ==> Immi.Fits(f)
  {
    match p
    case Start(_) => [Immi.Frame(0x17, 3, [])]
    case Stop => [Immi.Frame(0x17, 4, [])]
    case Recording(save) => [Immi.Frame(0x17, if save then 1 else 2, [])]
    case Keepalive(beat) =>
      (if beat.Some? then [Immi.Frame(0x0a, beat.value, [])] else []) + [Immi.Frame(0x12, 1000, Silence())]
    case Audio(_, number, payload, _, _, _, _) => [Adts.AudioMessage(number, payload)]
  }

  lemma EncodeOne(f: Immi.Frame)
    requires Immi.Fits(f)
    ensures Immi.EncodeAll([f]) == Immi.Encode(f)
  {
    assert Immi.EncodeAll([f]) == Immi.Encode(f) + Immi.EncodeAll([]);
  }

  lemma KeepaliveBytes(beat: Option<U32>)
    ensures WireBytes(Keepalive(beat)) == Immi.EncodeAll(Messages(Keepalive(beat)))
  {
    var latency := Immi.Frame(0x12, 1000, Silence());
    EncodeOne(latency);
    assert Immi.Encode(latency) == LATENCY;
    if beat.Some? {
      var f := Immi.Frame(0x0a, beat.value, []);
      var both := [f] + [latency];
      assert both[1..] == [latency];
      assert Immi.EncodeAll(both) == Immi.Encode(f) + LATENCY;
      assert Immi.Encode(f) == [0x0a] + BigEndian(beat.value) + [0, 0, 0, 0];
    }
  }

  lemma WireBytesAreMessages(p: Packet)
    requires Sendable(p)
    ensures WireBytes(p) == Immi.EncodeAll(Messages(p))
  {
    if p.Keepalive? {
      KeepaliveBytes(p.beat);
    } else {
      EncodeOne(Messages(p)[0]);
    }
  }

  function AllWireBytes(log: seq<Packet>): seq<Byte>
    requires forall p :: p in log ==> Sendable(p)
  {
    if log == [] then [] else WireBytes(log[0]) + AllWireBytes(log[1..])
  }

  function AllMessages(log: seq<Packet>): (frames: seq<Immi.Frame>)
    requires forall p :: p in log ==> Sendable(p)
    ensures forall f :: f in frames ==> Immi.Fits(f)
  {
    if log == [] then [] else Messages(log[0]) + AllMessages(log[1..])
  }

  lemma {:induction false} EncodeAllAppend(left: seq<Immi.Frame>, right: seq<Immi.Frame>)
    requires forall f :: f in left + right ==> Immi.Fits(f)
    ensures Immi.EncodeAll(left + right) == Immi.EncodeAll(left) + Immi.EncodeAll(right)
  {
    if left == [] {
      assert left + right == right;
    } else {
      assert forall f :: f in left[1..] + right ==> f in left + right;
      EncodeAllAppend(left[1..], right);
      assert (left + right)[1..] == left[1..] + right;
    }
  }

  lemma {:induction false} LogBytesAreMessages(log: seq<Packet>)
    requires forall p :: p in log ==> Sendable(p)
    ensures AllWireBytes(log) == Immi.EncodeAll(AllMessages(log))
  {
    if log != [] {
      WireBytesAreMessages(log[0]);
      LogBytesAreMessages(log[1..]);
      EncodeAllAppend(Messages(log[0]), AllMessages(log[1..]));
    }
  }

  /** Everything a connection completely sends parses as whole IMMI frames, in order and without remainder. */
  lemma CompletedWritesParse(log: seq<Packet>, policy: Option<bool>)
    requires LogSafe(log, policy)
    ensures forall p :: p in log ==> Sendable(p)
    ensures Immi.FramesIn(AllWireBytes(log)) == AllMessages(log)
    ensures Immi.Parse(AllWireBytes(log)).rest == [] && !Immi.Parse(AllWireBytes(log)).oversized
  {
    forall p | p in log
      ensures Sendable(p)
    {
      var i :| 0 <= i < |log| && log[i] == p;
      assert WriteSafe(log[..i], log[i], policy);
    }
    LogBytesAreMessages(log);
    Immi.ParseEncoded(AllMessages(log));
  }

  lemma {:induction false} WireAppend(log: seq<Packet>, p: Packet)
    requires (forall q :: q in log ==> Sendable(q)) && Sendable(p)
    ensures AllWireBytes(log + [p]) == AllWireBytes(log) + WireBytes(p)
  {
    hide WireBytes;
    if log == [] {
      assert log + [p] == [p];
      assert AllWireBytes([p]) == WireBytes(p) + AllWireBytes([]);
    } else {
      WireAppend(log[1..], p);
      assert (log + [p])[1..] == log[1..] + [p];
    }
  }

  /** One TLS connection with its writable half, and the other tasks as its script plays them. */
  class Tls {
    const runtime: AudioRuntime
    const connection: nat
    const preemptive: bool
    var now: nat
    var script: seq<Batch>
    var log: seq<Packet>
    var torn: Option<Packet>
    var wire: seq<Byte>

    constructor (runtime: AudioRuntime, connection: nat, preemptive: bool, now: nat, script: seq<Batch>)
      ensures Valid()
      ensures this.runtime == runtime && this.connection == connection
      ensures Abs() == World(runtime.state, now, preemptive, script, [], None)
    {
      this.runtime, this.connection, this.preemptive := runtime, connection, preemptive;
      this.now, this.script := now, script;
      log, torn, wire := [], None, [];
    }

    /** The bytes sent are those of the completed writes. */
    ghost predicate Valid()
      reads this
    {
      (forall p :: p in log ==> Sendable(p)) && wire == AllWireBytes(log)
    }

    ghost function Abs(): World
      reads this, runtime
    {
      World(runtime.state, now, preemptive, script, log, torn)
    }

    method Pause()
      modifies this`now, this`script, runtime
      ensures Abs() == Elapse(old(Abs()))
    {
      if script != [] {
        runtime.Play(script[0].events);
        now := now + script[0].elapsed;
        script := script[1..];
      }
    }

    /** Others may run here only when threads are preempted between locks. */
    method BeforeLock()
      modifies this`now, this`script, runtime
      ensures Abs() == Lock(old(Abs()))
    {
      if preemptive {
        Pause();
      }
    }

    method Deliver(p: Packet, bytes: seq<Byte>) returns (ok: bool)
      requires Valid() && Sendable(p) && bytes == WireBytes(p)
      modifies this, runtime
      ensures Valid() && (Abs(), ok) == BoundedWrite(old(Abs()), p)
    {
      ok := script == [] || script[0].delivered;
      Pause();
      if ok {
        WireAppend(log, p);
        log, wire := log + [p], wire + bytes;
      } else {
        torn := Some(p);
      }
    }
  }

  class Uplink {
    var epoch: Option<nat>
    var startedEpoch: Option<nat>
    var packets: U32
    var recordingRequest: Option<bool>

    constructor ()
      ensures Abs() == IDLE
    {
      epoch, startedEpoch, packets, recordingRequest := None, None, 0, None;
    }

    ghost function Abs(): Writer
      reads this
    {
      Writer(epoch, startedEpoch, packets, recordingRequest)
    }

    /** A started microphone, or one that is wanted, shortens the keepalive write to the control timeout. */
    method KeepaliveBudget(tls: Tls) returns (milliseconds: nat)
      modifies tls`now, tls`script, tls.runtime
      ensures startedEpoch.Some? ==> milliseconds == 200 && tls.Abs() == old(tls.Abs())
      ensures startedEpoch.None? ==>
                && tls.Abs() == Lock(old(tls.Abs()))
                && milliseconds == match Control(tls.runtime.state, tls.connection)
                                   case Some((true, Some(_))) => 200
                                   case _ => 5000
    {
      if startedEpoch.Some? {
        return 200;
      }
      tls.BeforeLock();
      match Control(tls.runtime.state, tls.connection) {
        case Some((true, Some(_))) => return 200;
        case _ => return 5000;
      }
    }

    method StopMicrophone(tls: Tls) returns (ok: bool)
      requires tls.Valid()
      modifies this, tls, tls.runtime
      ensures tls.Valid() && Outcome(Abs(), tls.Abs(), ok) == SendStop(old(Abs()), old(tls.Abs()))
    {
      ok := tls.Deliver(Stop, STOP);
      if ok {
        startedEpoch := None;
      }
    }

    method ReconcileControl(tls: Tls) returns (ok: bool)
      requires tls.Valid()
      modifies this, tls, tls.runtime
      ensures tls.Valid()
      ensures Outcome(Abs(), tls.Abs(), ok) == Reconcile(old(Abs()), old(tls.Abs()), tls.connection)
    {
      hide Run, RecordingWanted, Control;
      tls.BeforeLock();
      var wanted := RecordingWanted(tls.runtime.state, tls.connection);
      if wanted.Some? && recordingRequest != wanted {
        ok := tls.Deliver(Recording(wanted.value), if wanted.value then SAVE else DISCARD);
        if !ok {
          return;
        }
        recordingRequest := wanted;
      }
      tls.BeforeLock();
      var first := Control(tls.runtime.state, tls.connection);
      if first.None? || !first.value.0 {
        return true;
      }
      if startedEpoch.Some? && startedEpoch != first.value.1 {
        ok := StopMicrophone(tls);
        if !ok {
          return;
        }
      }
      ok := ActivateMicrophone(tls);
    }

    /** The stop may have awaited while ownership changed again, so the desire is read once more. */
    method ActivateMicrophone(tls: Tls) returns (ok: bool)
      requires tls.Valid()
      modifies this, tls, tls.runtime
      ensures tls.Valid()
      ensures Outcome(Abs(), tls.Abs(), ok) == Activate(old(Abs()), Lock(old(tls.Abs())), tls.connection)
    {
      hide Run, Control;
      tls.BeforeLock();
      var second := Control(tls.runtime.state, tls.connection);
      if second.None? || !second.value.0 || second.value.1.None? {
        return true;
      }
      var wantedEpoch := second.value.1.value;
      if startedEpoch == Some(wantedEpoch) {
        return true;
      }
      ok := tls.Deliver(Start(wantedEpoch), START);
      if !ok {
        return;
      }
      startedEpoch := Some(wantedEpoch);
      tls.BeforeLock();
      if Control(tls.runtime.state, tls.connection) != Some((true, Some(wantedEpoch))) {
        ok := StopMicrophone(tls);
      }
    }

    method SendFrame(tls: Tls, frame: Frame) returns (ok: bool)
      requires tls.Valid()
      modifies this, tls, tls.runtime
      ensures tls.Valid()
      ensures Outcome(Abs(), tls.Abs(), ok) == Send(old(Abs()), old(tls.Abs()), tls.connection, frame)
    {
      hide Run, Control, Reconcile, ValidFrame, Adts.WholeFrame, FrameSent;
      ok := ReconcileControl(tls);
      if !ok {
        return;
      }
      tls.BeforeLock();
      if !ValidFrame(tls.runtime.state, tls.connection, frame, tls.now) {
        return true;
      }
      tls.BeforeLock();
      if Control(tls.runtime.state, tls.connection) == Some((true, Some(frame.epoch)))
         && startedEpoch != Some(frame.epoch) {
        return true;
      }
      if epoch != Some(frame.epoch) {
        packets := 0;
        epoch := Some(frame.epoch);
      }
      var candidate := new Adts.AudioPacketWriter();
      candidate.sequence := packets;
      var packet := candidate.AudioFrame(frame.payload);
      if packet.Err? {
        return false;
      }
      ok := WriteAudio(tls, frame, candidate.sequence, packet.value);
    }

    /** The write gets only what is left of the age of the PCM; a number is consumed only by a completed write. */
    method WriteAudio(tls: Tls, frame: Frame, candidate: U32, packet: seq<Byte>) returns (ok: bool)
      requires tls.Valid() && Adts.WholeFrame(frame.payload)
      requires candidate == Adts.Successor(packets) && packet == Adts.AudioPacket(packets, frame.payload)
      modifies this, tls, tls.runtime
      ensures tls.Valid()
      ensures Outcome(Abs(), tls.Abs(), ok) == WriteFrame(old(Abs()), Lock(old(tls.Abs())), tls.connection, frame)
    {
      hide Run, ValidFrame, Adts.WholeFrame, FrameSent, Adts.AudioPacket, Adts.Successor;
      tls.BeforeLock();
      if !ValidFrame(tls.runtime.state, tls.connection, frame, tls.now) {
        return true;
      }
      tls.BeforeLock();
      if !Fresh(frame.created, tls.now) {
        return true;
      }
      var remaining := frame.created + MAX_AUDIO_AGE - tls.now;
      var authorised := ValidFrame(tls.runtime.state, tls.connection, frame, tls.now);
      ok := tls.Deliver(
        Audio(frame.epoch, packets, frame.payload, frame.created, tls.now, remaining, authorised), packet);
      if !ok {
        return;
      }
      packets := candidate;
      tls.BeforeLock();
      tls.runtime.CountSentFrame(tls.connection, frame.epoch);
    }
  }

  class KeepaliveClock {
    var ticks: U32
    var sequence: U32

    constructor ()
      ensures Abs() == Ticker(0, 0)
    {
      ticks, sequence := 0, 0;
    }

    ghost function Abs(): Ticker
      reads this
    {
      Ticker(ticks, sequence)
    }

    /** Every tick reports latency; every tenth is preceded by a numbered keepalive. */
    method SendTick(tls: Tls) returns (ok: bool)
      requires tls.Valid()
      modifies this, tls, tls.runtime
      ensures tls.Valid() && Abs() == NextTick(old(Abs()))
      ensures (tls.Abs(), ok) == BoundedWrite(old(tls.Abs()), TickPacket(Abs()))
    {
      ticks := Adts.Successor(ticks);
      var packet: seq<Byte> := [];
      var beat := None;
      if ticks % 10 == 0 {
        sequence := Adts.Successor(sequence);
        beat := Some(sequence);
        packet := [0x0a] + BigEndian(sequence) + [0, 0, 0, 0];
      }
      packet := packet + LATENCY;
      ok := tls.Deliver(Keepalive(beat), packet);
    }
  }

  method ProcessEvent(tls: Tls, event: Immi.ImmiEvent) returns (ok: bool)
    requires tls.Valid() && !event.Video?
    modifies tls`now, tls`script, tls.runtime
    ensures var locked := Lock(old(tls.Abs()));
            && ok == Current(locked.state, tls.connection)
            && tls.Abs() == if ok then locked.(state := Step(locked.state, Observation(tls.connection, event)))
                            else locked
  {
    hide Run, Publish;
    tls.BeforeLock();
    var r: Result<(), AudioLeaseError>;
    match event {
      case AudioConfig(format) => r := tls.runtime.NoteOffer(tls.connection, format);
      case AudioAvailability(available) => r := tls.runtime.NoteAvailability(tls.connection, available);
      case ProviderRecording(status) => r := tls.runtime.NoteRecording(tls.connection, status);
    }
    ok := r.Ok?;
  }

  /** Provider events change authorisation in the order they arrive. */
  method Process(tls: Tls, events: seq<Immi.ImmiEvent>) returns (ok: bool)
    requires tls.Valid()
    modifies tls`now, tls`script, tls.runtime
    ensures (tls.Abs(), ok) == Observe(old(tls.Abs()), tls.connection, events)
  {
    hide Run, Publish, Step, Lock, Current;
    for i := 0 to |events|
      invariant Observe(old(tls.Abs()), tls.connection, events) == Observe(tls.Abs(), tls.connection, events[i..])
    {
      assert events[i..][1..] == events[i + 1..];
      if !events[i].Video? {
        ok := ProcessEvent(tls, events[i]);
        if !ok {
          return;
        }
      }
    }
    return true;
  }

  /** One wake-up of the event loop; `ok` when the loop goes on. */
  datatype Turn = Turn(writer: Writer, ticker: Ticker, world: World, ok: bool)

  function Woken(u: Writer, k: Ticker, w: World, connection: nat, wake: Wake): Turn {
    match wake
    case Changed => Turn(u, k, w, true)
    case FrameReady(frame) => var sent := Send(u, w, connection, frame); Turn(sent.writer, k, sent.world, sent.ok)
    case Tick =>
      var next := NextTick(k);
      var (after, ok) := BoundedWrite(if u.startedEpoch.Some? then w else Lock(w), TickPacket(next));
      Turn(u, next, after, ok)
    case Heard(events) => var (after, current) := Observe(w, connection, events); Turn(u, k, after, current)
  }

  lemma SessionEnds(u: Writer, k: Ticker, w: World, connection: nat, wakes: seq<Wake>)
    ensures wakes == [] || Control(Lock(w).state, connection).None? ==>
              Session(u, k, w, connection, wakes) == Ended(u, k, Lock(w))
  {
  }

  lemma SessionTurns(u: Writer, k: Ticker, w: World, connection: nat, wakes: seq<Wake>)
    requires wakes != [] && Control(Lock(w).state, connection).Some?
    ensures var r := Reconcile(u, Lock(w), connection);
            if !r.ok then Session(u, k, w, connection, wakes) == Ended(r.writer, k, r.world)
            else
              var t := Woken(r.writer, k, Elapse(r.world), connection, wakes[0]);
              Session(u, k, w, connection, wakes)
              == if t.ok then Session(t.writer, t.ticker, t.world, connection, wakes[1..])
                 else Ended(t.writer, t.ticker, t.world)
  {
    hide Reconcile, Send, Observe, BoundedWrite, NextTick, TickPacket, Lock, Elapse, Control;
  }

  method HandleWake(tls: Tls, uplink: Uplink, clock: KeepaliveClock, wake: Wake) returns (ok: bool)
    requires tls.Valid()
    modifies tls, tls.runtime, uplink, clock
    ensures tls.Valid()
    ensures Turn(uplink.Abs(), clock.Abs(), tls.Abs(), ok)
            == Woken(old(uplink.Abs()), old(clock.Abs()), old(tls.Abs()), tls.connection, wake)
  {
    hide Run, Reconcile, Send, Observe, Control, BoundedWrite, TickPacket, NextTick, Session;
    match wake {
      case Changed => ok := true;
      case FrameReady(frame) => ok := uplink.SendFrame(tls, frame);
      case Tick =>
        var _ := uplink.KeepaliveBudget(tls);
        ok := clock.SendTick(tls);
      case Heard(events) => ok := Process(tls, events);
    }
  }

  /** The event loop of one connection: the only writer of its socket. */
  method ReceiveStream(tls: Tls, uplink: Uplink, clock: KeepaliveClock, wakes: seq<Wake>)
    requires tls.Valid()
    modifies tls, tls.runtime, uplink, clock
    ensures tls.Valid()
    ensures Ended(uplink.Abs(), clock.Abs(), tls.Abs())
            == Session(old(uplink.Abs()), old(clock.Abs()), old(tls.Abs()), tls.connection, wakes)
  {
    hide Run, Reconcile, Woken, Control, Session;
    var i := 0;
    while true
      invariant 0 <= i <= |wakes| && tls.Valid()
      invariant Session(old(uplink.Abs()), old(clock.Abs()), old(tls.Abs()), tls.connection, wakes)
                == Session(uplink.Abs(), clock.Abs(), tls.Abs(), tls.connection, wakes[i..])
      decreases |wakes| - i
    {
      SessionEnds(uplink.Abs(), clock.Abs(), tls.Abs(), tls.connection, wakes[i..]);
      ghost var before := tls.Abs();
      tls.BeforeLock();
      if i == |wakes| || Control(tls.runtime.state, tls.connection).None? {
        return;
      }
      assert wakes[i..][1..] == wakes[i + 1..];
      SessionTurns(uplink.Abs(), clock.Abs(), before, tls.connection, wakes[i..]);
      var ok := uplink.ReconcileControl(tls);
      if !ok {
        return;
      }
      tls.Pause();
      ok := HandleWake(tls, uplink, clock, wakes[i]);
      if !ok {
        return;
      }
      i := i + 1;
    }
  }

  /**
   * A connection from opening to drop, whatever others do meanwhile: its writes are safe, its completed
   * writes are whole frames, and dropping it leaves none of its leases authorised.
   */
  method Serve(runtime: AudioRuntime, policy: Option<bool>, now: nat, preemptive: bool,
               script: seq<Batch>, wakes: seq<Wake>)
    returns (tls: Tls)
    requires Inv(runtime.state)
    modifies runtime
    ensures fresh(tls) && tls.runtime == runtime
    ensures LogSafe(Written(tls.Abs()), policy)
    ensures !preemptive ==> Alternates(Written(tls.Abs())) && NoStaleAudio(Written(tls.Abs()))
    ensures forall p :: p in tls.log ==> Sendable(p)
    ensures Immi.FramesIn(tls.wire) == AllMessages(tls.log) && Immi.Parse(tls.wire).rest == []
    ensures Control(runtime.state, tls.connection).None?
    ensures forall lease: Lease :: lease.generation == tls.connection ==> !Authorised(runtime.state, lease)
  {
    hide Session, Run, Alternates, NoStaleAudio, Inv, LogSafe, AllMessages, Immi.Parse, Immi.FramesIn;
    ConnectionIsSafe(runtime.state, policy, now, preemptive, script, wakes);
    var connection := runtime.ConnectWithPolicy(policy);
    tls := new Tls(runtime, connection, preemptive, now, script);
    var uplink := new Uplink();
    var clock := new KeepaliveClock();
    ReceiveStream(tls, uplink, clock, wakes);
    CompletedPrefixIsSafe(tls.Abs(), policy);
    CompletedWritesParse(tls.log, policy);
    runtime.CloseConnection(connection);
  }

  lemma CompletedPrefixIsSafe(w: World, policy: Option<bool>)
    requires LogSafe(Written(w), policy)
    ensures LogSafe(w.log, policy)
  {
    forall i | 0 <= i < |w.log|
      ensures WriteSafe(w.log[..i], w.log[i], policy)
    {
      assert Written(w)[..i] == w.log[..i] && Written(w)[i] == w.log[i];
    }
  }
}
