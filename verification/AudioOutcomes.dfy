/**
 * From what viewers and the provider ask for to the bytes on the wire: SAVE or DISCARD for the last recording request,
 * START and STOP for the owner of the microphone, and what a message of the provider changes.
 */
module AudioOutcomes {
  import opened Wrappers
  import opened Bytes
  import opened AudioLease
  import opened AudioUplink
  import opened AudioTransport
  import Adts = AdtsFraming
  import Immi = ImmiFraming

  /** The bytes that switch the microphone: STOP for an owner that is gone, START for a new one. */
  function Switching(s: State, started: Option<nat>): seq<Byte> {
    if s.multiClient != Some(true) then []
    else
      var wanted := if s.owned && s.available == Some(true) then Some(s.epoch) else None;
      (if started.Some? && started != wanted then [0x17, 0, 0, 0, 4, 0, 0, 0, 0] else [])
      + (if wanted.Some? && started != wanted then [0x17, 0, 0, 0, 3, 0, 0, 0, 0] else [])
  }

  /** Undisturbed, a reconciliation of the current connection writes just these bytes. */
  lemma ReconcileWrites(u: Writer, w: World, connection: nat)
    requires w.script == [] && w.state.generation == connection && w.state.sender.Some?
    requires forall p :: p in w.log ==> Sendable(p)
    ensures var r := Reconcile(u, w, connection);
            var asked := w.state.recordingRequest;
            && r.ok && (forall p :: p in r.world.log ==> Sendable(p))
            && AllWireBytes(r.world.log)
               == AllWireBytes(w.log)
                  + (if asked.Some? && u.recordingRequest != asked
                     then [0x17, 0, 0, 0, if asked.value then 1 else 2, 0, 0, 0, 0] else [])
                  + Switching(w.state, u.startedEpoch)
            && (u.recordingRequest == LastRecording(w.log) && asked.Some? ==> LastRecording(r.world.log) == asked)
  {
    hide Reconcile, AllWireBytes;
    UndisturbedReconcile(u, w, connection);
    var recording, controls := RecordingDue(u, w.state, connection), ControlsDue(u, w.state, connection);
    DueBytes(u, w.state, connection);
    BytesAppend(w.log, recording);
    BytesAppend(w.log + recording, controls);
    RecordingStays(w.log, recording, controls);
  }

  lemma {:induction false} BytesAppend(log: seq<Packet>, more: seq<Packet>)
    requires forall p :: p in log + more ==> Sendable(p)
    ensures (forall p :: p in log ==> Sendable(p)) && forall p :: p in more ==> Sendable(p)
    ensures AllWireBytes(log + more) == AllWireBytes(log) + AllWireBytes(more)
    decreases |more|
  {
    hide WireBytes, Sendable;
    assert forall p :: p in log ==> p in log + more;
    assert forall p :: p in more ==> p in log + more;
    if more == [] {
      assert log + more == log;
    } else {
      var n := |more| - 1;
      assert log + more == (log + more[..n]) + [more[n]] && more == more[..n] + [more[n]];
      BytesAppend(log, more[..n]);
      WireAppend(log + more[..n], more[n]);
      WireAppend(more[..n], more[n]);
    }
  }

  lemma OneWrite(p: Packet)
    requires Sendable(p)
    ensures AllWireBytes([p]) == WireBytes(p)
  {
    hide WireBytes, Sendable;
    assert AllWireBytes([p]) == WireBytes(p) + AllWireBytes([]);
  }

  lemma DueBytes(u: Writer, s: State, connection: nat)
    requires s.generation == connection && s.sender.Some?
    ensures var asked := s.recordingRequest;
            RecordingDue(u, s, connection)
            == if asked.Some? && u.recordingRequest != asked then [Recording(asked.value)] else []
    ensures forall p :: p in RecordingDue(u, s, connection) + ControlsDue(u, s, connection) ==> Sendable(p)
    ensures forall p :: p in ControlsDue(u, s, connection) ==> p.Start? || p.Stop?
    ensures AllWireBytes(RecordingDue(u, s, connection))
         == if s.recordingRequest.Some? && u.recordingRequest != s.recordingRequest
            then [0x17, 0, 0, 0, if s.recordingRequest.value then 1 else 2, 0, 0, 0, 0] else []
    ensures AllWireBytes(ControlsDue(u, s, connection)) == Switching(s, u.startedEpoch)
  {
    OneWrite(Recording(true));
    OneWrite(Recording(false));
    OneWrite(Stop);
    OneWrite(Start(s.epoch));
    BytesAppend([Stop], [Start(s.epoch)]);
    hide AllWireBytes;
  }

  lemma RecordingStays(log: seq<Packet>, recording: seq<Packet>, controls: seq<Packet>)
    requires |recording| <= 1
    requires (forall p :: p in recording ==> p.Recording?) && forall p :: p in controls ==> p.Start? || p.Stop?
    ensures LastRecording(log + recording + controls)
         == if recording == [] then LastRecording(log) else Some(recording[0].save)
  {
    if recording == [] {
      assert log + recording == log;
    } else {
      assert recording == [recording[0]];
      LastOneMore(log, recording[0]);
    }
    ControlsLeaveRecording(log + recording, controls);
  }

  lemma {:induction false} ControlsLeaveRecording(log: seq<Packet>, controls: seq<Packet>)
    requires forall p :: p in controls ==> p.Start? || p.Stop?
    ensures LastRecording(log + controls) == LastRecording(log)
    decreases |controls|
  {
    if controls == [] {
      assert log + controls == log;
    } else {
      var n := |controls| - 1;
      ControlsLeaveRecording(log, controls[..n]);
      assert controls[n] in controls && log + controls == (log + controls[..n]) + [controls[n]];
      LastOneMore(log + controls[..n], controls[n]);
    }
  }

  lemma LastOneMore(log: seq<Packet>, p: Packet)
    ensures LastRecording(log + [p]) == if p.Recording? then Some(p.save) else LastRecording(log)
  {
    assert (log + [p])[..|log|] == log;
  }

  /**
   * In every reachable state: undisturbed, a reconciliation of the current connection leaves the last SAVE or DISCARD
   * request since it was opened as the last one on the wire, and writes it exactly when it was not; the bytes are SAVE
   * iff it was a request to save.
   */
  lemma RequestReachesTheWire(events: seq<Event>, u: Writer, w: World, connection: nat)
    requires w.state == Run(INITIAL, events) && w.script == []
    requires w.state.generation == connection && w.state.sender.Some?
    requires (forall p :: p in w.log ==> Sendable(p)) && u.recordingRequest == LastRecording(w.log)
    requires LastSave(events).Some?
    ensures var r := Reconcile(u, w, connection);
            var save := LastSave(events).value;
            && r.ok && LastRecording(r.world.log) == Some(save)
            && (forall p :: p in r.world.log ==> Sendable(p))
            && AllWireBytes(r.world.log)
               == AllWireBytes(w.log)
                  + (if LastRecording(w.log) == Some(save) then []
                     else if save then [0x17, 0, 0, 0, 1, 0, 0, 0, 0] else [0x17, 0, 0, 0, 2, 0, 0, 0, 0])
                  + Switching(w.state, u.startedEpoch)
  {
    hide Run, Reconcile, AllWireBytes, Switching, LastSave, LastRecording;
    FieldsAreHistory(events);
    ReconcileWrites(u, w, connection);
  }

  // ---------- the microphone, from the claim to the wire

  /**
   * A viewer claims the microphone of a current multi-client connection: the next reconciliation, undisturbed, writes
   * START, after a STOP if an earlier owner's START is still open; and when the viewer lets go, the one after it writes
   * STOP.
   */
  lemma ClaimReachesTheWire(s: State, u: Writer, w: World, connection: nat)
    requires s.generation == connection && s.sender.Some? && s.multiClient == Some(true) && s.recordingRequest.None?
    requires ClaimError(s).None? && w.state == Claim(s) && w.script == []
    requires (forall p :: p in w.log ==> Sendable(p)) && (u.startedEpoch.Some? ==> u.startedEpoch.value <= s.epoch)
    ensures var START, STOP: seq<Byte> := [0x17, 0, 0, 0, 3, 0, 0, 0, 0], [0x17, 0, 0, 0, 4, 0, 0, 0, 0];
            var claimed := Reconcile(u, w, connection);
            var released := claimed.world.(state := DropLease(claimed.world.state, Granted(s)));
            var ended := Reconcile(claimed.writer, released, connection);
            && claimed.ok && ended.ok
            && (forall p :: p in claimed.world.log + ended.world.log ==> Sendable(p))
            && AllWireBytes(claimed.world.log)
               == AllWireBytes(w.log) + (if u.startedEpoch.Some? then STOP else []) + START
            && AllWireBytes(ended.world.log) == AllWireBytes(claimed.world.log) + STOP
  {
    hide Reconcile, AllWireBytes;
    ReconcileWrites(u, w, connection);
    UndisturbedReconcile(u, w, connection);
    var claimed := Reconcile(u, w, connection);
    var released := claimed.world.(state := DropLease(claimed.world.state, Granted(s)));
    ReconcileWrites(claimed.writer, released, connection);
    assert claimed.writer.startedEpoch == Some(s.epoch + 1);
    var bytes := AllWireBytes(w.log);
    assert bytes + [] == bytes && AllWireBytes(claimed.world.log) + [] == AllWireBytes(claimed.world.log);
  }

  /**
   * What one message of the provider changes, undisturbed: on the current connection an offer sets the format, a grant
   * or refusal the availability, a report the state of the recording; a refusal, and an offer that differs, end an
   * ownership of a multi-client connection. On any other connection nothing changes and the loop ends.
   */
  lemma MessageIsObserved(w: World, connection: nat, e: Immi.ImmiEvent)
    requires w.script == []
    ensures var (after, current) := Observe(w, connection, [e]);
            var s, t := w.state, after.state;
            && after == w.(state := t)
            && (current <==> e.Video? || (s.generation == connection && s.sender.Some?))
            && (e.Video? || !current ==> t == s)
            && (current && e.AudioConfig? ==>
                  t.format == Some(e.format) && (t.owned <==> s.owned && s.format == Some(e.format)))
            && (current && e.AudioAvailability? ==>
                  && t.available == Some(e.available)
                  && (s.multiClient == Some(true) && s.available != Some(e.available) ==>
                        (t.owned <==> s.owned && e.available)))
            && (current && e.ProviderRecording? ==> t.recordingStatus == Some(e.status) && t.owned == s.owned)
  {
    assert [e][1..] == [];
  }

  // ---------- packets and ticks

  /** The bytes of an AAC packet: 0x05, its number and its length, then the frame without its buffer fullness. */
  lemma AudioBytes(number: U32, payload: seq<Byte>, epoch: nat, created: nat, begun: nat, budget: nat, authorised: bool)
    requires Adts.WholeFrame(payload)
    ensures var five: int, six: int := payload[5] / 32 * 32, payload[6] % 4;
            var size := |payload|;
            WireBytes(Audio(epoch, number, payload, created, begun, budget, authorised))
            == [0x05, number / 0x100_0000, number / 0x1_0000 % 0x100, number / 0x100 % 0x100, number % 0x100,
                0, 0, size / 0x100, size % 0x100]
               + payload[..5] + [five, six] + payload[7..]
  {
    var five: int, six: int := payload[5] / 32 * 32, payload[6] % 4;
    var size: U32 := |payload|;
    assert size / 0x100_0000 == 0 && size / 0x1_0000 % 0x100 == 0 && size / 0x100 % 0x100 == size / 0x100;
    assert payload[5 := five][6 := six] == payload[..5] + [five, six] + payload[7..];
  }

  function Ticked(k: Ticker, n: nat): Ticker {
    if n == 0 then k else NextTick(Ticked(k, n - 1))
  }

  lemma {:induction false} TicksCount(n: nat)
    requires n < 0x1_0000_0000
    ensures Ticked(Ticker(0, 0), n) == Ticker(n, n / 10)
    decreases n
  {
    hide NextTick;
    if n > 0 {
      TicksCount(n - 1);
      TenMakeOne(n);
      OneTick(n - 1, (n - 1) / 10);
    }
  }

  lemma OneTick(ticks: U32, sequence: U32)
    requires ticks < 0xffff_ffff && sequence <= ticks
    ensures NextTick(Ticker(ticks, sequence))
         == Ticker(ticks + 1, if (ticks + 1) % 10 == 0 then sequence + 1 else sequence)
  {
  }

  lemma TenMakeOne(n: nat)
    requires n > 0
    ensures n / 10 == (n - 1) / 10 + if n % 10 == 0 then 1 else 0
  {
  }

  /**
   * Tick n of a connection is number n, and every tenth carries a keepalive with the number n / 10; the bytes are the
   * keepalive, if any, and a latency report of 1000 milliseconds.
   */
  lemma TickIsNumbered(n: nat)
    requires 0 < n < 0x1_0000_0000
    ensures Ticked(Ticker(0, 0), n) == Ticker(n, n / 10)
    ensures var beat := n / 10;
            WireBytes(TickPacket(Ticked(Ticker(0, 0), n)))
            == (if n % 10 == 0
                then [0x0a, beat / 0x100_0000, beat / 0x1_0000 % 0x100, beat / 0x100 % 0x100, beat % 0x100, 0, 0, 0, 0]
                else [])
               + [0x12, 0, 0, 3, 0xe8, 0, 0, 0, 0x18] + seq(24, _ => 0)
  {
    hide Ticked;
    TicksCount(n);
    assert [0x12, 0, 0, 3, 0xe8, 0, 0, 0, 0x18] + seq(24, _ => 0) == LATENCY;
    var beat := if n % 10 == 0
                then [0x0a, n / 10 / 0x100_0000, n / 10 / 0x1_0000 % 0x100, n / 10 / 0x100 % 0x100, n / 10 % 0x100,
                      0, 0, 0, 0]
                else [];
    assert beat + ([0x12, 0, 0, 3, 0xe8, 0, 0, 0, 0x18] + seq(24, _ => 0))
        == beat + [0x12, 0, 0, 3, 0xe8, 0, 0, 0, 0x18] + seq(24, _ => 0);
  }
}
