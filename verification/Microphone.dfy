/**
 * One microphone epoch: PCM goes to the encoder with the time it was received, and every AAC frame that comes back
 * is dated by the first PCM sample it holds, never by the time it came back.
 */
module Microphone {
  import opened Wrappers
  import opened Bytes
  import opened AudioLease
  import Adts = AdtsFraming

  const PCM_SAMPLES: nat := 512
  const FRAME_SAMPLES: nat := 1024
  const BACKLOG: nat := 4096

  // ---------- reference: one receipt time per queued sample

  /** The encoder's first frame is priming and holds no sample. */
  datatype Fifo = Fifo(queued: seq<nat>, priming: bool)

  datatype Op = Record(samples: nat, at: nat) | Take
  datatype Reply = Accepted | Refused | Primed | Stamp(at: nat)

  const EMPTY_FIFO: Fifo := Fifo([], true)

  function Repeat(at: nat, samples: nat): (times: seq<nat>)
    ensures |times| == samples && forall i :: 0 <= i < samples ==> times[i] == at
  {
    seq(samples, i => at)
  }

  function Apply(f: Fifo, op: Op): (Fifo, Reply) {
    match op
    case Record(samples, at) =>
      if samples == 0 || |f.queued| + samples > BACKLOG then (f, Refused)
      else (f.(queued := f.queued + Repeat(at, samples)), Accepted)
    case Take =>
      if f.priming then (f.(priming := false), Primed)
      else if |f.queued| < FRAME_SAMPLES then (f, Refused)
      else (f.(queued := f.queued[FRAME_SAMPLES..]), Stamp(f.queued[0]))
  }

  function After(f: Fifo, ops: seq<Op>): Fifo
    decreases |ops|
  {
    if ops == [] then f else After(Apply(f, ops[0]).0, ops[1..])
  }

  function Gained(f: Fifo, op: Op): seq<nat> {
    if Apply(f, op).1.Accepted? then Repeat(op.at, op.samples) else []
  }

  function Dated(f: Fifo, op: Op): seq<nat> {
    if Apply(f, op).1.Stamp? then [Apply(f, op).1.at] else []
  }

  /** The receipt time of every accepted sample, in order. */
  function Samples(f: Fifo, ops: seq<Op>): seq<nat>
    decreases |ops|
  {
    if ops == [] then []
    else Gained(f, ops[0]) + Samples(Apply(f, ops[0]).0, ops[1..])
  }

  /** The times returned by the successful takes, in order. */
  function Stamps(f: Fifo, ops: seq<Op>): seq<nat>
    decreases |ops|
  {
    if ops == [] then []
    else Dated(f, ops[0]) + Stamps(Apply(f, ops[0]).0, ops[1..])
  }

  /**
   * No sample is lost or redated: accepted samples are 1024 for each stamped frame plus those still queued, and
   * frame k carries the receipt time of sample 1024 k.
   */
  lemma {:induction false} StampsAreSampleTimes(f: Fifo, ops: seq<Op>)
    ensures var all := f.queued + Samples(f, ops);
            var stamps := Stamps(f, ops);
            && |all| == 1024 * |stamps| + |After(f, ops).queued|
            && all[1024 * |stamps|..] == After(f, ops).queued
            && forall k :: 0 <= k < |stamps| ==> stamps[k] == all[1024 * k]
    decreases |ops|
  {
    if ops == [] {
      assert f.queued + Samples(f, ops) == f.queued && Stamps(f, ops) == [] && After(f, ops) == f;
    } else {
      var (g, reply) := Apply(f, ops[0]);
      var rest := ops[1..];
      StampsAreSampleTimes(g, rest);
      Unfold(f, ops);
      ApplyConserves(f, ops[0]);
      hide *;
      if reply.Stamp? {
        DropThenAppend(f.queued, Samples(g, rest));
        StampedFirst(f.queued + Samples(f, ops), g.queued + Samples(g, rest), Stamps(f, ops), Stamps(g, rest),
                     After(g, rest).queued);
      } else {
        assert f.queued + Samples(f, ops) == g.queued + Samples(g, rest);
      }
    }
  }

  lemma ApplyConserves(f: Fifo, op: Op)
    ensures var (g, reply) := Apply(f, op);
            if reply.Stamp? then
              && |f.queued| >= FRAME_SAMPLES && g.queued == f.queued[FRAME_SAMPLES..]
              && Gained(f, op) == [] && Dated(f, op) == [f.queued[0]]
            else g.queued == f.queued + Gained(f, op) && Dated(f, op) == []
  {
  }

  lemma Unfold(f: Fifo, ops: seq<Op>)
    requires ops != []
    ensures var g := Apply(f, ops[0]).0;
            && After(f, ops) == After(g, ops[1..])
            && Samples(f, ops) == Gained(f, ops[0]) + Samples(g, ops[1..])
            && Stamps(f, ops) == Dated(f, ops[0]) + Stamps(g, ops[1..])
  {
    hide Apply, Gained, Dated;
  }

  lemma DropThenAppend(queued: seq<nat>, left: seq<nat>)
    requires |queued| >= FRAME_SAMPLES
    ensures (queued + left)[FRAME_SAMPLES..] == queued[FRAME_SAMPLES..] + left && (queued + left)[0] == queued[0]
  {
  }

  lemma StampedFirst(all: seq<nat>, later: seq<nat>, stamps: seq<nat>, others: seq<nat>, left: seq<nat>)
    requires |all| >= FRAME_SAMPLES && all[FRAME_SAMPLES..] == later && stamps == [all[0]] + others
    requires |later| == FRAME_SAMPLES * |others| + |left| && later[FRAME_SAMPLES * |others|..] == left
    requires forall k :: 0 <= k < |others| ==> others[k] == later[FRAME_SAMPLES * k]
    ensures |all| == FRAME_SAMPLES * |stamps| + |left| && all[FRAME_SAMPLES * |stamps|..] == left
    ensures forall k :: 0 <= k < |stamps| ==> stamps[k] == all[FRAME_SAMPLES * k]
  {
    assert all[FRAME_SAMPLES * |stamps|..] == later[FRAME_SAMPLES * |others|..];
    forall k | 0 <= k < |stamps|
      ensures stamps[k] == all[FRAME_SAMPLES * k]
    {
      if k > 0 {
        assert others[k - 1] == later[FRAME_SAMPLES * (k - 1)];
      }
    }
  }

  ghost predicate NonDecreasing(times: seq<nat>) {
    forall i, j :: 0 <= i < j < |times| ==> times[i] <= times[j]
  }

  /** Recorded times from `low` on, in the order of a clock that never runs back. */
  predicate ClockOrder(ops: seq<Op>, low: nat)
    decreases |ops|
  {
    ops == []
    || (if ops[0].Record? then low <= ops[0].at && ClockOrder(ops[1..], ops[0].at) else ClockOrder(ops[1..], low))
  }

  lemma {:induction false} SamplesInClockOrder(f: Fifo, ops: seq<Op>, low: nat)
    requires ClockOrder(ops, low)
    ensures NonDecreasing(Samples(f, ops)) && forall t :: t in Samples(f, ops) ==> low <= t
    decreases |ops|
  {
    if ops != [] {
      var g := Apply(f, ops[0]).0;
      SamplesInClockOrder(g, ops[1..], if ops[0].Record? then ops[0].at else low);
      if ops[0].Record? {
        RepeatFirst(ops[0].at, ops[0].samples, Samples(g, ops[1..]));
      }
    }
  }

  lemma RepeatFirst(at: nat, samples: nat, later: seq<nat>)
    requires NonDecreasing(later) && forall t :: t in later ==> at <= t
    ensures NonDecreasing(Repeat(at, samples) + later)
  {
    var all := Repeat(at, samples) + later;
    forall i, j | 0 <= i < j < |all|
      ensures all[i] <= all[j]
    {
      if j >= samples {
        assert all[j] == later[j - samples] && later[j - samples] in later;
        assert i >= samples ==> all[i] == later[i - samples];
      }
    }
  }

  /** From a new queue: takes never go back in time, and the backlog stays bounded. */
  lemma StampsNeverRunBack(ops: seq<Op>)
    requires ClockOrder(ops, 0)
    ensures NonDecreasing(Stamps(EMPTY_FIFO, ops))
    ensures |After(EMPTY_FIFO, ops).queued| <= 4096
  {
    var all := Samples(EMPTY_FIFO, ops);
    var stamps := Stamps(EMPTY_FIFO, ops);
    StampsAreSampleTimes(EMPTY_FIFO, ops);
    assert EMPTY_FIFO.queued + all == all;
    SamplesInClockOrder(EMPTY_FIFO, ops, 0);
    BacklogStaysBounded(EMPTY_FIFO, ops);
    forall i, j | 0 <= i < j < |stamps|
      ensures stamps[i] <= stamps[j]
    {
      assert FRAME_SAMPLES * i < FRAME_SAMPLES * j < |all|;
      assert all[FRAME_SAMPLES * i] <= all[FRAME_SAMPLES * j];
    }
  }

  /** From a new queue the first take is the priming one, and no other is. */
  lemma {:induction false} OnlyFirstTakePrimes(ops: seq<Op>)
    ensures Apply(After(EMPTY_FIFO, ops), Take).1.Primed? <==> Take !in ops
  {
    PrimingUntilTake(EMPTY_FIFO, ops);
  }

  lemma {:induction false} PrimingUntilTake(f: Fifo, ops: seq<Op>)
    ensures After(f, ops).priming <==> f.priming && Take !in ops
    decreases |ops|
  {
    if ops != [] {
      PrimingUntilTake(Apply(f, ops[0]).0, ops[1..]);
      assert Take in ops <==> ops[0] == Take || Take in ops[1..];
    }
  }

  lemma {:induction false} BacklogStaysBounded(f: Fifo, ops: seq<Op>)
    requires |f.queued| <= BACKLOG
    ensures |After(f, ops).queued| <= BACKLOG
    decreases |ops|
  {
    if ops != [] {
      BacklogStaysBounded(Apply(f, ops[0]).0, ops[1..]);
    }
  }

  /**
   * From a new queue: a record is taken iff it is not empty and at most 4096 samples are then queued; a take after the
   * first gives a stamp iff 1024 accepted samples are still undated.
   */
  lemma AcceptedIff(ops: seq<Op>, samples: nat, at: nat)
    ensures var f := After(EMPTY_FIFO, ops);
            var undated := |Samples(EMPTY_FIFO, ops)| - 1024 * |Stamps(EMPTY_FIFO, ops)|;
            && (Apply(f, Record(samples, at)).1.Accepted? <==> 0 < samples <= 4096 - undated)
            && (Apply(f, Record(samples, at)).1 in {Accepted, Refused})
            && (Apply(f, Take).1.Stamp? <==> Take in ops && undated >= 1024)
            && (Take in ops && undated < 1024 ==> Apply(f, Take) == (f, Refused))
  {
    StampsAreSampleTimes(EMPTY_FIFO, ops);
    PrimingUntilTake(EMPTY_FIFO, ops);
    assert EMPTY_FIFO.queued + Samples(EMPTY_FIFO, ops) == Samples(EMPTY_FIFO, ops);
  }

  // ---------- the run-length queue

  datatype Run = Run(samples: nat, at: nat)

  function Flat(pending: seq<Run>): seq<nat> {
    if pending == [] then [] else Repeat(pending[0].at, pending[0].samples) + Flat(pending[1..])
  }

  lemma {:induction false} FlatAppend(pending: seq<Run>, run: Run)
    ensures Flat(pending + [run]) == Flat(pending) + Repeat(run.at, run.samples)
    decreases |pending|
  {
    if pending == [] {
      assert pending + [run] == [run];
    } else {
      assert (pending + [run])[1..] == pending[1..] + [run];
      FlatAppend(pending[1..], run);
    }
  }

  /** Removing samples from the front run removes them from the front of the flat queue. */
  lemma ShortenFront(pending: seq<Run>, consumed: nat)
    requires pending != [] && consumed <= pending[0].samples
    ensures |Flat(pending)| >= pending[0].samples
    ensures var shorter := [Run(pending[0].samples - consumed, pending[0].at)] + pending[1..];
            Flat(shorter) == Flat(pending)[consumed..]
    ensures consumed == pending[0].samples ==> Flat(pending[1..]) == Flat(pending)[consumed..]
  {
    var shorter := [Run(pending[0].samples - consumed, pending[0].at)] + pending[1..];
    assert shorter[1..] == pending[1..];
  }

  datatype AudioError =
    | ProvenanceBudget | MissingProvenance
    | PcmFormat | PcmRate | PcmBacklog | PcmWriteTimeout | EncoderFailed | InvalidAudio | Lost(lease: AudioLeaseError)

  class Provenance {
    var pending: seq<Run>
    var samples: nat
    var priming: bool

    ghost predicate Valid()
      reads this
    {
      && |Flat(pending)| == samples <= BACKLOG
      && forall run :: run in pending ==> run.samples > 0
    }

    ghost function Abs(): Fifo
      reads this
    {
      Fifo(Flat(pending), priming)
    }

    constructor ()
      ensures Valid() && Abs() == EMPTY_FIFO && priming
    {
      pending, samples, priming := [], 0, true;
    }

    method Note(count: nat, created: nat) returns (r: Result<(), AudioError>)
      requires Valid()
      modifies this
      ensures Valid()
      ensures (Abs(), if r.Ok? then Accepted else Refused) == Apply(old(Abs()), Record(count, created))
      ensures r.Err? ==> r.error == ProvenanceBudget
    {
      if count == 0 || samples + count > BACKLOG {
        return Err(ProvenanceBudget);
      }
      FlatAppend(pending, Run(count, created));
      pending := pending + [Run(count, created)];
      samples := samples + count;
      return Ok(());
    }

    method Date() returns (r: Result<Option<nat>, AudioError>)
      requires Valid()
      modifies this
      ensures Valid()
      ensures Abs() == Apply(old(Abs()), Take).0
      ensures match Apply(old(Abs()), Take).1
              case Primed => r == Ok(None)
              case Stamp(at) => r == Ok(Some(at))
              case _ => r == Err(MissingProvenance)
    {
      hide Flat, Repeat, Apply;
      TakeMeans(Abs());
      SamplesMeanRuns(pending);
      if priming {
        priming := false;
        return Ok(None);
      }
      if samples < FRAME_SAMPLES {
        return Err(MissingProvenance);
      }
      var created := pending[0].at;
      FrontIsDated(pending);
      var remaining := FRAME_SAMPLES;
      while remaining > 0
        invariant 0 <= remaining <= FRAME_SAMPLES && !priming
        invariant samples + (FRAME_SAMPLES - remaining) == old(samples)
        invariant Flat(pending) == old(Flat(pending))[FRAME_SAMPLES - remaining..]
        invariant |Flat(pending)| == samples
        invariant forall run :: run in pending ==> run.samples > 0
      {
        SamplesMeanRuns(pending);
        var front := pending[0];
        var consumed := if remaining < front.samples then remaining else front.samples;
        ShortenFront(pending, consumed);
        pending := if front.samples == consumed then pending[1..]
                   else [Run(front.samples - consumed, front.at)] + pending[1..];
        remaining := remaining - consumed;
        samples := samples - consumed;
      }
      return Ok(Some(created));
    }
  }

  lemma SamplesMeanRuns(pending: seq<Run>)
    ensures |Flat(pending)| > 0 ==> |pending| > 0
  {
  }

  lemma TakeMeans(f: Fifo)
    ensures Apply(f, Take)
         == if f.priming then (f.(priming := false), Primed)
            else if |f.queued| < 1024 then (f, Refused)
            else (Fifo(f.queued[1024..], false), Stamp(f.queued[0]))
  {
  }

  lemma FrontIsDated(pending: seq<Run>)
    requires pending != [] && pending[0].samples > 0
    ensures Flat(pending) != [] && Flat(pending)[0] == pending[0].at
  {
  }

  // ---------- the microphone

  /** A frame offered to the connection, with the number of the frame since priming. */
  datatype Handed = Handed(payload: seq<Byte>, created: nat, index: nat, at: nat)

  function SubmitAll(s: State, lease: Lease, handed: seq<Handed>): State {
    if handed == [] then s
    else
      var last := handed[|handed| - 1];
      Submit(SubmitAll(s, lease, handed[..|handed| - 1]), lease, last.payload, last.created, last.at)
  }

  lemma SubmitOneMore(s: State, lease: Lease, handed: seq<Handed>, last: Handed)
    ensures SubmitAll(s, lease, handed + [last])
            == Submit(SubmitAll(s, lease, handed), lease, last.payload, last.created, last.at)
  {
    assert (handed + [last])[..|handed|] == handed;
  }

  /** How many of the offered frames were refused with `error`. */
  function Drops(s: State, lease: Lease, handed: seq<Handed>, error: AudioLeaseError): nat {
    if handed == [] then 0
    else
      var init, last := handed[..|handed| - 1], handed[|handed| - 1];
      Drops(s, lease, init, error)
      + if SubmitError(SubmitAll(s, lease, init), lease, last.payload, last.created, last.at) == Some(error) then 1
        else 0
  }

  lemma NoDrops(s: State, lease: Lease)
    ensures Drops(s, lease, [], Backpressure) == Drops(s, lease, [], Expired) == 0
  {
  }

  lemma DropsOneMore(s: State, lease: Lease, handed: seq<Handed>, last: Handed)
    ensures forall error ::
              var refused := SubmitError(SubmitAll(s, lease, handed), lease, last.payload, last.created, last.at);
              Drops(s, lease, handed + [last], error)
              == Drops(s, lease, handed, error) + if refused == Some(error) then 1 else 0
  {
    hide SubmitError, SubmitAll;
    assert (handed + [last])[..|handed|] == handed;
  }

  /**
   * Offered frames are numbered upwards from `low`; frame n is the encoder's n-th since priming and carries the
   * receipt time of sample 1024 n. `frames` starts with frame `low`, or before it with the priming frame.
   */
  ghost predicate Honest(handed: seq<Handed>, frames: seq<seq<Byte>>, primed: bool, low: nat, high: nat,
                         times: seq<nat>) {
    && low <= high
    && (forall i :: 0 <= i < |handed| ==>
          && low <= handed[i].index < high && FRAME_SAMPLES * handed[i].index < |times|
          && handed[i].created == times[FRAME_SAMPLES * handed[i].index]
          && IsFrame(handed[i], frames, primed, low))
    && (forall i, j :: 0 <= i < j < |handed| ==> handed[i].index < handed[j].index)
  }

  predicate IsFrame(h: Handed, frames: seq<seq<Byte>>, primed: bool, low: nat) {
    var position := h.index - low + if primed then 0 else 1;
    0 <= position < |frames| && h.payload == frames[position]
  }

  lemma FrameAt(h: Handed, frames: seq<seq<Byte>>, primed: bool, low: nat, i: nat)
    requires i < |frames| && h.payload == frames[i] && h.index - low + (if primed then 0 else 1) == i
    ensures IsFrame(h, frames, primed, low)
  {
  }

  lemma NothingHanded(s: State, lease: Lease, frames: seq<seq<Byte>>, primed: bool, low: nat, times: seq<nat>)
    ensures SubmitAll(s, lease, []) == s && Honest([], frames, primed, low, low, times)
  {
  }

  lemma HonestLonger(handed: seq<Handed>, frames: seq<seq<Byte>>, primed: bool, low: nat, high: nat, higher: nat,
                     times: seq<nat>)
    requires Honest(handed, frames, primed, low, high, times) && high <= higher
    ensures Honest(handed, frames, primed, low, higher, times)
  {
    hide IsFrame;
  }

  lemma HonestOneMore(handed: seq<Handed>, last: Handed, frames: seq<seq<Byte>>, primed: bool, low: nat, high: nat,
                      times: seq<nat>)
    requires Honest(handed, frames, primed, low, high, times) && last.index == high
    requires 1024 * high < |times| && last.created == times[1024 * high]
    requires IsFrame(last, frames, primed, low)
    ensures Honest(handed + [last], frames, primed, low, high + 1, times)
  {
    hide IsFrame;
  }

  function Numbers(handed: seq<Handed>): set<nat> {
    set h | h in handed :: h.index
  }

  /** Frame n, dated by its first sample, is fresh when its turn to be checked comes. */
  predicate FreshAt(checks: nat -> nat, primed: bool, low: nat, times: seq<nat>, n: nat)
    requires low <= n
  {
    FRAME_SAMPLES * n < |times| && Fresh(times[FRAME_SAMPLES * n], checks(n - low + if primed then 0 else 1))
  }

  lemma FreshNow(checks: nat -> nat, primed: bool, low: nat, times: seq<nat>, n: nat, i: nat, created: nat)
    requires low <= n && i == n - low + (if primed then 0 else 1)
    requires 1024 * n < |times| && created == times[1024 * n]
    ensures FreshAt(checks, primed, low, times, n) <==> Fresh(created, checks(i))
  {
    hide Fresh;
  }

  /** Of the frames dated so far, exactly those still fresh at their check were offered. */
  ghost predicate FreshOnly(handed: seq<Handed>, checks: nat -> nat, primed: bool, low: nat, high: nat,
                            times: seq<nat>) {
    forall n :: low <= n < high ==> (n in Numbers(handed) <==> FreshAt(checks, primed, low, times, n))
  }

  lemma NumbersAppend(handed: seq<Handed>, offers: seq<Handed>)
    ensures Numbers(handed + offers) == Numbers(handed) + Numbers(offers)
  {
    forall n
      ensures n in Numbers(handed + offers) <==> n in Numbers(handed) || n in Numbers(offers)
    {
      if h :| h in handed && h.index == n {
        assert h in handed + offers;
      } else if h :| h in offers && h.index == n {
        assert h in handed + offers;
      }
    }
  }

  lemma NumbersBelow(handed: seq<Handed>, frames: seq<seq<Byte>>, primed: bool, low: nat, high: nat, times: seq<nat>)
    requires Honest(handed, frames, primed, low, high, times)
    ensures high !in Numbers(handed)
  {
    hide IsFrame;
  }

  lemma OneMoreDated(handed: seq<Handed>, offers: seq<Handed>, checks: nat -> nat, primed: bool, low: nat, high: nat,
                     times: seq<nat>, frames: seq<seq<Byte>>)
    requires Honest(handed, frames, primed, low, high, times) && FreshOnly(handed, checks, primed, low, high, times)
    requires if FreshAt(checks, primed, low, times, high) then |offers| == 1 && offers[0].index == high
             else offers == []
    ensures FreshOnly(handed + offers, checks, primed, low, high + 1, times)
  {
    NumbersAppend(handed, offers);
    NumbersBelow(handed, frames, primed, low, high, times);
    assert Numbers(offers) == if offers == [] then {} else {high};
    hide FreshAt, Honest, Numbers;
  }

  lemma NoneDated(checks: nat -> nat, primed: bool, low: nat, times: seq<nat>)
    ensures FreshOnly([], checks, primed, low, low, times)
  {
  }

  datatype Encoder = Took | TimedOut | Broken

  class MicrophoneEpoch {
    const runtime: AudioRuntime
    const lease: Lease
    const decoder: Adts.AdtsDecoder
    const provenance: Provenance
    var samplesIn: nat
    var droppedStale: nat
    var droppedFull: nat
    ghost var sampleTimes: seq<nat> // receipt time of every PCM sample the encoder took
    ghost var dated: nat            // frames dated since the priming frame

    constructor (runtime: AudioRuntime, lease: Lease)
      ensures Valid() && this.runtime == runtime && this.lease == lease && samplesIn == 0 && provenance.priming
      ensures droppedStale == droppedFull == 0
      ensures fresh(decoder) && fresh(provenance)
    {
      this.runtime, this.lease := runtime, lease;
      decoder := new Adts.AdtsDecoder();
      provenance := new Provenance();
      samplesIn, droppedStale, droppedFull := 0, 0, 0;
      sampleTimes, dated := [], 0;
    }

    /** Frame n since priming starts at sample 1024 n: the queue is what lies beyond the last dated frame. */
    ghost predicate Valid()
      reads `samplesIn, `sampleTimes, `dated, decoder, provenance
    {
      && decoder.Valid() && provenance.Valid()
      && samplesIn == |sampleTimes| == FRAME_SAMPLES * dated + provenance.samples
      && provenance.Abs().queued == sampleTimes[FRAME_SAMPLES * dated..]
    }

    /** One PCM packet. Once its guards pass, recording its provenance cannot fail. */
    method Pcm(bytes: seq<Byte>, created: nat, elapsedMillis: nat, encoder: Encoder) returns (r: Result<(), AudioError>)
      requires Valid()
      modifies this`samplesIn, this`sampleTimes, provenance
      ensures Valid()
      ensures r.Ok? <==>
                && |bytes| == 1024
                && old(samplesIn) + 512 <= 16 * elapsedMillis + 1024
                && old(provenance.samples) + 512 <= 4096
                && encoder.Took?
      ensures r.Ok? ==> sampleTimes == old(sampleTimes) + Repeat(created, 512)
      ensures r.Err? ==> sampleTimes == old(sampleTimes) && provenance.Abs() == old(provenance.Abs())
      ensures r.Err? ==> r.error in {PcmFormat, PcmRate, PcmBacklog, PcmWriteTimeout, EncoderFailed}
    {
      if |bytes| != 2 * PCM_SAMPLES {
        return Err(PcmFormat);
      }
      if samplesIn + PCM_SAMPLES > elapsedMillis * 16 + 2 * PCM_SAMPLES {
        return Err(PcmRate);
      }
      if provenance.samples + PCM_SAMPLES > BACKLOG {
        return Err(PcmBacklog);
      }
      if encoder.TimedOut? {
        return Err(PcmWriteTimeout);
      }
      if encoder.Broken? {
        return Err(EncoderFailed);
      }
      r := provenance.Note(PCM_SAMPLES, created);
      if r.Err? {
        return;
      }
      samplesIn := samplesIn + PCM_SAMPLES;
      sampleTimes := sampleTimes + Repeat(created, PCM_SAMPLES);
    }

    /** What the decoder makes of everything it has been given so far. */
    ghost function Frames(chunk: seq<Byte>): seq<seq<Byte>>
      requires Valid()
      reads `samplesIn, `sampleTimes, `dated, decoder, provenance
    {
      Adts.Split(decoder.buffer + chunk).frames
    }

    /**
     * Encoder output. `handed` lists the frames offered to the connection: each is dated by the receipt of the PCM
     * sample it starts with and goes out in order under this epoch's lease.
     */
    method Forward(chunk: seq<Byte>, checks: nat -> nat, submits: nat -> nat)
      returns (r: Result<(), AudioError>, ghost handed: seq<Handed>)
      requires Valid()
      modifies this`droppedStale, this`droppedFull, this`dated, provenance, decoder, runtime
      ensures Valid() && sampleTimes == old(sampleTimes)
      ensures runtime.state == SubmitAll(old(runtime.state), lease, handed)
      ensures Honest(handed, old(Frames(chunk)), !old(provenance.priming), old(dated), dated, sampleTimes)
      ensures FreshOnly(handed, checks, !old(provenance.priming), old(dated), dated, sampleTimes)
      ensures droppedFull == old(droppedFull) + Drops(old(runtime.state), lease, handed, Backpressure)
      ensures droppedStale
              == old(droppedStale) + (dated - old(dated) - |handed|) + Drops(old(runtime.state), lease, handed, Expired)
      ensures chunk == [] ==> r.Err? && handed == []
      ensures r.Ok? ==>
                |old(Frames(chunk))|
                == dated - old(dated) + (if old(provenance.priming) && !provenance.priming then 1 else 0)
    {
      hide *;
      handed := [];
      ghost var primed := !provenance.priming;
      NothingHanded(runtime.state, lease, Frames(chunk), primed, dated, sampleTimes);
      NoDrops(runtime.state, lease);
      NoneDated(checks, primed, dated, sampleTimes);
      if chunk == [] {
        return Err(EncoderFailed), handed;
      }
      var pushed := Decode(chunk);
      if pushed.Err? {
        return Err(InvalidAudio), handed;
      }
      var frames := pushed.value;
      for i := 0 to |frames|
        invariant Valid() && sampleTimes == old(sampleTimes)
        invariant provenance.priming == (!primed && i == 0)
        invariant dated - old(dated) + (if primed || i == 0 then 0 else 1) == i
        invariant runtime.state == SubmitAll(old(runtime.state), lease, handed)
        invariant Honest(handed, frames, primed, old(dated), dated, sampleTimes)
        invariant FreshOnly(handed, checks, primed, old(dated), dated, sampleTimes)
        invariant droppedFull == old(droppedFull) + Drops(old(runtime.state), lease, handed, Backpressure)
        invariant droppedStale
                  == old(droppedStale) + (dated - old(dated) - |handed|)
                     + Drops(old(runtime.state), lease, handed, Expired)
      {
        ghost var next := dated;
        var date := DateFrame();
        HonestLonger(handed, frames, primed, old(dated), next, dated, sampleTimes);
        if date.Err? {
          return Err(date.error), handed;
        }
        if date.value.Some? {
          var created := date.value.value;
          FreshNow(checks, primed, old(dated), sampleTimes, next, i, created);
          if !Fresh(created, checks(i)) {
            OneMoreDated(handed, [], checks, primed, old(dated), next, sampleTimes, frames);
            assert handed + [] == handed;
            droppedStale := droppedStale + 1;
          } else {
            ghost var offer := Handed(frames[i], created, next, submits(i));
            assert IsFrame(offer, frames, primed, old(dated)) by { FrameAt(offer, frames, primed, old(dated), i); }
            OneMoreDated(handed, [offer], checks, primed, old(dated), next, sampleTimes, frames);
            SubmitOneMore(old(runtime.state), lease, handed, offer);
            DropsOneMore(old(runtime.state), lease, handed, offer);
            HonestOneMore(handed, offer, frames, primed, old(dated), next, sampleTimes);
            handed := handed + [offer];
            r := Offer(frames[i], created, submits(i));
            if r.Err? {
              return;
            }
          }
        }
      }
      r := Ok(());
    }

    method Decode(chunk: seq<Byte>) returns (r: Result<seq<seq<Byte>>, Adts.AudioWireError>)
      requires Valid()
      modifies decoder
      ensures Valid()
      ensures r.Ok? ==> !old(decoder.failed) && r.value == old(Frames(chunk))
    {
      r := decoder.Push(chunk);
    }

    /** Full queues and expiry only drop the frame; a lost lease ends the microphone. */
    method Offer(payload: seq<Byte>, created: nat, at: nat) returns (r: Result<(), AudioError>)
      requires Valid()
      modifies this`droppedStale, this`droppedFull, runtime
      ensures Valid() && runtime.state == Submit(old(runtime.state), lease, payload, created, at)
      ensures var error := SubmitError(old(runtime.state), lease, payload, created, at);
              && (r.Err? <==> error.Some? && error.value !in {Backpressure, Expired})
              && droppedFull == old(droppedFull) + (if error == Some(Backpressure) then 1 else 0)
              && droppedStale == old(droppedStale) + (if error == Some(Expired) then 1 else 0)
    {
      hide Submit, SubmitError;
      var sent := runtime.SubmitFrame(lease, payload, created, at);
      if sent.Err? {
        match sent.error {
          case Backpressure => droppedFull := droppedFull + 1;
          case Expired => droppedStale := droppedStale + 1;
          case _ => return Err(Lost(sent.error));
        }
      }
      return Ok(());
    }

    /** Dates the next frame by its first sample; the priming frame has none. */
    method DateFrame() returns (date: Result<Option<nat>, AudioError>)
      requires Valid()
      modifies this`dated, provenance
      ensures Valid()
      ensures date.Ok? && date.value.Some? ==>
                && dated == old(dated) + 1 && 1024 * old(dated) < |sampleTimes|
                && date.value.value == sampleTimes[1024 * old(dated)]
      ensures date.Err? || date.value.None? ==> dated == old(dated)
      ensures date.Ok? && date.value.None? <==> old(provenance.priming)
      ensures !provenance.priming
      ensures date.Err? ==> old(provenance.samples) < FRAME_SAMPLES
    {
      ghost var queued := provenance.Abs().queued;
      date := provenance.Date();
      if date.Ok? && date.value.Some? {
        dated := dated + 1;
        assert provenance.Abs().queued == queued[FRAME_SAMPLES..];
        assert sampleTimes[FRAME_SAMPLES * dated..] == sampleTimes[FRAME_SAMPLES * (dated - 1)..][FRAME_SAMPLES..];
      }
    }
  }
}
