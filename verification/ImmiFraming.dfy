/** Incremental IMMI decoding, checked against a one-shot parse of the whole stream. */
module ImmiFraming {
  import opened Wrappers
  import opened Bytes

  const MAX_PACKET_BYTES: nat := 4 * 1024 * 1024
  const HEADER_BYTES: nat := 9
  const VIDEO_MESSAGE: Byte := 0x00
  const MPEG_TS_SYNC: Byte := 0x47

  datatype ImmiEvent =
    | Video(payload: seq<Byte>)
    | AudioConfig(format: U32)
    | AudioAvailability(available: bool)
    | ProviderRecording(status: Byte)

  datatype FramingError = Oversized | Truncated

  /** A decoded header: message kind, command value and payload length. */
  datatype Header = Header(kind: Byte, value: U32, length: U32)

  datatype Frame = Frame(kind: Byte, value: U32, payload: seq<Byte>)

  predicate Fits(frame: Frame) {
    |frame.payload| <= MAX_PACKET_BYTES
  }

  function HeaderOf(s: seq<Byte>): Header
    requires |s| >= HEADER_BYTES
  {
    Header(s[0], FromBigEndian(s[1..5]), FromBigEndian(s[5..9]))
  }

  function HeaderBytes(h: Header): (s: seq<Byte>)
    ensures |s| == HEADER_BYTES
  {
    [h.kind] + BigEndian(h.value) + BigEndian(h.length)
  }

  function Encode(frame: Frame): seq<Byte>
    requires Fits(frame)
  {
    var length: int := |frame.payload|;
    HeaderBytes(Header(frame.kind, frame.value, length)) + frame.payload
  }

  /** The event, if any, that one complete frame stands for. */
  function Classify(kind: Byte, value: U32, payload: seq<Byte>): seq<ImmiEvent> {
    if kind == VIDEO_MESSAGE && payload != [] && payload[0] == MPEG_TS_SYNC then [Video(payload)]
    else if kind == 0x0c && payload == [] then [AudioConfig(value)]
    else if kind == 0x18 && (value == 4 || value == 5) then [AudioAvailability(value == 4)]
    else if kind == 0x18 && 1 <= value <= 3 then [ProviderRecording(value)]
    else []
  }

  // ---------- the reference: one recursive parse of a complete byte string

  /** What stands at the front of a byte string. */
  datatype Front = Incomplete | TooLong | Whole(frame: Frame, tail: seq<Byte>)

  function Next(s: seq<Byte>): (front: Front)
    ensures front.Whole? ==> Fits(front.frame) && |front.tail| < |s|
  {
    if |s| < HEADER_BYTES then Incomplete
    else
      var h := HeaderOf(s);
      if h.length > MAX_PACKET_BYTES then TooLong
      else if |s| < HEADER_BYTES + h.length then Incomplete
      else Whole(Frame(h.kind, h.value, s[HEADER_BYTES..HEADER_BYTES + h.length]), s[HEADER_BYTES + h.length..])
  }

  datatype Parsed = Parsed(events: seq<ImmiEvent>, rest: seq<Byte>, oversized: bool)

  function Parse(s: seq<Byte>): Parsed
    decreases |s|
  {
    match Next(s)
    case Incomplete => Parsed([], s, false)
    case TooLong => Parsed([], s, true)
    case Whole(frame, tail) => var p := Parse(tail); p.(events := Events(frame) + p.events)
  }

  function Events(frame: Frame): seq<ImmiEvent> {
    Classify(frame.kind, frame.value, frame.payload)
  }

  /** The complete frames at the front of a byte string. */
  function FramesIn(s: seq<Byte>): seq<Frame>
    decreases |s|
  {
    var front := Next(s);
    if front.Whole? then [front.frame] + FramesIn(front.tail) else []
  }

  function EncodeAll(frames: seq<Frame>): seq<Byte>
    requires forall f :: f in frames ==> Fits(f)
  {
    if frames == [] then [] else Encode(frames[0]) + EncodeAll(frames[1..])
  }

  function ClassifyAll(frames: seq<Frame>): seq<ImmiEvent> {
    if frames == [] then [] else Events(frames[0]) + ClassifyAll(frames[1..])
  }

  lemma HeaderRoundTrip(h: Header, tail: seq<Byte>)
    ensures HeaderOf(HeaderBytes(h) + tail) == h
  {
    var s := HeaderBytes(h) + tail;
    assert s[1..5] == BigEndian(h.value);
    assert s[5..9] == BigEndian(h.length);
    BigEndianInverse(h.value);
    BigEndianInverse(h.length);
  }

  lemma HeaderBytesRoundTrip(s: seq<Byte>)
    requires |s| >= HEADER_BYTES
    ensures HeaderBytes(HeaderOf(s)) == s[..HEADER_BYTES]
  {
    FromBigEndianInverse(s[1..5]);
    FromBigEndianInverse(s[5..9]);
    assert s[..HEADER_BYTES] == [s[0]] + s[1..5] + s[5..9];
  }

  lemma NextShort(s: seq<Byte>)
    requires |s| < HEADER_BYTES
    ensures Next(s).Incomplete?
  {
  }

  lemma NextAppend(s: seq<Byte>, t: seq<Byte>)
    ensures Next(s).TooLong? ==> Next(s + t).TooLong?
    ensures Next(s).Whole? ==> Next(s + t) == Whole(Next(s).frame, Next(s).tail + t)
  {
    if |s| >= HEADER_BYTES {
      var h := HeaderOf(s);
      assert (s + t)[1..5] == s[1..5] && (s + t)[5..9] == s[5..9];
      assert HeaderOf(s + t) == h;
      var cut := HEADER_BYTES + h.length;
      if |s| >= cut {
        assert (s + t)[cut..] == s[cut..] + t;
        assert (s + t)[HEADER_BYTES..cut] == s[HEADER_BYTES..cut];
      }
    }
  }

  /** The front of a stream in terms of its decoded header and what follows that header. */
  lemma NextAfterHeader(h: Header, body: seq<Byte>)
    ensures Next(HeaderBytes(h) + body)
            == if h.length > MAX_PACKET_BYTES then TooLong
               else if |body| < h.length then Incomplete
               else Whole(Frame(h.kind, h.value, body[..h.length]), body[h.length..])
  {
    var s := HeaderBytes(h) + body;
    HeaderRoundTrip(h, body);
    if h.length <= |body| {
      assert s[HEADER_BYTES..HEADER_BYTES + h.length] == body[..h.length];
      assert s[HEADER_BYTES + h.length..] == body[h.length..];
    }
  }

  lemma HeaderSplit(s: seq<Byte>)
    requires |s| >= HEADER_BYTES
    ensures s == HeaderBytes(HeaderOf(s)) + s[HEADER_BYTES..]
  {
    HeaderBytesRoundTrip(s);
  }

  lemma NextEncoded(frame: Frame, tail: seq<Byte>)
    requires Fits(frame)
    ensures Next(Encode(frame) + tail) == Whole(frame, tail)
  {
    var length: int := |frame.payload|;
    var h := Header(frame.kind, frame.value, length);
    NextAfterHeader(h, frame.payload + tail);
    assert Encode(frame) + tail == HeaderBytes(h) + (frame.payload + tail);
    assert (frame.payload + tail)[..|frame.payload|] == frame.payload;
    assert (frame.payload + tail)[|frame.payload|..] == tail;
  }

  lemma NextDecoded(s: seq<Byte>)
    requires Next(s).Whole?
    ensures s == Encode(Next(s).frame) + Next(s).tail
  {
    HeaderBytesRoundTrip(s);
    var cut := HEADER_BYTES + HeaderOf(s).length;
    assert s == s[..HEADER_BYTES] + s[HEADER_BYTES..cut] + s[cut..];
  }

  lemma ParseStops(s: seq<Byte>)
    requires !Next(s).Whole?
    ensures Parse(s) == Parsed([], s, Next(s).TooLong?)
  {
  }

  lemma ParseOne(s: seq<Byte>, before: seq<ImmiEvent>, frame: Frame, tail: seq<Byte>)
    requires Next(s) == Whole(frame, tail)
    ensures before + Parse(s).events == (before + Events(frame)) + Parse(tail).events
    ensures Parse(s).rest == Parse(tail).rest && Parse(s).oversized == Parse(tail).oversized
  {
  }

  /** Parsing a longer string continues from what the shorter one left undecoded. */
  lemma {:induction false} ParseAppend(s: seq<Byte>, t: seq<Byte>)
    ensures Parse(s).oversized ==> Parse(s + t).oversized
    ensures !Parse(s).oversized ==>
              && Parse(s + t).events == Parse(s).events + Parse(Parse(s).rest + t).events
              && Parse(s + t).rest == Parse(Parse(s).rest + t).rest
              && Parse(s + t).oversized == Parse(Parse(s).rest + t).oversized
    decreases |s|
  {
    hide Next;
    NextAppend(s, t);
    match Next(s) {
      case Incomplete =>
      case TooLong =>
      case Whole(frame, tail) => ParseAppend(tail, t);
    }
  }

  /** What a parse leaves undecoded holds no further complete frame. */
  lemma {:induction false} RestIsIncomplete(s: seq<Byte>)
    requires !Parse(s).oversized
    ensures Next(Parse(s).rest).Incomplete?
    decreases |s|
  {
    if Next(s).Whole? {
      RestIsIncomplete(Next(s).tail);
    }
  }

  /** Encoding any frames and parsing them back gives their events and leaves no byte over. */
  lemma {:induction false} ParseEncoded(frames: seq<Frame>)
    requires forall f :: f in frames ==> Fits(f)
    ensures Parse(EncodeAll(frames)) == Parsed(ClassifyAll(frames), [], false)
    ensures FramesIn(EncodeAll(frames)) == frames
  {
    if frames != [] {
      NextEncoded(frames[0], EncodeAll(frames[1..]));
      ParseEncoded(frames[1..]);
    }
  }

  /** Every byte of a stream is either in one reported frame or still undecoded. */
  lemma {:induction false} NoByteLost(s: seq<Byte>)
    requires !Parse(s).oversized
    ensures forall f :: f in FramesIn(s) ==> Fits(f)
    ensures s == EncodeAll(FramesIn(s)) + Parse(s).rest
    ensures Parse(s).events == ClassifyAll(FramesIn(s))
    decreases |s|
  {
    var front := Next(s);
    if front.Whole? {
      NoByteLost(front.tail);
      NextDecoded(s);
      assert FramesIn(s)[1..] == FramesIn(front.tail);
    }
  }

  // ---------- feeding a stream in chunks

  /** Results of pushing chunk after chunk, starting from undecoded bytes; a push that fails ends it. */
  function PushAll(undecoded: seq<Byte>, chunks: seq<seq<Byte>>): Result<(seq<ImmiEvent>, seq<Byte>), FramingError>
    decreases |chunks|
  {
    if chunks == [] then Ok(([], undecoded))
    else
      var first := Parse(undecoded + chunks[0]);
      if first.oversized then Err(Oversized)
      else
        match PushAll(first.rest, chunks[1..])
        case Err(e) => Err(e)
        case Ok((events, rest)) => Ok((first.events + events, rest))
  }

  /** However a stream is cut into chunks, the events and the residue are those of the one-shot parse. */
  lemma {:induction false} ChunkingIrrelevant(undecoded: seq<Byte>, chunks: seq<seq<Byte>>)
    requires Next(undecoded).Incomplete?
    ensures var whole := Parse(undecoded + Concat(chunks));
            PushAll(undecoded, chunks)
            == if whole.oversized then Err(Oversized) else Ok((whole.events, whole.rest))
    decreases |chunks|
  {
    if chunks == [] {
      assert undecoded + Concat(chunks) == undecoded;
    } else {
      var s, tail := undecoded + chunks[0], Concat(chunks[1..]);
      assert undecoded + Concat(chunks) == s + tail;
      ParseAppend(s, tail);
      if !Parse(s).oversized {
        RestIsIncomplete(s);
        ChunkingIrrelevant(Parse(s).rest, chunks[1..]);
      }
    }
  }

  /** Any chunking of an encoded frame list gives back exactly the events of those frames. */
  lemma EncodedFramesSurviveChunking(frames: seq<Frame>, chunks: seq<seq<Byte>>)
    requires forall f :: f in frames ==> Fits(f)
    requires Concat(chunks) == EncodeAll(frames)
    ensures PushAll([], chunks) == Ok((ClassifyAll(frames), []))
  {
    ChunkingIrrelevant([], chunks);
    assert [] + Concat(chunks) == EncodeAll(frames);
    ParseEncoded(frames);
  }

  /** A frame as it stands on the wire: kind, value and payload length, both most significant byte first, payload. */
  function OnWire(kind: Byte, value: U32, payload: seq<Byte>): seq<Byte>
    requires |payload| <= 4 * 1024 * 1024
  {
    [kind, value / 0x100_0000, value / 0x1_0000 % 0x100, value / 0x100 % 0x100, value % 0x100,
     0, |payload| / 0x1_0000, |payload| / 0x100 % 0x100, |payload| % 0x100] + payload
  }

  lemma OnWireIsEncoded(kind: Byte, value: U32, payload: seq<Byte>)
    requires |payload| <= 4 * 1024 * 1024
    ensures OnWire(kind, value, payload) == Encode(Frame(kind, value, payload))
  {
    assert |payload| / 0x100_0000 == 0;
  }

  lemma OneFrame(before: seq<Byte>, frame: Frame, after: seq<Byte>, chunks: seq<seq<Byte>>)
    requires Fits(frame) && Parse(before).rest == [] && !Parse(before).oversized
    requires Concat(chunks) == before + (Encode(frame) + after)
    ensures PushAll([], chunks)
         == if Parse(after).oversized then Err(Oversized)
            else Ok((Parse(before).events + Events(frame) + Parse(after).events, Parse(after).rest))
  {
    hide Next, Encode, Events;
    var s := Encode(frame) + after;
    NextEncoded(frame, after);
    NextShort([]);
    ParseAppend(before, s);
    ChunkingIrrelevant([], chunks);
    assert [] + Concat(chunks) == Concat(chunks) && [] + s == s;
    var one := Events(frame);
    assert Parse(before).events + (one + Parse(after).events) == Parse(before).events + one + Parse(after).events;
  }

  lemma EventsOfFrame(kind: Byte, value: U32, payload: seq<Byte>)
    ensures |payload| <= 4 * 1024 * 1024 ==> Fits(Frame(kind, value, payload))
    ensures Events(Frame(kind, value, payload))
         == if kind == 0x18 && value == 4 then [AudioAvailability(true)]
            else if kind == 0x18 && value == 5 then [AudioAvailability(false)]
            else if kind == 0x18 && 1 <= value <= 3 then [ProviderRecording(value)]
            else if kind == 0x0c && payload == [] then [AudioConfig(value)]
            else if kind == 0x00 && payload != [] && payload[0] == 0x47 then [Video(payload)]
            else []
  {
  }

  /**
   * What one complete frame anywhere in a stream is reported as, for any chunking of that stream. Of type 0x18 the
   * values 4 and 5 are the grant and the refusal of audio and 1 to 3 the state of a recording, whatever the payload; an
   * empty 0x0c frame offers an audio format; a 0x00 frame that starts with the MPEG-TS sync byte is video; every other
   * frame is nothing.
   */
  lemma FrameIsReported(before: seq<Byte>, kind: Byte, value: U32, payload: seq<Byte>, after: seq<Byte>,
                        chunks: seq<seq<Byte>>)
    requires |payload| <= 4 * 1024 * 1024
    requires Parse(before).rest == [] && !Parse(before).oversized
    requires Concat(chunks) == before + (OnWire(kind, value, payload) + after)
    ensures var reported :=
              if kind == 0x18 && value == 4 then [AudioAvailability(true)]
              else if kind == 0x18 && value == 5 then [AudioAvailability(false)]
              else if kind == 0x18 && 1 <= value <= 3 then [ProviderRecording(value)]
              else if kind == 0x0c && payload == [] then [AudioConfig(value)]
              else if kind == 0x00 && payload != [] && payload[0] == 0x47 then [Video(payload)]
              else [];
            PushAll([], chunks)
            == if Parse(after).oversized then Err(Oversized)
               else Ok((Parse(before).events + reported + Parse(after).events, Parse(after).rest))
  {
    hide *;
    OnWireIsEncoded(kind, value, payload);
    EventsOfFrame(kind, value, payload);
    OneFrame(before, Frame(kind, value, payload), after, chunks);
  }

  /** A stream fails exactly when the header after some complete frames announces more than 4 MiB. */
  lemma OversizedHeader(before: seq<Byte>, header: seq<Byte>, after: seq<Byte>, chunks: seq<seq<Byte>>)
    requires Parse(before).rest == [] && !Parse(before).oversized && |header| == 9
    requires Concat(chunks) == before + (header + after)
    requires header[5] > 0 || header[6] > 0x40 || (header[6] == 0x40 && (header[7] > 0 || header[8] > 0))
    ensures PushAll([], chunks) == Err(Oversized)
  {
    hide BigEndian;
    var s := header + after;
    assert s[5..9] == [header[5], header[6], header[7], header[8]];
    NextShort([]);
    ParseAppend(before, s);
    ChunkingIrrelevant([], chunks);
    assert [] + Concat(chunks) == Concat(chunks) && [] + s == s;
  }

  function Videos(events: seq<ImmiEvent>): seq<seq<Byte>> {
    if events == [] then []
    else (if events[0].Video? then [events[0].payload] else []) + Videos(events[1..])
  }

  method VideosOnly(events: seq<ImmiEvent>) returns (videos: seq<seq<Byte>>)
    ensures videos == Videos(events)
  {
    videos := [];
    for i := 0 to |events|
      invariant Videos(events) == videos + Videos(events[i..])
    {
      assert events[i..][1..] == events[i + 1..];
      if events[i].Video? {
        videos := videos + [events[i].payload];
      }
    }
  }

  class ImmiDecoder {
    var buffer: seq<Byte>
    var pending: Option<Header>

    /** Between calls less than a header, or less than the announced payload, is held. */
    ghost predicate Valid()
      reads this
    {
      match pending
      case None => |buffer| < HEADER_BYTES
      case Some(h) => |buffer| < h.length <= MAX_PACKET_BYTES
    }

    /** The stream bytes not yet accounted for by a reported frame. */
    ghost function Undecoded(): seq<Byte>
      reads this
    {
      match pending
      case None => buffer
      case Some(h) => HeaderBytes(h) + buffer
    }

    constructor ()
      ensures Valid() && Undecoded() == []
    {
      buffer := [];
      pending := None;
    }

    method PushEvents(chunk: seq<Byte>) returns (r: Result<seq<ImmiEvent>, FramingError>)
      requires Valid()
      modifies this
      ensures var whole := Parse(old(Undecoded()) + chunk);
              && (r == if whole.oversized then Err(Oversized) else Ok(whole.events))
              && (r.Ok? ==> Valid() && Undecoded() == whole.rest)
    {
      hide Next, HeaderOf, HeaderBytes, Parse;
      ghost var whole := Parse(Undecoded() + chunk);
      buffer := buffer + chunk;
      assert Undecoded() == old(Undecoded()) + chunk;
      var frames: seq<ImmiEvent> := [];
      while true
        invariant pending.Some? ==> 0 < pending.value.length <= MAX_PACKET_BYTES
        invariant whole.events == frames + Parse(Undecoded()).events || whole.oversized
        invariant whole.rest == Parse(Undecoded()).rest || whole.oversized
        invariant whole.oversized == Parse(Undecoded()).oversized
        decreases |Undecoded()|
      {
        if pending.None? {
          if |buffer| < HEADER_BYTES {
            NextShort(buffer);
            ParseStops(buffer);
            break;
          }
          var h := HeaderOf(buffer);
          HeaderSplit(buffer);
          NextAfterHeader(h, buffer[HEADER_BYTES..]);
          ghost var stream := buffer;
          buffer := buffer[HEADER_BYTES..];
          if h.length > MAX_PACKET_BYTES {
            ParseStops(stream);
            return Err(Oversized);
          }
          if h.length == 0 {
            ghost var before := frames;
            if h.kind == 0x0c {
              frames := frames + [AudioConfig(h.value)];
            } else if h.kind == 0x18 && (h.value == 4 || h.value == 5) {
              frames := frames + [AudioAvailability(h.value == 4)];
            } else if h.kind == 0x18 && 1 <= h.value <= 3 {
              frames := frames + [ProviderRecording(h.value)];
            }
            assert frames == before + Events(Frame(h.kind, h.value, []));
            ParseOne(stream, before, Frame(h.kind, h.value, []), buffer);
            continue;
          }
          pending := Some(h);
        }
        var h := pending.value;
        NextAfterHeader(h, buffer);
        if |buffer| < h.length {
          ParseStops(Undecoded());
          break;
        }
        ghost var stream, before := Undecoded(), frames;
        var payload := buffer[..h.length];
        buffer := buffer[h.length..];
        pending := None;
        if h.kind == VIDEO_MESSAGE && payload[0] == MPEG_TS_SYNC {
          frames := frames + [Video(payload)];
        } else if h.kind == 0x18 && (h.value == 4 || h.value == 5) {
          frames := frames + [AudioAvailability(h.value == 4)];
        } else if h.kind == 0x18 && 1 <= h.value <= 3 {
          frames := frames + [ProviderRecording(h.value)];
        }
        assert frames == before + Events(Frame(h.kind, h.value, payload));
        ParseOne(stream, before, Frame(h.kind, h.value, payload), buffer);
      }
      assert frames + [] == frames;
      return Ok(frames);
    }

    /** The video payloads among the events of a chunk. */
    method Push(chunk: seq<Byte>) returns (r: Result<seq<seq<Byte>>, FramingError>)
      requires Valid()
      modifies this
      ensures var whole := Parse(old(Undecoded()) + chunk);
              && (r == if whole.oversized then Err(Oversized) else Ok(Videos(whole.events)))
              && (r.Ok? ==> Valid() && Undecoded() == whole.rest)
    {
      hide Next, Parse, Videos, HeaderBytes;
      var pushed := PushEvents(chunk);
      if pushed.Err? {
        return Err(pushed.error);
      }
      var videos := VideosOnly(pushed.value);
      return Ok(videos);
    }

    /** Succeeds exactly on a frame boundary. */
    method Finish() returns (r: Result<(), FramingError>)
      requires Valid()
      ensures r == if Undecoded() == [] then Ok(()) else Err(Truncated)
    {
      if pending.Some? || buffer != [] {
        return Err(Truncated);
      }
      return Ok(());
    }
  }
}
