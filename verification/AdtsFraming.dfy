/**
 * Incremental ADTS splitting and AAC packet framing. The header layout is the
 * adts_frame header of ISO/IEC 14496-3, section 1.A.2.2; only MPEG-4 AAC-LC,
 * 16 kHz, mono, without CRC and with one raw data block is accepted.
 */
module AdtsFraming {
  import opened Wrappers
  import opened Bytes
  import Immi = ImmiFraming

  const ADTS_HEADER_BYTES: nat := 7
  const MAX_AUDIO_FRAME_BYTES: nat := 8191
  const MAX_AUDIO_CHUNK_BYTES: nat := 64 * 1024

  datatype AudioWireError = InvalidHeader | InvalidLength | ChunkTooLarge | Truncated | Poisoned

  /** Masks and shifts on one byte are written as division and remainder. */
  function FrameLength(header: seq<Byte>): (r: Result<nat, AudioWireError>)
    ensures r.Ok? ==> ADTS_HEADER_BYTES < r.value <= MAX_AUDIO_FRAME_BYTES && ADTS_HEADER_BYTES <= |header|
  {
    if |header| < ADTS_HEADER_BYTES
       || header[0] != 0xff || header[1] != 0xf1 || header[2] != 0x60
       || header[3] / 4 != 0x10 || header[6] % 4 != 0
    then Err(InvalidHeader)
    else
      var high: int, mid: int, low: int := header[3] % 4, header[4], header[5] / 32;
      var length := high * 2048 + mid * 8 + low;
      if ADTS_HEADER_BYTES < length <= MAX_AUDIO_FRAME_BYTES then Ok(length) else Err(InvalidLength)
  }

  /** A frame is whole when it has exactly the length its header declares. */
  predicate WholeFrame(frame: seq<Byte>): (whole: bool)
    ensures whole ==> 8 <= |frame| <= MAX_AUDIO_FRAME_BYTES
  {
    FrameLength(frame) == Ok(|frame|)
  }

  /**
   * Which headers are accepted, byte by byte: sync word, MPEG-4 without CRC, AAC-LC at 16 kHz, one channel, 13 bits of
   * length from 8 to 8191, one raw data block; buffer fullness is free.
   */
  lemma HeaderAcceptedIff(header: seq<Byte>, length: nat)
    ensures FrameLength(header) == Ok(length)
            <==> && |header| >= 7 && header[0] == 0xff && header[1] == 0xf1 && header[2] == 0x60
                 && header[3] in {0x40, 0x41, 0x42, 0x43} && header[6] % 4 == 0
                 && 8 <= length <= 8191
                 && length == (header[3] as int - 0x40) * 2048 + (header[4] as int) * 8 + header[5] / 32
    ensures FrameLength(header) == Err(InvalidLength)
            ==> header[0..3] == [0xff, 0xf1, 0x60] && header[3] == 0x40 && header[4] == 0
  {
  }

  // ---------- the reference: cut a complete byte string into declared frames

  datatype Front = Incomplete | Bad(error: AudioWireError) | Whole(frame: seq<Byte>, tail: seq<Byte>)

  function Next(s: seq<Byte>): (front: Front)
    ensures front.Whole? ==> |front.tail| < |s|
  {
    if |s| < ADTS_HEADER_BYTES then Incomplete
    else
      match FrameLength(s[..ADTS_HEADER_BYTES])
      case Err(e) => Bad(e)
      case Ok(n) => if |s| < n then Incomplete else Whole(s[..n], s[n..])
  }

  datatype Cut = Cut(frames: seq<seq<Byte>>, rest: seq<Byte>, failure: Option<AudioWireError>)

  function Split(s: seq<Byte>): Cut
    decreases |s|
  {
    match Next(s)
    case Incomplete => Cut([], s, None)
    case Bad(e) => Cut([], s, Some(e))
    case Whole(frame, tail) => var cut := Split(tail); cut.(frames := [frame] + cut.frames)
  }

  lemma LengthOfPrefix(header: seq<Byte>, s: seq<Byte>)
    requires |header| == ADTS_HEADER_BYTES && header <= s
    ensures FrameLength(s) == FrameLength(header)
  {
    assert forall i :: 0 <= i < 7 ==> s[i] == header[i];
  }

  lemma NextAppend(s: seq<Byte>, t: seq<Byte>)
    ensures Next(s).Bad? ==> Next(s + t) == Next(s)
    ensures Next(s).Whole? ==> Next(s + t) == Whole(Next(s).frame, Next(s).tail + t)
  {
    hide FrameLength;
    if |s| >= ADTS_HEADER_BYTES {
      assert (s + t)[..ADTS_HEADER_BYTES] == s[..ADTS_HEADER_BYTES];
      var length := FrameLength(s[..ADTS_HEADER_BYTES]);
      if length.Ok? && length.value <= |s| {
        assert (s + t)[length.value..] == s[length.value..] + t;
        assert (s + t)[..length.value] == s[..length.value];
      }
    }
  }

  lemma NextIsWhole(s: seq<Byte>)
    requires Next(s).Whole?
    ensures WholeFrame(Next(s).frame) && s == Next(s).frame + Next(s).tail
  {
    LengthOfPrefix(s[..ADTS_HEADER_BYTES], Next(s).frame);
  }

  lemma NextOfFrame(frame: seq<Byte>, tail: seq<Byte>)
    requires WholeFrame(frame)
    ensures Next(frame + tail) == Whole(frame, tail)
  {
    hide FrameLength;
    LengthOfPrefix(frame[..ADTS_HEADER_BYTES], frame);
    assert (frame + tail)[..ADTS_HEADER_BYTES] == frame[..ADTS_HEADER_BYTES];
    assert (frame + tail)[..|frame|] == frame && (frame + tail)[|frame|..] == tail;
  }

  /** While no header is refused, emitted frames and residue are the whole input, and every frame is whole. */
  lemma {:induction false} BytesConserved(s: seq<Byte>)
    requires Split(s).failure.None?
    ensures Concat(Split(s).frames) + Split(s).rest == s
    ensures forall f :: f in Split(s).frames ==> WholeFrame(f)
    decreases |s|
  {
    hide Next, WholeFrame, FrameLength;
    var front := Next(s);
    if front.Whole? {
      var rest := Split(front.tail);
      BytesConserved(front.tail);
      NextIsWhole(s);
      assert Split(s).frames == [front.frame] + rest.frames;
      assert Concat(Split(s).frames) == front.frame + Concat(rest.frames) by {
        assert ([front.frame] + rest.frames)[1..] == rest.frames;
      }
      assert (front.frame + Concat(rest.frames)) + rest.rest == front.frame + (Concat(rest.frames) + rest.rest);
    }
  }

  lemma {:induction false} SplitAppend(s: seq<Byte>, t: seq<Byte>)
    ensures Split(s).failure.Some? ==> Split(s + t).failure == Split(s).failure
    ensures Split(s).failure.None? ==>
              Split(s + t) == (var more := Split(Split(s).rest + t); more.(frames := Split(s).frames + more.frames))
    decreases |s|
  {
    hide Next;
    NextAppend(s, t);
    match Next(s) {
      case Incomplete =>
      case Bad(_) =>
      case Whole(_, tail) => SplitAppend(tail, t);
    }
  }

  /** Splitting the residue again finds nothing. */
  lemma {:induction false} ResidueIsShort(s: seq<Byte>)
    requires Split(s).failure.None?
    ensures Next(Split(s).rest).Incomplete?
    decreases |s|
  {
    hide Next;
    if Next(s).Whole? {
      ResidueIsShort(Next(s).tail);
    }
  }

  /** A concatenation of whole frames splits back into exactly those frames. */
  lemma {:induction false} SplitOfFrames(frames: seq<seq<Byte>>)
    requires forall f :: f in frames ==> WholeFrame(f)
    ensures Split(Concat(frames)) == Cut(frames, [], None)
  {
    assert Next([]).Incomplete?;
    hide Next;
    if frames != [] {
      NextOfFrame(frames[0], Concat(frames[1..]));
      SplitOfFrames(frames[1..]);
    }
  }

  // ---------- feeding a stream in chunks

  function PushAll(held: seq<Byte>, chunks: seq<seq<Byte>>): Result<(seq<seq<Byte>>, seq<Byte>), AudioWireError>
    decreases |chunks|
  {
    if chunks == [] then Ok(([], held))
    else if |chunks[0]| > MAX_AUDIO_CHUNK_BYTES then Err(ChunkTooLarge)
    else
      var first := Split(held + chunks[0]);
      match first.failure
      case Some(e) => Err(e)
      case None =>
        match PushAll(first.rest, chunks[1..])
        case Err(e) => Err(e)
        case Ok((frames, rest)) => Ok((first.frames + frames, rest))
  }

  /** Any chunking into accepted sizes gives the frames, the residue and the error of the one-shot split. */
  lemma {:induction false} ChunkingIrrelevant(held: seq<Byte>, chunks: seq<seq<Byte>>)
    requires Next(held).Incomplete?
    requires forall c :: c in chunks ==> |c| <= MAX_AUDIO_CHUNK_BYTES
    ensures var whole := Split(held + Concat(chunks));
            PushAll(held, chunks)
            == if whole.failure.Some? then Err(whole.failure.value) else Ok((whole.frames, whole.rest))
    decreases |chunks|
  {
    if chunks == [] {
      assert held + Concat(chunks) == held;
    } else {
      var s, tail := held + chunks[0], Concat(chunks[1..]);
      assert held + Concat(chunks) == s + tail;
      SplitAppend(s, tail);
      if Split(s).failure.None? {
        ResidueIsShort(s);
        ChunkingIrrelevant(Split(s).rest, chunks[1..]);
      }
    }
  }

  /** Any chunking of a concatenation of whole frames returns exactly those frames and holds nothing back. */
  lemma FramesSurviveChunking(frames: seq<seq<Byte>>, chunks: seq<seq<Byte>>)
    requires forall f :: f in frames ==> WholeFrame(f)
    requires forall c :: c in chunks ==> |c| <= MAX_AUDIO_CHUNK_BYTES
    requires Concat(chunks) == Concat(frames)
    ensures PushAll([], chunks) == Ok((frames, []))
  {
    ChunkingIrrelevant([], chunks);
    assert [] + Concat(chunks) == Concat(frames);
    SplitOfFrames(frames);
  }

  class AdtsDecoder {
    var buffer: seq<Byte>
    var expected: Option<nat>
    var failed: bool

    /** The buffer never reaches its target, so the space left in it is positive. */
    ghost predicate Valid()
      reads this
    {
      failed
      || match expected
         case None => |buffer| < ADTS_HEADER_BYTES
         case Some(n) =>
           ADTS_HEADER_BYTES <= |buffer| < n && FrameLength(buffer[..ADTS_HEADER_BYTES]) == Ok(n)
    }

    constructor ()
      ensures Valid() && !failed && buffer == []
    {
      buffer, expected, failed := [], None, false;
    }

    /** Refuses everything after the first error; otherwise agrees with the one-shot split. */
    method Push(chunk: seq<Byte>) returns (r: Result<seq<seq<Byte>>, AudioWireError>)
      requires Valid()
      modifies this
      ensures Valid()
      ensures var whole := Split(old(buffer) + chunk);
              r == if old(failed) then Err(Poisoned)
                   else if |chunk| > MAX_AUDIO_CHUNK_BYTES then Err(ChunkTooLarge)
                   else if whole.failure.Some? then Err(whole.failure.value)
                   else Ok(whole.frames)
      ensures failed == r.Err?
      ensures r.Ok? ==> buffer == Split(old(buffer) + chunk).rest
      ensures r.Err? && !old(failed) ==> buffer == []
    {
      if failed {
        return Err(Poisoned);
      }
      r := Consume(chunk);
      if r.Err? {
        failed := true;
        buffer := [];
      }
    }

    method Consume(input: seq<Byte>) returns (r: Result<seq<seq<Byte>>, AudioWireError>)
      requires Valid() && !failed
      modifies this
      ensures !failed
      ensures var whole := Split(old(buffer) + input);
              && (r == if |input| > MAX_AUDIO_CHUNK_BYTES then Err(ChunkTooLarge)
                       else if whole.failure.Some? then Err(whole.failure.value)
                       else Ok(whole.frames))
              && (r.Ok? ==> Valid() && buffer == whole.rest)
    {
      hide FrameLength;
      if |input| > MAX_AUDIO_CHUNK_BYTES {
        return Err(ChunkTooLarge);
      }
      ghost var whole := Split(buffer + input);
      var chunk := input;
      var frames: seq<seq<Byte>> := [];
      while chunk != []
        invariant Valid() && !failed
        invariant whole.failure == Split(buffer + chunk).failure
        invariant whole.failure.None? ==>
                    && whole.frames == frames + Split(buffer + chunk).frames
                    && whole.rest == Split(buffer + chunk).rest
        decreases |chunk|
      {
        var target := if expected.Some? then expected.value else ADTS_HEADER_BYTES;
        var space: nat := target - |buffer|;
        var count := if space < |chunk| then space else |chunk|;
        ghost var stream, header := buffer + chunk, if expected.Some? then buffer[..ADTS_HEADER_BYTES] else [];
        buffer := buffer + chunk[..count];
        chunk := chunk[count..];
        assert buffer + chunk == stream;
        assert expected.Some? ==> buffer[..ADTS_HEADER_BYTES] == header == stream[..ADTS_HEADER_BYTES];
        if |buffer| < target {
          continue;
        }
        if expected.None? {
          assert stream[..ADTS_HEADER_BYTES] == buffer == buffer[..ADTS_HEADER_BYTES];
          match FrameLength(buffer) {
            case Err(e) => return Err(e);
            case Ok(n) => expected := Some(n);
          }
        } else {
          assert stream[..target] == buffer && stream[target..] == chunk;
          assert Next(stream) == Whole(buffer, chunk);
          assert frames + ([buffer] + Split(chunk).frames) == frames + [buffer] + Split(chunk).frames;
          frames := frames + [buffer];
          buffer := [];
          expected := None;
          assert buffer + chunk == chunk;
        }
      }
      assert buffer + chunk == buffer;
      assert Next(buffer).Incomplete? by {
        assert expected.Some? ==> |buffer| >= ADTS_HEADER_BYTES;
      }
      assert frames + [] == frames;
      return Ok(frames);
    }

    method Finish() returns (r: Result<(), AudioWireError>)
      requires Valid()
      ensures r == if failed then Err(Poisoned) else if buffer == [] then Ok(()) else Err(Truncated)
    {
      if failed {
        return Err(Poisoned);
      } else if buffer == [] {
        return Ok(());
      }
      return Err(Truncated);
    }
  }

  // ---------- the packet writer

  const AUDIO_MESSAGE: Byte := 0x05

  /** Only the buffer-fullness bits of the header are cleared. */
  function Normalised(frame: seq<Byte>): (r: seq<Byte>)
    requires |frame| >= ADTS_HEADER_BYTES
    ensures |r| == |frame|
  {
    var five: int, six: int := frame[5] / 32 * 32, frame[6] % 4;
    frame[5 := five][6 := six]
  }

  /** The length field, every other header field and the payload survive; doing it twice changes nothing more. */
  lemma NormalisationKeepsTheFrame(frame: seq<Byte>)
    requires WholeFrame(frame)
    ensures WholeFrame(Normalised(frame))
    ensures forall i :: 0 <= i < |frame| && i != 5 && i != 6 ==> Normalised(frame)[i] == frame[i]
    ensures Normalised(frame)[5] / 32 == frame[5] / 32 && Normalised(frame)[5] % 32 == 0
    ensures Normalised(frame)[6] == 0
    ensures Normalised(Normalised(frame)) == Normalised(frame)
  {
    var five: int := frame[5];
    assert five / 32 * 32 / 32 == five / 32;
  }

  class AudioPacketWriter {
    var sequence: U32

    constructor ()
      ensures sequence == 0
    {
      sequence := 0;
    }

    /** One complete IMMI frame per accepted AAC frame; a refused frame consumes no number. */
    method AudioFrame(frame: seq<Byte>) returns (r: Result<seq<Byte>, AudioWireError>)
      modifies this
      ensures r.Ok? <==> WholeFrame(frame)
      ensures r.Ok? ==> r.value == AudioPacket(old(sequence), frame)
      ensures sequence == if r.Ok? then Successor(old(sequence)) else old(sequence)
      ensures r.Err? ==> r.error == if FrameLength(frame).Err? then FrameLength(frame).error else InvalidLength
    {
      var declared := FrameLength(frame);
      if declared.Err? {
        return Err(declared.error);
      }
      if |frame| != declared.value {
        return Err(InvalidLength);
      }
      var length: U32 := declared.value;
      var packet := [AUDIO_MESSAGE] + BigEndian(sequence) + BigEndian(length) + frame;
      var five: int, six: int := packet[14] / 32 * 32, packet[15] % 4;
      packet := packet[14 := five][15 := six];
      assert packet == AudioPacket(sequence, frame);
      sequence := Successor(sequence);
      return Ok(packet);
    }
  }

  function Successor(n: U32): U32 {
    var next: int := n + 1;
    next % 0x1_0000_0000
  }

  /** The IMMI frame that carries one AAC frame under a packet number. */
  function AudioMessage(number: U32, frame: seq<Byte>): Immi.Frame
    requires WholeFrame(frame)
  {
    Immi.Frame(AUDIO_MESSAGE, number, Normalised(frame))
  }

  function AudioPacket(number: U32, frame: seq<Byte>): seq<Byte>
    requires WholeFrame(frame)
  {
    Immi.Encode(AudioMessage(number, frame))
  }
}
