/** clientcore/src/framing.cpp: payloads behind a two-byte length, decoded from a stream that
    arrives in arbitrary pieces. */
module Framing {
  import opened World
  import opened Chunks
  import opened MapScan
  import opened MapCodec

  const HEADER_BYTES := 2

  datatype FrameError =
    | NoError
    | InvalidConfiguration
    | ZeroLength
    | ExceedsConfiguredMaximum
    | PayloadTooLargeForHeader
    | TruncatedFrame
    | StreamFinished

  // ---- the one-shot parser --------------------------------------------------------------------

  /** The frames of a stream, what is left in the buffer, the error that stopped it if any, and
      how many bytes were taken. */
  datatype Parsed = Parsed(frames: seq<seq<byte>>, buffer: seq<byte>, error: FrameError, taken: nat)

  function Size(s: seq<byte>): nat
    requires |s| >= 2
  {
    Low16(s[0], s[1])
  }

  function SizeError(size: nat, max: nat): FrameError {
    if size == 0 then ZeroLength else if size > max then ExceedsConfiguredMaximum else NoError
  }

  function ParseFrames(s: seq<byte>, max: nat): (p: Parsed)
    ensures p.taken <= |s|
    decreases |s|
  {
    if |s| < HEADER_BYTES then Parsed([], s, NoError, |s|)
    else if SizeError(Size(s), max) != NoError then Parsed([], s[..HEADER_BYTES], SizeError(Size(s), max), HEADER_BYTES)
    else if |s| < HEADER_BYTES + Size(s) then Parsed([], s, NoError, |s|)
    else
      var frame := HEADER_BYTES + Size(s);
      var rest := ParseFrames(s[frame..], max);
      rest.(frames := [s[HEADER_BYTES..frame]] + rest.frames, taken := frame + rest.taken)
  }

  /** The bytes that frames take on the wire. */
  function WireSize(frames: seq<seq<byte>>): nat {
    if frames == [] then 0 else HEADER_BYTES + |frames[0]| + WireSize(frames[1..])
  }

  lemma CompleteFrame(buffer: seq<byte>, rest: seq<byte>, max: nat)
    requires |buffer| >= HEADER_BYTES && SizeError(Size(buffer), max) == NoError
    requires |buffer| == HEADER_BYTES + Size(buffer)
    ensures var p := ParseFrames(rest, max);
      ParseFrames(buffer + rest, max) == Parsed([buffer[HEADER_BYTES..]] + p.frames, p.buffer, p.error,
        |buffer| + p.taken)
  {
    var s := buffer + rest;
    assert Size(s) == Size(buffer);
    assert s[HEADER_BYTES..|buffer|] == buffer[HEADER_BYTES..];
    assert s[|buffer|..] == rest;
  }

  /** A whole frame is at the front of the stream. */
  predicate HasFrame(s: seq<byte>, max: nat) {
    |s| >= HEADER_BYTES && SizeError(Size(s), max) == NoError && |s| >= HEADER_BYTES + Size(s)
  }

  /** What parsing does when one is, and when none is. */
  lemma ParseStep(s: seq<byte>, max: nat)
    ensures HasFrame(s, max) ==>
      var frame := HEADER_BYTES + Size(s);
      var rest := ParseFrames(s[frame..], max);
      ParseFrames(s, max) == Parsed([s[HEADER_BYTES..frame]] + rest.frames, rest.buffer, rest.error, frame + rest.taken)
    ensures !HasFrame(s, max) ==>
      ParseFrames(s, max) ==
        if |s| >= HEADER_BYTES && SizeError(Size(s), max) != NoError
        then Parsed([], s[..HEADER_BYTES], SizeError(Size(s), max), HEADER_BYTES) else Parsed([], s, NoError, |s|)
  {
    hide Low16;
  }

  /** Nothing is lost: what was taken is the frames with their headers and what is buffered, and
      all input is taken unless an error stopped it. */
  lemma {:induction false} ParseConserves(s: seq<byte>, max: nat)
    ensures var p := ParseFrames(s, max);
      && p.taken == WireSize(p.frames) + |p.buffer|
      && (p.error == NoError ==> p.taken == |s|)
      && p.buffer == s[p.taken - |p.buffer|..p.taken]
      && (forall i :: 0 <= i < |p.frames| ==> 1 <= |p.frames[i]| <= max)
    decreases |s|
  {
    hide ParseFrames, Low16;
    ParseStep(s, max);
    if HasFrame(s, max) {
      var frame := HEADER_BYTES + Size(s);
      ParseConserves(s[frame..], max);
      var rest, p := ParseFrames(s[frame..], max), ParseFrames(s, max);
      assert p.frames[1..] == rest.frames;
      assert s[frame..][rest.taken - |rest.buffer|..rest.taken] == s[p.taken - |p.buffer|..p.taken];
    }
  }

  /** Parsing can stop anywhere and go on with what was buffered. */
  lemma {:induction false} ParseResumes(a: seq<byte>, b: seq<byte>, max: nat)
    ensures |ParseFrames(a, max).buffer| <= |a|
    ensures var p := ParseFrames(a, max);
      var whole := ParseFrames(a + b, max);
      if p.error != NoError
      then whole == p
      else
        var rest := ParseFrames(p.buffer + b, max);
        whole == Parsed(p.frames + rest.frames, rest.buffer, rest.error, |a| - |p.buffer| + rest.taken)
    decreases |a|
  {
    hide ParseFrames, Low16;
    ParseStep(a, max);
    if HasFrame(a, max) {
      var frame := HEADER_BYTES + Size(a);
      var r := a[frame..];
      ParseResumes(r, b, max);
      ParseConserves(r, max);
      assert a == a[..frame] + r && a + b == a[..frame] + (r + b);
      CompleteFrame(a[..frame], r + b, max);
      assert a[..frame][HEADER_BYTES..] == a[HEADER_BYTES..frame];
      Reassociate([a[HEADER_BYTES..frame]], ParseFrames(r, max).frames,
        ParseFrames(ParseFrames(r, max).buffer + b, max).frames);
    } else if |a| >= HEADER_BYTES && SizeError(Size(a), max) != NoError {
      ParseStep(a + b, max);
      assert (a + b)[..HEADER_BYTES] == a[..HEADER_BYTES];
    } else {
      var rest := ParseFrames(a + b, max);
      assert [] + rest.frames == rest.frames;
    }
  }

  // ---- encoding ---------------------------------------------------------------------------------

  predicate GoodPayload(payload: seq<byte>, max: nat) {
    1 <= |payload| <= max
  }

  function Framed(payload: seq<byte>): seq<byte>
    requires |payload| <= WIRE_PAYLOAD_LIMIT
  {
    Word(|payload|) + payload
  }

  method EncodeFrame(payload: seq<byte>, max: nat) returns (bytes: seq<byte>, error: FrameError)
    ensures error == NoError <==> GoodPayload(payload, max) && max <= WIRE_PAYLOAD_LIMIT
    ensures error == NoError ==> bytes == Framed(payload)
    ensures error != NoError ==> bytes == []
    ensures error == InvalidConfiguration <==> max == 0 || max > WIRE_PAYLOAD_LIMIT
    ensures error == ZeroLength <==> 0 < max <= WIRE_PAYLOAD_LIMIT && payload == []
    ensures error == PayloadTooLargeForHeader <==> 0 < max <= WIRE_PAYLOAD_LIMIT < |payload|
  {
    bytes := [];
    if max == 0 || max > WIRE_PAYLOAD_LIMIT { return bytes, InvalidConfiguration; }
    if |payload| == 0 { return bytes, ZeroLength; }
    if |payload| > WIRE_PAYLOAD_LIMIT { return bytes, PayloadTooLargeForHeader; }
    if |payload| > max { return bytes, ExceedsConfiguredMaximum; }
    var filled := new byte[HEADER_BYTES + |payload|](_ => 0);
    filled[0] := |payload| % 0x100;
    filled[1] := |payload| / 0x100;
    for i := 0 to |payload|
      invariant filled[0] == |payload| % 0x100 && filled[1] == |payload| / 0x100
      invariant filled[HEADER_BYTES..HEADER_BYTES + i] == payload[..i]
    {
      filled[HEADER_BYTES + i] := payload[i];
    }
    bytes := filled[..];
    assert bytes[HEADER_BYTES..] == payload;
    assert bytes == bytes[..HEADER_BYTES] + bytes[HEADER_BYTES..];
    error := NoError;
  }

  ghost predicate GoodPayloads(payloads: seq<seq<byte>>, max: nat) {
    forall i :: 0 <= i < |payloads| ==> GoodPayload(payloads[i], max)
  }

  function FramedAll(payloads: seq<seq<byte>>): seq<byte>
    requires forall i :: 0 <= i < |payloads| ==> |payloads[i]| <= WIRE_PAYLOAD_LIMIT
  {
    if payloads == [] then [] else Framed(payloads[0]) + FramedAll(payloads[1..])
  }

  lemma ParseOne(payload: seq<byte>, rest: seq<byte>, max: nat)
    requires GoodPayload(payload, max) && max <= WIRE_PAYLOAD_LIMIT
    ensures var p := ParseFrames(Framed(payload) + rest, max);
      var q := ParseFrames(rest, max);
      p == Parsed([payload] + q.frames, q.buffer, q.error, HEADER_BYTES + |payload| + q.taken)
  {
    var s := Framed(payload) + rest;
    assert Size(s) == |payload|;
    assert s[HEADER_BYTES..HEADER_BYTES + |payload|] == payload;
    assert s[HEADER_BYTES + |payload|..] == rest;
  }

  /** Parsing undoes framing. */
  lemma {:induction false} ParseUndoesFraming(payloads: seq<seq<byte>>, max: nat)
    requires GoodPayloads(payloads, max) && max <= WIRE_PAYLOAD_LIMIT
    ensures ParseFrames(FramedAll(payloads), max) == Parsed(payloads, [], NoError, |FramedAll(payloads)|)
    decreases |payloads|
  {
    hide Framed;
    if payloads != [] {
      ParseUndoesFraming(payloads[1..], max);
      ParseOne(payloads[0], FramedAll(payloads[1..]), max);
      assert |Framed(payloads[0])| == HEADER_BYTES + |payloads[0]| by { FramedSize(payloads[0]); }
    }
  }

  lemma FramedSize(payload: seq<byte>)
    requires |payload| <= WIRE_PAYLOAD_LIMIT
    ensures |Framed(payload)| == HEADER_BYTES + |payload|
  {
  }

  /** A stream ends cleanly exactly when it is a list of frames. */
  lemma {:induction false} CleanStreams(s: seq<byte>, max: nat)
    requires max <= WIRE_PAYLOAD_LIMIT
    ensures var p := ParseFrames(s, max);
      p.error == NoError && p.buffer == [] <==>
        exists payloads :: GoodPayloads(payloads, max) && s == FramedAll(payloads)
  {
    var p := ParseFrames(s, max);
    if p.error == NoError && p.buffer == [] {
      ParseConserves(s, max);
      CleanIsFramed(s, max);
      assert GoodPayloads(p.frames, max);
    }
    if payloads :| GoodPayloads(payloads, max) && s == FramedAll(payloads) {
      ParseUndoesFraming(payloads, max);
    }
  }

  lemma {:induction false} CleanIsFramed(s: seq<byte>, max: nat)
    requires max <= WIRE_PAYLOAD_LIMIT
    requires ParseFrames(s, max).error == NoError && ParseFrames(s, max).buffer == []
    ensures GoodPayloads(ParseFrames(s, max).frames, max) && s == FramedAll(ParseFrames(s, max).frames)
    decreases |s|
  {
    hide ParseFrames, Low16, Word;
    ParseStep(s, max);
    if s != [] {
      var frame := HEADER_BYTES + Size(s);
      var rest := s[frame..];
      CleanIsFramed(rest, max);
      var p := ParseFrames(s, max);
      assert p.frames[0] == s[HEADER_BYTES..frame];
      assert p.frames[1..] == ParseFrames(rest, max).frames;
      HeaderIsWord(s);
      assert s == (s[..HEADER_BYTES] + s[HEADER_BYTES..frame]) + rest;
    }
  }

  lemma HeaderIsWord(s: seq<byte>)
    requires |s| >= HEADER_BYTES
    ensures s[..HEADER_BYTES] == Word(Size(s))
  {
  }

  // ---- the streaming decoder ------------------------------------------------------------------------

  datatype FrameBatch = FrameBatch(
    frames: seq<seq<byte>>, unconsumed: seq<byte>, error: FrameError, consumed: nat, buffered: nat, needsMore: bool,
    endOfStream: bool)

  /** A buffer holds the start of a frame that is not complete yet. */
  predicate Unfinished(buffer: seq<byte>, max: nat) {
    |buffer| < HEADER_BYTES || (SizeError(Size(buffer), max) == NoError && |buffer| < HEADER_BYTES + Size(buffer))
  }

  function FailedBatch(data: seq<byte>, buffer: seq<byte>, error: FrameError): FrameBatch {
    FrameBatch([], data, error, 0, |buffer|, false, false)
  }

  /** What feeding `data` must return, given what is buffered. */
  function FedBatch(buffer: seq<byte>, data: seq<byte>, max: nat): FrameBatch
    requires Unfinished(buffer, max)
  {
    var p := ParseFrames(buffer + data, max);
    TakesTheBuffer(buffer, data, max);
    FrameBatch(p.frames, (buffer + data)[p.taken..], p.error, p.taken - |buffer|, |p.buffer|,
      p.error == NoError && p.buffer != [], false)
  }

  lemma TakesTheBuffer(buffer: seq<byte>, data: seq<byte>, max: nat)
    requires Unfinished(buffer, max)
    ensures |buffer| <= ParseFrames(buffer + data, max).taken
    ensures ParseFrames(buffer, max) == Parsed([], buffer, NoError, |buffer|)
  {
    var s := buffer + data;
    if |buffer| >= HEADER_BYTES { assert Size(s) == Size(buffer); }
  }

  /** Out is what came so far and what the rest of the stream gives. */
  ghost predicate Continues(out: Parsed, frames: seq<seq<byte>>, rest: Parsed, offset: int) {
    out.frames == frames + rest.frames && out.buffer == rest.buffer && out.error == rest.error
    && out.taken == offset + rest.taken
  }

  lemma ContinuesPast(out: Parsed, frames: seq<seq<byte>>, frame: seq<byte>, rest: Parsed, offset: int, taken: nat)
    requires Continues(out, frames, Parsed([frame] + rest.frames, rest.buffer, rest.error, taken + rest.taken), offset)
    ensures Continues(out, frames + [frame], rest, offset + taken)
  {
    Reassociate(frames, [frame], rest.frames);
  }

  class FrameDecoder {
    const maxPayload: nat
    var expected: nat
    var buffer: seq<byte>
    var error: FrameError
    var finished: bool

    ghost predicate Valid()
      reads this
    {
      && 1 <= maxPayload <= WIRE_PAYLOAD_LIMIT
      && (error == NoError ==>
           Unfinished(buffer, maxPayload) && expected == if |buffer| < HEADER_BYTES then 0 else Size(buffer))
    }

    constructor (max: nat)
      requires 1 <= max <= WIRE_PAYLOAD_LIMIT
      ensures Valid() && maxPayload == max && buffer == [] && error == NoError && !finished
    {
      maxPayload := max;
      expected, buffer, error, finished := 0, [], NoError, false;
    }

    /** However a stream is cut, each piece yields what the one-shot parser says. */
    method Feed(data: seq<byte>) returns (batch: FrameBatch)
      requires Valid()
      modifies this
      ensures Valid() && finished == old(finished)
      ensures old(error) != NoError ==>
        batch == FailedBatch(data, buffer, old(error)) && error == old(error) && buffer == old(buffer)
      ensures old(error) == NoError && finished ==>
        batch == FailedBatch(data, buffer, StreamFinished) && error == NoError && buffer == old(buffer)
      ensures old(error) == NoError && !finished ==>
        batch == FedBatch(old(buffer), data, maxPayload)
        && buffer == ParseFrames(old(buffer) + data, maxPayload).buffer && error == batch.error
    {
      hide ParseFrames, Low16, Continues, FedBatch;
      if error != NoError { return FailedBatch(data, buffer, error); }
      if finished { return FailedBatch(data, buffer, StreamFinished); }
      ghost var held := buffer;
      ghost var out := ParseFrames(buffer + data, maxPayload);
      var frames: seq<seq<byte>> := [];
      var position := 0;
      FeedingStarts(held, data, maxPayload);
      while position < |data|
        invariant position <= |data| && !finished && error == NoError && Valid()
        invariant Continues(out, frames, ParseFrames(buffer + data[position..], maxPayload),
          |held| + position - |buffer|)
        decreases |data| - position
      {
        if |buffer| < HEADER_BYTES {
          position := Fill(data, position, HEADER_BYTES);
          if |buffer| < HEADER_BYTES { break; }
        }
        if expected == 0 {
          expected := Size(buffer);
          error := SizeError(expected, maxPayload);
          if error != NoError {
            batch := FrameBatch(frames, data[position..], error, position, |buffer|, false, false);
            FeedingFails(held, data, maxPayload, frames, buffer, position);
            return;
          }
        }
        var frame := HEADER_BYTES + expected;
        position := Fill(data, position, frame);
        if |buffer| < frame { break; }
        CompleteFrame(buffer, data[position..], maxPayload);
        ContinuesPast(out, frames, buffer[HEADER_BYTES..], ParseFrames(data[position..], maxPayload),
          |held| + position - |buffer|, |buffer|);
        assert [] + data[position..] == data[position..];
        frames := frames + [buffer[HEADER_BYTES..]];
        buffer := [];
        expected := 0;
      }
      batch := FrameBatch(frames, [], NoError, position, |buffer|, buffer != [], false);
      FeedingEnds(held, data, maxPayload, frames, buffer);
    }

    /** Copies input into the buffer until it holds `target` bytes or the input runs out. */
    method Fill(data: seq<byte>, position: nat, target: nat) returns (next: nat)
      requires position <= |data| && |buffer| <= target
      modifies this`buffer
      ensures position <= next <= |data| && |buffer| == |old(buffer)| + next - position <= target
      ensures |buffer| < target ==> next == |data|
      ensures old(buffer) <= buffer
      ensures buffer + data[next..] == old(buffer) + data[position..]
    {
      var needed := target - |buffer|;
      var copied := if needed < |data| - position then needed else |data| - position;
      Move(buffer, data, position, copied);
      buffer := buffer + data[position..position + copied];
      next := position + copied;
    }

    method Finish() returns (batch: FrameBatch)
      requires Valid()
      modifies this
      ensures Valid() && buffer == old(buffer)
      ensures old(error) != NoError ==>
        batch == FailedBatch([], buffer, old(error)) && error == old(error) && finished == old(finished)
      ensures old(error) == NoError ==> finished && error == batch.error
      ensures old(error) == NoError ==> batch.endOfStream == (buffer == [])
      ensures old(error) == NoError ==> batch.error == if buffer == [] then NoError else TruncatedFrame
    {
      if error != NoError { return FailedBatch([], buffer, error); }
      finished := true;
      if buffer != [] {
        error := TruncatedFrame;
        batch := FrameBatch([], [], error, 0, |buffer|, false, false);
      } else {
        batch := FrameBatch([], [], NoError, 0, 0, false, true);
      }
    }

    method Reset()
      requires Valid()
      modifies this
      ensures Valid() && buffer == [] && error == NoError && !finished
    {
      expected, buffer, error, finished := 0, [], NoError, false;
    }
  }

  lemma FeedingStarts(held: seq<byte>, data: seq<byte>, max: nat)
    ensures Continues(ParseFrames(held + data, max), [], ParseFrames(held + data[0..], max), 0)
  {
    hide ParseFrames;
    assert data[0..] == data;
  }

  lemma FeedingFails(
      held: seq<byte>, data: seq<byte>, max: nat, frames: seq<seq<byte>>, buffer: seq<byte>, position: nat)
    requires Unfinished(held, max) && position <= |data| && |buffer| == HEADER_BYTES
    requires SizeError(Size(buffer), max) != NoError
    requires Continues(ParseFrames(held + data, max), frames, ParseFrames(buffer + data[position..], max),
      |held| + position - |buffer|)
    ensures FedBatch(held, data, max)
      == FrameBatch(frames, data[position..], SizeError(Size(buffer), max), position, |buffer|, false, false)
    ensures ParseFrames(held + data, max).buffer == buffer
  {
    hide ParseFrames, Low16;
    Rejected(buffer, data[position..], max);
    TakesTheBuffer(held, data, max);
    assert (held + data)[|held| + position..] == data[position..];
  }

  lemma FeedingEnds(held: seq<byte>, data: seq<byte>, max: nat, frames: seq<seq<byte>>, buffer: seq<byte>)
    requires Unfinished(held, max) && Unfinished(buffer, max)
    requires Continues(ParseFrames(held + data, max), frames, ParseFrames(buffer + data[|data|..], max),
      |held| + |data| - |buffer|)
    ensures FedBatch(held, data, max) == FrameBatch(frames, [], NoError, |data|, |buffer|, buffer != [], false)
    ensures ParseFrames(held + data, max).buffer == buffer
  {
    hide ParseFrames, Low16, Unfinished;
    assert buffer + data[|data|..] == buffer;
    TakesTheBuffer(buffer, [], max);
    TakesTheBuffer(held, data, max);
  }

  lemma Move(buffer: seq<byte>, data: seq<byte>, position: nat, copied: nat)
    requires position + copied <= |data|
    ensures buffer + data[position..] == (buffer + data[position..position + copied]) + data[position + copied..]
  {
  }

  lemma Rejected(buffer: seq<byte>, rest: seq<byte>, max: nat)
    requires |buffer| == HEADER_BYTES && SizeError(Size(buffer), max) != NoError
    ensures ParseFrames(buffer + rest, max) == Parsed([], buffer, SizeError(Size(buffer), max), HEADER_BYTES)
  {
    assert (buffer + rest)[..HEADER_BYTES] == buffer;
  }

  // ---- any way of cutting the stream ---------------------------------------------------------------------

  function Concat(chunks: seq<seq<byte>>): seq<byte> {
    if chunks == [] then [] else chunks[0] + Concat(chunks[1..])
  }

  /** The frames, buffer and sticky error after feeding the chunks one by one, and the bytes
      consumed altogether. */
  function FedAll(buffer: seq<byte>, chunks: seq<seq<byte>>, max: nat): Parsed
    requires Unfinished(buffer, max)
    decreases |chunks|
  {
    if chunks == [] then Parsed([], buffer, NoError, 0)
    else
      var batch := FedBatch(buffer, chunks[0], max);
      var p := ParseFrames(buffer + chunks[0], max);
      if p.error != NoError then Parsed(batch.frames, p.buffer, p.error, batch.consumed)
      else
        StaysUnfinished(buffer + chunks[0], max);
        var rest := FedAll(p.buffer, chunks[1..], max);
        rest.(frames := batch.frames + rest.frames, taken := batch.consumed + rest.taken)
  }

  lemma {:induction false} StaysUnfinished(s: seq<byte>, max: nat)
    ensures ParseFrames(s, max).error == NoError ==> Unfinished(ParseFrames(s, max).buffer, max)
    decreases |s|
  {
    if |s| >= HEADER_BYTES && SizeError(Size(s), max) == NoError && |s| >= HEADER_BYTES + Size(s) {
      StaysUnfinished(s[HEADER_BYTES + Size(s)..], max);
    }
  }

  lemma {:induction false} FedAllIsParse(buffer: seq<byte>, chunks: seq<seq<byte>>, max: nat)
    requires Unfinished(buffer, max)
    ensures var p := ParseFrames(buffer + Concat(chunks), max);
      FedAll(buffer, chunks, max) == Parsed(p.frames, p.buffer, p.error, p.taken - |buffer|)
    decreases |chunks|
  {
    hide ParseFrames, Unfinished;
    if chunks == [] {
      TakesTheBuffer(buffer, [], max);
      assert buffer + [] == buffer;
    } else {
      TakesTheBuffer(buffer, chunks[0], max);
      TakesTheBuffer(buffer, Concat(chunks), max);
      var a := buffer + chunks[0];
      var p := ParseFrames(a, max);
      assert a + Concat(chunks[1..]) == buffer + Concat(chunks);
      ParseResumes(a, Concat(chunks[1..]), max);
      ParseConserves(a, max);
      if p.error == NoError {
        StaysUnfinished(a, max);
        FedAllIsParse(p.buffer, chunks[1..], max);
      }
    }
  }

  /** Chunking does not matter: the frames, the sticky error, the final buffer and the bytes
      consumed are those of parsing the whole stream at once. */
  lemma ChunkingDoesNotMatter(chunks: seq<seq<byte>>, max: nat)
    ensures FedAll([], chunks, max) == ParseFrames(Concat(chunks), max)
    ensures var p := FedAll([], chunks, max);
      p.taken == WireSize(p.frames) + |p.buffer|
  {
    hide ParseFrames;
    FedAllIsParse([], chunks, max);
    assert [] + Concat(chunks) == Concat(chunks);
    ParseConserves(Concat(chunks), max);
  }

  /** Feeding framed payloads, cut anywhere, gives the payloads back. */
  lemma FeedingUndoesFraming(payloads: seq<seq<byte>>, chunks: seq<seq<byte>>, max: nat)
    requires GoodPayloads(payloads, max) && max <= WIRE_PAYLOAD_LIMIT && Concat(chunks) == FramedAll(payloads)
    ensures FedAll([], chunks, max) == Parsed(payloads, [], NoError, |FramedAll(payloads)|)
  {
    hide ParseFrames, FedAll, FramedAll, Concat;
    ChunkingDoesNotMatter(chunks, max);
    ParseUndoesFraming(payloads, max);
  }
}
