/**
 The frame codec on a byte stream: many frames one after another, arriving in chunks of
 any size. `Drain` is the meaning of decoding a buffer until nothing more is ready; the
 class is the buffer as the daemon changes it, with the read loop that drives it.
 */
module FrameStream {
  import opened Bytes
  import opened FrameCodec

  /** Frames decoded so far, bytes still buffered, and whether an invalid tag has ended the stream. */
  datatype Progress = Progress(frames: seq<Frame>, rest: seq<u8>, failed: bool)

  function EncodeAll(frames: seq<Frame>): seq<u8> {
    if frames == [] then [] else Encoding(frames[0]) + EncodeAll(frames[1..])
  }

  function Drain(buffer: seq<u8>): Progress
    decreases |buffer|
  {
    match Parse(buffer)
    case NotReady => Progress([], buffer, false)
    case Invalid => Progress([], buffer, true)
    case Got(frame, rest) =>
      ParseIsStable(buffer, []);
      var later := Drain(rest);
      Progress([frame] + later.frames, later.rest, later.failed)
  }

  /** One turn of the read loop: the loop has returned after an error, otherwise it appends and drains. */
  function Feed(progress: Progress, chunk: seq<u8>): Progress {
    if progress.failed then progress
    else
      var later := Drain(progress.rest + chunk);
      Progress(progress.frames + later.frames, later.rest, later.failed)
  }

  function FeedAll(progress: Progress, chunks: seq<seq<u8>>): Progress
    decreases |chunks|
  {
    if chunks == [] then progress else FeedAll(Feed(progress, chunks[0]), chunks[1..])
  }

  function Join(chunks: seq<seq<u8>>): seq<u8> {
    if chunks == [] then [] else chunks[0] + Join(chunks[1..])
  }

  // ---------------------------------------------------------------- whole streams

  /** What was consumed is exactly the encoding of what came out, and no frame that came out is oversized. */
  lemma {:induction false} DrainIsCanonical(buffer: seq<u8>)
    ensures var d := Drain(buffer);
            AllFit(d.frames) && buffer == EncodeAll(d.frames) + d.rest
    decreases |buffer|
  {
    hide Encoding, Parse;
    if Parse(buffer).Got? {
      var Got(frame, rest) := Parse(buffer);
      ParseIsStable(buffer, []);
      ParseIsCanonical(buffer, frame, rest);
      DrainIsCanonical(rest);
      var later := Drain(rest);
      assert ([frame] + later.frames)[1..] == later.frames;
      assert buffer == Encoding(frame) + (EncodeAll(later.frames) + later.rest)
                    == Encoding(frame) + EncodeAll(later.frames) + later.rest;
    }
  }

  /**
   Draining the encodings of any fitting frames gives back exactly those frames and goes on with
   what follows them.
   */
  lemma {:induction false} DrainOfEncodings(frames: seq<Frame>, tail: seq<u8>)
    requires AllFit(frames)
    ensures Drain(EncodeAll(frames) + tail)
            == Progress(frames + Drain(tail).frames, Drain(tail).rest, Drain(tail).failed)
  {
    hide Encoding, Parse;
    if frames == [] {
      assert EncodeAll(frames) + tail == tail;
    } else {
      var later := EncodeAll(frames[1..]) + tail;
      Associate(Encoding(frames[0]), EncodeAll(frames[1..]), tail);
      DrainAfterEncoding(frames[0], later);
      DrainOfEncodings(frames[1..], tail);
      Associate([frames[0]], frames[1..], Drain(tail).frames);
      assert [frames[0]] + frames[1..] == frames;
    }
  }

  lemma DrainAfterEncoding(frame: Frame, tail: seq<u8>)
    requires Fits(frame)
    ensures var later := Drain(tail);
            Drain(Encoding(frame) + tail) == Progress([frame] + later.frames, later.rest, later.failed)
  {
    ParseIsCanonical(Encoding(frame) + tail, frame, tail);
  }

  /** Draining in two goes is draining once, unless the first go already failed. */
  lemma {:induction false} DrainInTwo(buffer: seq<u8>, more: seq<u8>)
    ensures var d := Drain(buffer);
            var whole := Drain(buffer + more);
            var later := Drain(d.rest + more);
            if d.failed then whole.failed && whole.frames == d.frames
            else whole == Progress(d.frames + later.frames, later.rest, later.failed)
    decreases |buffer|
  {
    hide Parse;
    ParseIsStable(buffer, more);
    if Parse(buffer).Got? {
      DrainInTwo(Parse(buffer).rest, more);
    }
  }

  /**
   Cutting a stream into chunks has no effect: whatever the bytes, valid or not, the read loop
   yields the frames and the verdict of decoding the whole stream at once, and, short of an
   error, holds the same undecoded tail.
   */
  lemma {:induction false} ChunkingIsIrrelevant(start: Progress, chunks: seq<seq<u8>>)
    requires !start.failed && Parse(start.rest).NotReady?
    ensures var fed := FeedAll(start, chunks);
            var whole := Drain(start.rest + Join(chunks));
            && fed.frames == start.frames + whole.frames
            && fed.failed == whole.failed
            && (!fed.failed ==> fed.rest == whole.rest && Parse(fed.rest).NotReady?)
    decreases |chunks|
  {
    hide Parse, Drain;
    if chunks == [] {
      assert start.rest + [] == start.rest;
      DrainUnready(start.rest);
    } else {
      var next := Feed(start, chunks[0]);
      assert start.rest + Join(chunks) == start.rest + chunks[0] + Join(chunks[1..]);
      DrainInTwo(start.rest + chunks[0], Join(chunks[1..]));
      if next.failed {
        FailedStaysFailed(next, chunks[1..]);
      } else {
        DrainStopsUnready(start.rest + chunks[0]);
        ChunkingIsIrrelevant(next, chunks[1..]);
      }
    }
  }

  lemma DrainUnready(buffer: seq<u8>)
    requires Parse(buffer).NotReady?
    ensures Drain(buffer) == Progress([], buffer, false)
  {
  }

  lemma {:induction false} DrainStopsUnready(buffer: seq<u8>)
    ensures var d := Drain(buffer);
            if d.failed then Parse(d.rest).Invalid? else Parse(d.rest).NotReady?
    decreases |buffer|
  {
    ParseIsStable(buffer, []);
    if Parse(buffer).Got? {
      DrainStopsUnready(Parse(buffer).rest);
    }
  }

  lemma {:induction false} FailedStaysFailed(progress: Progress, chunks: seq<seq<u8>>)
    requires progress.failed
    ensures FeedAll(progress, chunks) == progress
    decreases |chunks|
  {
    if chunks != [] {
      FailedStaysFailed(progress, chunks[1..]);
    }
  }

  /**
   The sender's list comes back: for all fitting frames, an incomplete tail, and every way of
   cutting their bytes into chunks, the read loop yields that list and keeps that tail.
   */
  lemma StreamRoundTrip(frames: seq<Frame>, tail: seq<u8>, chunks: seq<seq<u8>>)
    requires AllFit(frames) && Parse(tail).NotReady?
    requires Join(chunks) == EncodeAll(frames) + tail
    ensures FeedAll(Progress([], [], false), chunks) == Progress(frames, tail, false)
  {
    ChunkingIsIrrelevant(Progress([], [], false), chunks);
    DrainOfEncodings(frames, tail);
    assert [] + Join(chunks) == Join(chunks);
    assert frames + [] == frames;
  }

  /** A frame decoded from a partly arrived stream is the first of it, if that fits, and the others stay whole. */
  lemma NextFrameOfStream(frames: seq<Frame>, buffer: seq<u8>, unread: seq<u8>)
    requires buffer + unread == EncodeAll(frames)
    ensures Parse(buffer).Got? ==> frames != []
    ensures frames != [] && Fits(frames[0]) ==> !Parse(buffer).Invalid?
    ensures frames != [] && Fits(frames[0]) && Parse(buffer).Got? ==>
              Parse(buffer).frame == frames[0] && Parse(buffer).rest + unread == EncodeAll(frames[1..])
  {
    ParseIsStable(buffer, unread);
    if frames != [] && Fits(frames[0]) {
      ParseIsCanonical(buffer + unread, frames[0], EncodeAll(frames[1..]));
    }
  }

  lemma {:induction false} EncodeAllAppend(frames: seq<Frame>, frame: Frame)
    ensures EncodeAll(frames + [frame]) == EncodeAll(frames) + Encoding(frame)
  {
    hide Encoding;
    if frames == [] {
      assert [frame][1..] == [];
    } else {
      EncodeAllAppend(frames[1..], frame);
      assert (frames + [frame])[1..] == frames[1..] + [frame];
    }
  }

  lemma {:induction false} EncodeAllOfConcat(a: seq<Frame>, b: seq<Frame>)
    ensures EncodeAll(a + b) == EncodeAll(a) + EncodeAll(b)
  {
    hide Encoding;
    if a == [] {
      assert a + b == b;
    } else {
      assert (a + b)[1..] == a[1..] + b;
      EncodeAllOfConcat(a[1..], b);
      Associate(Encoding(a[0]), EncodeAll(a[1..]), EncodeAll(b));
    }
  }

  /** An oversized payload breaks the stream: its surplus bytes are read as the next frames. */
  lemma OversizedPayloadLeaks(srcPort: u16, dstPort: u16, data: seq<u8>, tail: seq<u8>)
    requires |data| >= 0x1_0000
    ensures var kept := |data| % 0x1_0000;
            var surplus := Drain(data[kept..] + tail);
            Drain(Encoding(Data(srcPort, dstPort, data)) + tail)
            == Progress([Data(srcPort, dstPort, data[..kept])] + surplus.frames, surplus.rest, surplus.failed)
  {
    ParseOfEncoding(Data(srcPort, dstPort, data), tail);
  }

  /** Decoding one frame, in the middle of decoding many. */
  lemma DrainNext(before: seq<Frame>, buffer: seq<u8>)
    ensures var d := Drain(buffer);
            if Parse(buffer).Got? then
              var later := Drain(Parse(buffer).rest);
              && |Parse(buffer).rest| < |buffer|
              && before + d.frames == before + [Parse(buffer).frame] + later.frames
              && d.rest == later.rest && d.failed == later.failed
            else before + d.frames == before && d.rest == buffer && d.failed == Parse(buffer).Invalid?
  {
    hide Parse;
    ParseIsStable(buffer, []);
    if Parse(buffer).Got? {
      Associate(before, [Parse(buffer).frame], Drain(Parse(buffer).rest).frames);
    }
  }

  // ---------------------------------------------------------------- the codec in place

  /** The codec's growable byte buffer: encoding appends at the back, decoding consumes from the front. */
  class FrameBuffer {
    var bytes: seq<u8>

    constructor ()
      ensures bytes == []
    {
      bytes := [];
    }

    method Append(chunk: seq<u8>)
      modifies this
      ensures bytes == old(bytes) + chunk
    {
      bytes := bytes + chunk;
    }

    method Advance(count: nat)
      requires count <= |bytes|
      modifies this
      ensures bytes == old(bytes)[count..]
    {
      bytes := bytes[count..];
    }

    method SplitTo(count: nat) returns (front: seq<u8>)
      requires count <= |bytes|
      modifies this
      ensures front == old(bytes)[..count] && bytes == old(bytes)[count..]
    {
      front := bytes[..count];
      bytes := bytes[count..];
    }

    method Encode(frame: Frame)
      modifies this
      ensures bytes == old(bytes) + Encoding(frame)
    {
      match frame {
        case Ping => Append([1]);
        case Pong => Append([2]);
        case Data(srcPort, dstPort, data) =>
          Append([3]);
          Append(PutU16(srcPort));
          Append(PutU16(dstPort));
          Append(PutU16(|data| % 0x1_0000));
          assert bytes == old(bytes) + Header(srcPort, dstPort, |data| % 0x1_0000);
          Append(data);
      }
    }

    /** `ok` is false for an invalid tag. Unless a frame comes out, the buffer is left as it was. */
    method Decode() returns (ok: bool, frame: Option<Frame>)
      modifies this
      ensures match Parse(old(bytes))
              case NotReady => ok && frame == None && bytes == old(bytes)
              case Invalid => !ok && frame == None && bytes == old(bytes)
              case Got(f, rest) => ok && frame == Some(f) && bytes == rest
    {
      if |bytes| == 0 {
        return true, None;
      }
      var tag := bytes[0];
      if tag == 1 {
        Advance(1);
        return true, Some(Ping);
      } else if tag == 2 {
        Advance(1);
        return true, Some(Pong);
      } else if tag != 3 {
        return false, None;
      }
      if |bytes| < 7 {
        return true, None;
      }
      var srcPort := GetU16(bytes[1..3]);
      var dstPort := GetU16(bytes[3..5]);
      var length: int := GetU16(bytes[5..7]);
      if |bytes| < 7 + length {
        return true, None;
      }
      ghost var whole := bytes;
      Advance(7);
      var data := SplitTo(length);
      assert data == whole[7..7 + length] && bytes == whole[7 + length..];
      return true, Some(Data(srcPort, dstPort, data));
    }

    /** The inner turns of the read loop: decode until nothing is ready or the tag is invalid. */
    method DecodeAll() returns (ok: bool, frames: seq<Frame>)
      modifies this
      ensures Progress(frames, bytes, !ok) == Drain(old(bytes))
    {
      frames := [];
      ok := true;
      while true
        invariant ok
        invariant var d := Drain(bytes);
                  Progress(frames + d.frames, d.rest, d.failed) == Drain(old(bytes))
        decreases |bytes|
      {
        hide Parse, Drain;
        DrainNext(frames, bytes);
        var next: Option<Frame>;
        ok, next := Decode();
        if next.None? {
          return ok, frames;
        }
        frames := frames + [next.value];
      }
    }

    /** The read loop over a whole connection: the chunks come in as the transport delivers them. */
    method ReadChunks(chunks: seq<seq<u8>>) returns (ok: bool, frames: seq<Frame>)
      requires bytes == []
      modifies this
      ensures Progress(frames, bytes, !ok) == FeedAll(Progress([], [], false), chunks)
      ensures ok == !Drain(Join(chunks)).failed && frames == Drain(Join(chunks)).frames
    {
      ok, frames := true, [];
      var i := 0;
      while i < |chunks| && ok
        invariant 0 <= i <= |chunks|
        invariant FeedAll(Progress([], [], false), chunks)
                  == FeedAll(Progress(frames, bytes, !ok), chunks[i..])
      {
        Append(chunks[i]);
        var more: seq<Frame>;
        ok, more := DecodeAll();
        frames := frames + more;
        i := i + 1;
      }
      if !ok {
        FailedStaysFailed(Progress(frames, bytes, !ok), chunks[i..]);
      }
      ChunkingIsIrrelevant(Progress([], [], false), chunks);
      assert [] + Join(chunks) == Join(chunks);
    }
  }
}
