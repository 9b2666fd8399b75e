/**
 The tagged, length-prefixed frames that travel on a connection between two daemons.
 `Encoding` and `Parse` give the format as functions on bytes; the class at the end is
 the codec as the daemon has it, working in place on a growable buffer.
 */
module FrameCodec {
  import opened Bytes

  datatype Frame =
    | Ping
    | Pong
    | Data(srcPort: u16, dstPort: u16, data: seq<u8>)

  /** What one attempt to read a frame off the front of a buffer can come to. */
  datatype Parsed =
    | NotReady
    | Invalid
    | Got(frame: Frame, rest: seq<u8>)

  /** The length field has 16 bits: only payloads up to 65535 bytes keep their length. */
  predicate Fits(frame: Frame) {
    frame.Data? ==> |frame.data| < 0x1_0000
  }

  ghost predicate AllFit(frames: seq<Frame>) {
    forall f | f in frames :: Fits(f)
  }

  /** The length is cast to 16 bits, so it wraps; the payload is written in full. */
  function Encoding(frame: Frame): seq<u8> {
    match frame
    case Ping => [1]
    case Pong => [2]
    case Data(srcPort, dstPort, data) =>
      Header(srcPort, dstPort, |data| % 0x1_0000) + data
  }

  function Header(srcPort: u16, dstPort: u16, length: u16): (header: seq<u8>)
    ensures |header| == 7 && header[0] == 3
    ensures GetU16(header[1..3]) == srcPort && GetU16(header[3..5]) == dstPort && GetU16(header[5..7]) == length
  {
    var header := [3] + PutU16(srcPort) + PutU16(dstPort) + PutU16(length);
    assert header[1..3] == PutU16(srcPort) && header[3..5] == PutU16(dstPort) && header[5..7] == PutU16(length);
    header
  }

  /** Seven bytes under the data tag are the header of the numbers they hold. */
  lemma HeaderOfItsFields(header: seq<u8>)
    requires |header| == 7 && header[0] == 3
    ensures Header(GetU16(header[1..3]), GetU16(header[3..5]), GetU16(header[5..7])) == header
  {
    assert header == [3] + header[1..3] + header[3..5] + header[5..7];
  }

  function Parse(buffer: seq<u8>): Parsed {
    if |buffer| == 0 then NotReady
    else if buffer[0] == 1 then Got(Ping, buffer[1..])
    else if buffer[0] == 2 then Got(Pong, buffer[1..])
    else if buffer[0] != 3 then Invalid
    else if |buffer| < 7 then NotReady
    else
      var length := GetU16(buffer[5..7]);
      if |buffer| < 7 + length then NotReady
      else Got(Data(GetU16(buffer[1..3]), GetU16(buffer[3..5]), buffer[7..7 + length]), buffer[7 + length..])
  }

  // ---------------------------------------------------------------- one frame

  /** Byte by byte: one type byte; for data the ports and the length, the high byte of each first, and the payload. */
  lemma WireFormat(srcPort: u16, dstPort: u16, data: seq<u8>)
    ensures Encoding(Ping) == [1] && Encoding(Pong) == [2]
    ensures Encoding(Data(srcPort, dstPort, data))
            == [3, srcPort / 256, srcPort % 256, dstPort / 256, dstPort % 256, |data| / 256 % 256, |data| % 256] + data
  {
    HeaderBytes(srcPort, dstPort, |data| % 0x1_0000);
    hide Header;
    LengthBytes(|data|);
  }

  lemma HeaderBytes(srcPort: u16, dstPort: u16, length: u16)
    ensures Header(srcPort, dstPort, length)
            == [3, srcPort / 256, srcPort % 256, dstPort / 256, dstPort % 256, length / 256, length % 256]
  {
  }

  lemma LengthBytes(n: nat)
    ensures n % 0x1_0000 / 256 == n / 256 % 256 && n % 0x1_0000 % 256 == n % 256
  {
  }

  /** A payload of any length: the decoder keeps the first n mod 65536 bytes and leaves the others in the buffer. */
  lemma ParseOfEncoding(frame: Frame, tail: seq<u8>)
    ensures !frame.Data? ==> Parse(Encoding(frame) + tail) == Got(frame, tail)
    ensures frame.Data? ==>
              var kept := |frame.data| % 0x1_0000;
              Parse(Encoding(frame) + tail)
              == Got(Data(frame.srcPort, frame.dstPort, frame.data[..kept]), frame.data[kept..] + tail)
  {
    var bytes := Encoding(frame) + tail;
    match frame
    case Ping => assert bytes[1..] == tail;
    case Pong => assert bytes[1..] == tail;
    case Data(s, d, data) =>
      var kept := |data| % 0x1_0000;
      var header := Header(s, d, kept);
      hide Header, GetU16;
      SlicesBehindHeader(header, data, tail, kept);
  }

  lemma SlicesBehindHeader(header: seq<u8>, data: seq<u8>, tail: seq<u8>, kept: nat)
    requires |header| == 7 && kept <= |data|
    ensures var bytes := header + data + tail;
            && bytes[0] == header[0]
            && bytes[1..3] == header[1..3] && bytes[3..5] == header[3..5] && bytes[5..7] == header[5..7]
            && bytes[7..7 + kept] == data[..kept]
            && bytes[7 + kept..] == data[kept..] + tail
  {
  }

  /** One frame survives the trip, with nothing left over, exactly when its payload has at most 65535 bytes. */
  lemma RoundTripIffFits(frame: Frame)
    ensures Parse(Encoding(frame)) == Got(frame, []) <==> Fits(frame)
  {
    hide Encoding, Parse;
    assert Encoding(frame) + [] == Encoding(frame);
    if Fits(frame) {
      ParseOfFitting(frame, []);
    } else {
      ParseOfEncoding(frame, []);
    }
  }

  /**
   Decoding is canonical: a frame comes out exactly when its encoding is at the front, and exactly
   that is consumed.
   */
  lemma ParseIsCanonical(buffer: seq<u8>, frame: Frame, rest: seq<u8>)
    ensures Parse(buffer) == Got(frame, rest) <==> Fits(frame) && buffer == Encoding(frame) + rest
  {
    if Parse(buffer) == Got(frame, rest) {
      ParsedBytesAreTheEncoding(buffer);
    }
    if Fits(frame) && buffer == Encoding(frame) + rest {
      ParseOfFitting(frame, rest);
    }
  }

  lemma ParsedBytesAreTheEncoding(buffer: seq<u8>)
    requires Parse(buffer).Got?
    ensures var Got(frame, rest) := Parse(buffer);
            Fits(frame) && buffer == Encoding(frame) + rest
  {
    var Got(frame, rest) := Parse(buffer);
    if frame.Data? {
      var header := buffer[..7];
      HeaderOfItsFields(header);
      hide Header, GetU16;
      assert buffer[1..3] == header[1..3] && buffer[3..5] == header[3..5] && buffer[5..7] == header[5..7];
      assert Encoding(frame) == header + frame.data;
      assert buffer == header + frame.data + rest;
    } else {
      assert buffer == [buffer[0]] + buffer[1..];
    }
  }

  lemma ParseOfFitting(frame: Frame, tail: seq<u8>)
    requires Fits(frame)
    ensures Parse(Encoding(frame) + tail) == Got(frame, tail)
  {
    hide Encoding, Parse;
    ParseOfEncoding(frame, tail);
    if frame.Data? {
      assert frame.data[..|frame.data|] == frame.data && frame.data[|frame.data|..] + tail == tail;
    }
  }

  /** Bytes that arrive later never change a frame or an error already seen. */
  lemma ParseIsStable(buffer: seq<u8>, more: seq<u8>)
    ensures Parse(buffer).Got? ==> Parse(buffer + more) == Got(Parse(buffer).frame, Parse(buffer).rest + more)
    ensures Parse(buffer).Invalid? ==> Parse(buffer + more).Invalid?
    ensures Parse(buffer).Got? ==> |Parse(buffer).rest| < |buffer|
  {
    if Parse(buffer).Got? {
      var Got(frame, rest) := Parse(buffer);
      ParsedBytesAreTheEncoding(buffer);
      assert Encoding(frame) + rest + more == Encoding(frame) + (rest + more);
      ParseIsCanonical(buffer + more, frame, rest + more);
    }
  }

  /**
   "Not ready" is never a dead end: it means precisely that the buffer is a proper prefix of some
   frame's encoding.
   */
  lemma NotReadyIffIncomplete(buffer: seq<u8>)
    ensures Parse(buffer).NotReady? <==> exists frame :: Fits(frame) && buffer < Encoding(frame)
  {
    if frame :| Fits(frame) && buffer < Encoding(frame) {
      var more := Encoding(frame)[|buffer|..];
      assert buffer + more == Encoding(frame) == Encoding(frame) + [];
      ParseIsCanonical(Encoding(frame), frame, []);
      ParseIsStable(buffer, more);
    }
    if Parse(buffer).NotReady? {
      Complete(buffer);
    }
  }

  /** An incomplete buffer is completed by zero bytes: the missing header first, then the missing payload. */
  lemma Complete(buffer: seq<u8>)
    requires Parse(buffer).NotReady?
    ensures exists frame :: Fits(frame) && buffer < Encoding(frame)
  {
    if buffer == [] {
      assert buffer < Encoding(Ping);
    } else if |buffer| < 7 {
      var header := buffer + Zeros(7 - |buffer|);
      CompletePayload(header, header, Zeros(GetU16(header[5..7])));
      assert buffer < header + Zeros(GetU16(header[5..7])) || buffer < header;
    } else {
      var missing := 7 + GetU16(buffer[5..7]) - |buffer|;
      CompletePayload(buffer[..7], buffer, Zeros(missing));
    }
  }

  lemma CompletePayload(header: seq<u8>, buffer: seq<u8>, missing: seq<u8>)
    requires |header| == 7 && header[0] == 3 && header <= buffer
    requires |buffer| + |missing| == 7 + GetU16(header[5..7])
    ensures exists frame :: Fits(frame) && buffer + missing == Encoding(frame)
  {
    var payload := buffer[7..] + missing;
    var srcPort, dstPort, length := GetU16(header[1..3]), GetU16(header[3..5]), GetU16(header[5..7]);
    HeaderOfItsFields(header);
    hide Header, GetU16;
    assert buffer == header + buffer[7..];
    assert |payload| == length;
    assert buffer + missing == header + payload == Encoding(Data(srcPort, dstPort, payload));
  }

  function Zeros(n: nat): (zeros: seq<u8>)
    ensures |zeros| == n
  {
    seq(n, _ => 0)
  }
}
