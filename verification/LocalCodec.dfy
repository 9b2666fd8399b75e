/**
 The frames local clients exchange with the daemon: MessagePack values of the forms the daemon
 uses, read from the front of a buffer. After a frame is read the daemon serialises it again
 and drops that many bytes, whatever the client's own encoding was.
 */
module LocalCodec {
  import opened Bytes
  import opened Identifiers
  import FrameStream

  datatype ErrorCode = NetworkUnreachable | NotBound

  datatype Frame =
    | Bind(port: u16)
    | Data(host: Identifier, port: u16, data: seq<u8>)
    | Error(code: ErrorCode)

  /** A value read from the front of a buffer; `shortest` if every number and length was in its shortest form. */
  datatype Read<+T> = Read(value: T, rest: seq<u8>, shortest: bool)

  // ---------------------------------------------------------------- writing: always the shortest form

  /** The 32-bit lengths of MessagePack are big-endian. */
  function PutU32(n: nat): (bytes: seq<u8>)
    requires n < 0x1_0000_0000
    ensures |bytes| == 4
  {
    PutU16(n / 0x1_0000) + PutU16(n % 0x1_0000)
  }

  function GetU32(bytes: seq<u8>): nat
    requires |bytes| == 4
  {
    (GetU16(bytes[..2]) as int) * 0x1_0000 + GetU16(bytes[2..])
  }

  function WriteUint(n: u16): seq<u8> {
    if n < 0x80 then [n]
    else if n < 0x100 then [0xcc, n]
    else [0xcd] + PutU16(n)
  }

  /** An identifier is a string of 64 characters, one byte of length. */
  function WriteId(id: Identifier): seq<u8> {
    [0xd9, 64] + ToText(id)
  }

  function WriteArrayHeader(n: nat): seq<u8>
    requires n < 0x1_0000_0000
  {
    if n < 16 then [0x90 + n]
    else if n < 0x1_0000 then [0xdc] + PutU16(n)
    else [0xdd] + PutU32(n)
  }

  function WriteAll(data: seq<u8>): seq<u8> {
    if data == [] then [] else WriteUint(data[0]) + WriteAll(data[1..])
  }

  /** The serialised frame: a variant tag, then its contents; data is an array of three values. */
  function Serialize(frame: Frame): seq<u8>
    requires Sendable(frame)
  {
    match frame
    case Bind(port) => [0] + WriteUint(port)
    case Data(host, port, data) =>
      [1, 0x93] + (WriteId(host) + (WriteUint(port) + (WriteArrayHeader(|data|) + WriteAll(data))))
    case Error(code) => [2, if code.NetworkUnreachable? then 0 else 1]
  }

  /** An array has at most 2^32 - 1 elements. */
  predicate Sendable(frame: Frame) {
    frame.Data? ==> |frame.data| < 0x1_0000_0000
  }

  // ---------------------------------------------------------------- reading: any form

  /** An unsigned number in any of its forms, if it fits below `bound`. */
  function ReadUint(buffer: seq<u8>, bound: nat): Option<Read<nat>> {
    if buffer == [] then None
    else
      var tag := buffer[0];
      if tag < 0x80 then Below(tag, buffer[1..], true, bound)
      else if tag == 0xcc && |buffer| >= 2 then Below(buffer[1], buffer[2..], buffer[1] >= 0x80, bound)
      else if tag == 0xcd && |buffer| >= 3 then
        var n := GetU16(buffer[1..3]);
        Below(n, buffer[3..], n >= 0x100, bound)
      else if tag == 0xce && |buffer| >= 5 then Below(GetU32(buffer[1..5]), buffer[5..], false, bound)
      else None
  }

  function Below(n: nat, rest: seq<u8>, shortest: bool, bound: nat): Option<Read<nat>> {
    if n < bound then Some(Read(n, rest, shortest)) else None
  }

  /** The length of a string, in any of its forms. */
  function ReadStringHeader(buffer: seq<u8>): Option<Read<nat>> {
    if buffer == [] then None
    else
      var tag := buffer[0];
      if 0xa0 <= tag < 0xc0 then Some(Read(tag - 0xa0, buffer[1..], true))
      else if tag == 0xd9 && |buffer| >= 2 then Some(Read(buffer[1], buffer[2..], buffer[1] >= 32))
      else if tag == 0xda && |buffer| >= 3 then
        var n := GetU16(buffer[1..3]);
        Some(Read(n, buffer[3..], n >= 0x100))
      else if tag == 0xdb && |buffer| >= 5 then
        var n := GetU32(buffer[1..5]);
        Some(Read(n, buffer[5..], n >= 0x1_0000))
      else None
  }

  function ReadArrayHeader(buffer: seq<u8>): Option<Read<nat>> {
    if buffer == [] then None
    else
      var tag := buffer[0];
      if 0x90 <= tag < 0xa0 then Some(Read(tag - 0x90, buffer[1..], true))
      else if tag == 0xdc && |buffer| >= 3 then
        var n := GetU16(buffer[1..3]);
        Some(Read(n, buffer[3..], n >= 16))
      else if tag == 0xdd && |buffer| >= 5 then
        var n := GetU32(buffer[1..5]);
        Some(Read(n, buffer[5..], n >= 0x1_0000))
      else None
  }

  function ReadId(buffer: seq<u8>): Option<Read<Identifier>> {
    var header := ReadStringHeader(buffer);
    if header.None? || |header.value.rest| < header.value.value then None
    else
      var Read(n, rest, shortest) := header.value;
      var id := FromText(rest[..n]);
      if id.None? then None else Some(Read(id.value, rest[n..], shortest))
  }

  function ReadMany(buffer: seq<u8>, count: nat): (r: Option<Read<seq<u8>>>)
    ensures r.Some? ==> |r.value.value| == count
    decreases count
  {
    if count == 0 then Some(Read([], buffer, true))
    else
      var first := ReadUint(buffer, 0x100);
      if first.None? then None
      else
        var others := ReadMany(first.value.rest, count - 1);
        if others.None? then None
        else Some(Read([first.value.value] + others.value.value, others.value.rest,
                       first.value.shortest && others.value.shortest))
  }

  function ReadData(buffer: seq<u8>): Option<Read<Frame>> {
    var fields := ReadArrayHeader(buffer);
    if fields.None? || fields.value.value != 3 then None
    else
      var host := ReadId(fields.value.rest);
      if host.None? then None
      else
        var port := ReadUint(host.value.rest, 0x1_0000);
        if port.None? then None
        else
          var count := ReadArrayHeader(port.value.rest);
          if count.None? then None
          else
            var data := ReadMany(count.value.rest, count.value.value);
            if data.None? then None
            else
              Some(Read(Data(host.value.value, port.value.value, data.value.value), data.value.rest,
                        fields.value.shortest && host.value.shortest && port.value.shortest
                        && count.value.shortest && data.value.shortest))
  }

  function Parse(buffer: seq<u8>): Option<Read<Frame>> {
    if buffer == [] then None
    else if buffer[0] == 0 then
      var port := ReadUint(buffer[1..], 0x1_0000);
      if port.None? then None else Some(Read(Bind(port.value.value), port.value.rest, port.value.shortest))
    else if buffer[0] == 1 then ReadData(buffer[1..])
    else if buffer[0] == 2 && |buffer| >= 2 && buffer[1] < 2 then
      Some(Read(Error(if buffer[1] == 0 then NetworkUnreachable else NotBound), buffer[2..], true))
    else None
  }

  /** What the daemon makes of a buffer: nothing yet, an error, or a frame and the bytes it leaves. */
  datatype Decoded = NotReady | Failed | Got(frame: Frame, left: seq<u8>)

  function Decode(buffer: seq<u8>): Decoded {
    if buffer == [] then NotReady
    else
      var r := Parse(buffer);
      if r.None? then Failed
      else
        NeverOverruns(buffer);
        Got(r.value.value, buffer[|Serialize(r.value.value)|..])
  }

  // ---------------------------------------------------------------- lengths

  /**
   What was read was a part of the buffer, no shorter than its shortest form, and equal to it only
   if that was used.
   */
  ghost predicate Spent(buffer: seq<u8>, rest: seq<u8>, least: nat, shortest: bool) {
    && |rest| <= |buffer| && rest == buffer[|buffer| - |rest|..]
    && least <= |buffer| - |rest| && (least == |buffer| - |rest| <==> shortest)
  }

  lemma UintSpent(buffer: seq<u8>, bound: nat)
    requires bound <= 0x1_0000 && ReadUint(buffer, bound).Some?
    ensures var Read(n, rest, shortest) := ReadUint(buffer, bound).value;
            n < bound && Spent(buffer, rest, |WriteUint(n)|, shortest)
  {
    hide GetU16, GetU32;
  }

  lemma GetU32Bound(bytes: seq<u8>)
    requires |bytes| == 4
    ensures GetU32(bytes) < 0x1_0000_0000
  {
  }

  lemma StringHeaderSpent(buffer: seq<u8>)
    requires ReadStringHeader(buffer).Some?
    ensures var Read(n, rest, shortest) := ReadStringHeader(buffer).value;
            n == 64 ==> Spent(buffer, rest, 2, shortest)
  {
    hide GetU16, GetU32;
  }

  lemma ArrayHeaderSpent(buffer: seq<u8>)
    requires ReadArrayHeader(buffer).Some?
    ensures var Read(n, rest, shortest) := ReadArrayHeader(buffer).value;
            n < 0x1_0000_0000 && Spent(buffer, rest, |WriteArrayHeader(n)|, shortest)
  {
    hide GetU16, GetU32, PutU16;
    if |buffer| >= 5 {
      GetU32Bound(buffer[1..5]);
    }
  }

  lemma SpentTwice(buffer: seq<u8>, mid: seq<u8>, rest: seq<u8>,
                   first: nat, second: nat, shortest1: bool, shortest2: bool)
    requires Spent(buffer, mid, first, shortest1) && Spent(mid, rest, second, shortest2)
    ensures Spent(buffer, rest, first + second, shortest1 && shortest2)
  {
  }

  lemma {:induction false} ManySpent(buffer: seq<u8>, count: nat)
    requires ReadMany(buffer, count).Some?
    ensures var Read(data, rest, shortest) := ReadMany(buffer, count).value;
            Spent(buffer, rest, |WriteAll(data)|, shortest)
    decreases count
  {
    if count > 0 {
      UintSpent(buffer, 0x100);
      var Read(n, mid, s1) := ReadUint(buffer, 0x100).value;
      ManySpent(mid, count - 1);
      var Read(more, rest, s2) := ReadMany(mid, count - 1).value;
      hide Spent, ReadUint, WriteUint;
      assert ([n] + more)[1..] == more;
      SpentTwice(buffer, mid, rest, |WriteUint(n)|, |WriteAll(more)|, s1, s2);
    }
  }

  lemma IdSpent(buffer: seq<u8>)
    requires ReadId(buffer).Some?
    ensures var Read(id, rest, shortest) := ReadId(buffer).value;
            Spent(buffer, rest, 66, shortest)
  {
    StringHeaderSpent(buffer);
  }

  lemma DataSpent(buffer: seq<u8>)
    requires ReadData(buffer).Some?
    ensures var Read(frame, rest, shortest) := ReadData(buffer).value;
            frame.Data? && Sendable(frame) && Spent(buffer, rest, |Serialize(frame)| - 1, shortest)
  {
    hide Spent, ReadArrayHeader, ReadId, ReadUint, ReadMany, Serialize, WriteUint, WriteAll, WriteArrayHeader;
    var fields := ReadArrayHeader(buffer).value;
    var host := ReadId(fields.rest).value;
    var port := ReadUint(host.rest, 0x1_0000).value;
    var count := ReadArrayHeader(port.rest).value;
    var data := ReadMany(count.rest, count.value).value;
    HeadSpent(buffer, fields, host);
    BodySpent(host.rest, port, count, data);
    SerializedLength(Data(host.value, port.value, data.value));
    SpentTwice(buffer, host.rest, data.rest, 67,
               |WriteUint(port.value)| + |WriteArrayHeader(count.value)| + |WriteAll(data.value)|,
               fields.shortest && host.shortest, port.shortest && count.shortest && data.shortest);
  }

  lemma HeadSpent(buffer: seq<u8>, fields: Read<nat>, host: Read<Identifier>)
    requires ReadArrayHeader(buffer) == Some(fields) && fields.value == 3 && ReadId(fields.rest) == Some(host)
    ensures Spent(buffer, host.rest, 67, fields.shortest && host.shortest)
  {
    ArrayHeaderSpent(buffer);
    IdSpent(fields.rest);
    hide Spent, ReadArrayHeader, ReadId;
    SpentTwice(buffer, fields.rest, host.rest, 1, 66, fields.shortest, host.shortest);
  }

  lemma BodySpent(buffer: seq<u8>, port: Read<nat>, count: Read<nat>, data: Read<seq<u8>>)
    requires ReadUint(buffer, 0x1_0000) == Some(port) && ReadArrayHeader(port.rest) == Some(count)
    requires ReadMany(count.rest, count.value) == Some(data)
    ensures port.value < 0x1_0000 && count.value == |data.value| < 0x1_0000_0000
    ensures Spent(buffer, data.rest,
                  |WriteUint(port.value)| + |WriteArrayHeader(count.value)| + |WriteAll(data.value)|,
                  port.shortest && count.shortest && data.shortest)
  {
    hide Spent, ReadArrayHeader, ReadUint, ReadMany, WriteUint, WriteAll, WriteArrayHeader;
    UintSpent(buffer, 0x1_0000);
    ArrayHeaderSpent(port.rest);
    ManySpent(count.rest, count.value);
    var p, c := |WriteUint(port.value)|, |WriteArrayHeader(count.value)|;
    SpentTwice(buffer, port.rest, count.rest, p, c, port.shortest, count.shortest);
    SpentTwice(buffer, count.rest, data.rest, p + c, |WriteAll(data.value)|,
               port.shortest && count.shortest, data.shortest);
  }

  lemma SerializedLength(frame: Frame)
    requires frame.Data? && Sendable(frame)
    ensures |Serialize(frame)|
            == 68 + |WriteUint(frame.port)| + |WriteArrayHeader(|frame.data|)| + |WriteAll(frame.data)|
  {
  }

  lemma FrameSpent(buffer: seq<u8>)
    requires Parse(buffer).Some?
    ensures var Read(frame, rest, shortest) := Parse(buffer).value;
            Sendable(frame) && Spent(buffer, rest, |Serialize(frame)|, shortest)
  {
    if buffer[0] == 0 {
      UintSpent(buffer[1..], 0x1_0000);
    } else if buffer[0] == 1 {
      DataSpent(buffer[1..]);
    }
  }

  /** The daemon never drops more bytes than it has read. */
  lemma NeverOverruns(buffer: seq<u8>)
    requires Parse(buffer).Some?
    ensures Sendable(Parse(buffer).value.value)
    ensures |Serialize(Parse(buffer).value.value)| <= |buffer| - |Parse(buffer).value.rest|
  {
    FrameSpent(buffer);
  }

  /**
   The daemon leaves precisely the bytes it has not read exactly when the client used the
   shortest form of every number and length; otherwise it reads the end of the frame again.
   */
  lemma LeavesTheUnreadIffShortest(buffer: seq<u8>)
    requires Parse(buffer).Some?
    ensures Decode(buffer) == Got(Parse(buffer).value.value, Parse(buffer).value.rest) <==> Parse(buffer).value.shortest
  {
    FrameSpent(buffer);
  }

  /** A number below 2^16 is read from each of its forms, shortest or not, if it is below the bound. */
  lemma EveryNumberFormIsRead(n: u16, tail: seq<u8>, bound: nat)
    ensures n < 0x80 ==> ReadUint([n] + tail, bound) == Below(n, tail, true, bound)
    ensures n < 0x100 ==> ReadUint([0xcc, n] + tail, bound) == Below(n, tail, n >= 0x80, bound)
    ensures ReadUint([0xcd, n / 256, n % 256] + tail, bound) == Below(n, tail, n >= 0x100, bound)
    ensures ReadUint([0xce, 0, 0, n / 256, n % 256] + tail, bound) == Below(n, tail, false, bound)
    ensures Below(n, tail, false, bound) == if n < bound then Some(Read(n, tail, false)) else None
  {
    TwoBytes(n);
    assert ([n] + tail)[1..] == tail;
    assert n < 0x100 ==> ([0xcc, n] + tail)[2..] == tail;
    var two: seq<u8>, four: seq<u8> := [0xcd, n / 256, n % 256] + tail, [0xce, 0, 0, n / 256, n % 256] + tail;
    assert two[1..3] == [n / 256, n % 256] && two[3..] == tail;
    assert four[1..5] == [0, 0, n / 256, n % 256] && four[5..] == tail;
    hide GetU16, GetU32;
  }

  lemma TwoBytes(n: u16)
    ensures GetU16([n / 256, n % 256]) == n && GetU32([0, 0, n / 256, n % 256]) == n
  {
    var bytes: seq<u8> := [0, 0, n / 256, n % 256];
    assert bytes[..2] == [0, 0] && bytes[2..] == [n / 256, n % 256];
  }

  /** So are the lengths of strings and arrays. */
  lemma EveryLengthFormIsRead(n: u16, tail: seq<u8>)
    ensures n < 32 ==> ReadStringHeader([0xa0 + n] + tail) == Some(Read(n, tail, true))
    ensures n < 0x100 ==> ReadStringHeader([0xd9, n] + tail) == Some(Read(n, tail, n >= 32))
    ensures ReadStringHeader([0xda, n / 256, n % 256] + tail) == Some(Read(n, tail, n >= 0x100))
    ensures ReadStringHeader([0xdb, 0, 0, n / 256, n % 256] + tail) == Some(Read(n, tail, false))
    ensures n < 16 ==> ReadArrayHeader([0x90 + n] + tail) == Some(Read(n, tail, true))
    ensures ReadArrayHeader([0xdc, n / 256, n % 256] + tail) == Some(Read(n, tail, n >= 16))
    ensures ReadArrayHeader([0xdd, 0, 0, n / 256, n % 256] + tail) == Some(Read(n, tail, false))
  {
    TwoBytes(n);
    assert forall tag: u8 :: ([tag] + tail)[1..] == tail;
    assert n < 0x100 ==> ([0xd9, n] + tail)[2..] == tail;
    assert forall tag: u8 ::
        var bytes := [tag, n / 256, n % 256] + tail; bytes[1..3] == [n / 256, n % 256] && bytes[3..] == tail;
    assert forall tag: u8 ::
        var bytes := [tag, 0, 0, n / 256, n % 256] + tail;
        bytes[1..5] == [0, 0, n / 256, n % 256] && bytes[5..] == tail;
    hide GetU16, GetU32;
  }

  /** Nothing else is a frame or a number. */
  lemma OtherTagsAreErrors(tag: u8, tail: seq<u8>, bound: nat)
    ensures tag > 2 ==> Parse([tag] + tail) == None
    ensures 0x80 <= tag < 0xcc || tag > 0xce ==> ReadUint([tag] + tail, bound) == None
    ensures tag < 0xa0 || 0xc0 <= tag < 0xd9 || tag > 0xdb ==> ReadStringHeader([tag] + tail) == None
    ensures tag < 0x90 || 0xa0 <= tag < 0xdc || tag > 0xdd ==> ReadArrayHeader([tag] + tail) == None
    ensures tail != [] && tail[0] > 1 ==> Parse([2] + tail) == None
  {
  }

  /** The bytes of some frames: numbers below 128 are one byte, others are tagged, the high byte first. */
  lemma KnownBytes(host: Identifier)
    ensures Serialize(Bind(80)) == [0, 80] && Serialize(Bind(200)) == [0, 0xcc, 200]
    ensures Serialize(Bind(0x1234)) == [0, 0xcd, 0x12, 0x34]
    ensures Serialize(Error(NetworkUnreachable)) == [2, 0] && Serialize(Error(NotBound)) == [2, 1]
    ensures Serialize(Data(host, 80, [7, 255])) == [1, 0x93, 0xd9, 64] + ToText(host) + [80, 0x92, 7, 0xcc, 255]
  {
    hide ToText, WriteAll, WriteArrayHeader, WriteId;
    assert PutU16(0x1234) == [0x12, 0x34];
    hide PutU16;
    KnownParts(host);
    assert Serialize(Data(host, 80, [7, 255]))
        == [1, 0x93] + ([0xd9, 64] + ToText(host) + ([80] + ([0x92] + [7, 0xcc, 255])));
  }

  lemma KnownParts(host: Identifier)
    ensures WriteAll([7, 255]) == [7, 0xcc, 255]
    ensures WriteArrayHeader(2) == [0x92] && WriteId(host) == [0xd9, 64] + ToText(host)
  {
    hide ToText, PutU16;
    assert [7, 255][1..] == [255] && [255][1..] == [];
    assert WriteAll([255]) == [0xcc, 255] + [];
    assert WriteAll([7, 255]) == [7] + WriteAll([255]);
  }

  // ---------------------------------------------------------------- round trips

  lemma UintRoundTrip(n: u16, tail: seq<u8>, bound: nat)
    requires n < bound
    ensures ReadUint(WriteUint(n) + tail, bound) == Some(Read(n, tail, true))
  {
    var bytes := WriteUint(n) + tail;
    assert bytes[|WriteUint(n)|..] == tail;
    if n >= 0x100 {
      assert bytes[1..3] == PutU16(n);
    }
    hide GetU16, PutU16, GetU32;
  }

  lemma U32RoundTrip(n: nat)
    requires n < 0x1_0000_0000
    ensures GetU32(PutU32(n)) == n
  {
    assert PutU32(n)[..2] == PutU16(n / 0x1_0000) && PutU32(n)[2..] == PutU16(n % 0x1_0000);
  }

  lemma ArrayHeaderRoundTrip(n: nat, tail: seq<u8>)
    requires n < 0x1_0000_0000
    ensures ReadArrayHeader(WriteArrayHeader(n) + tail) == Some(Read(n, tail, true))
  {
    var bytes := WriteArrayHeader(n) + tail;
    assert bytes[|WriteArrayHeader(n)|..] == tail;
    if 16 <= n < 0x1_0000 {
      assert bytes[1..3] == PutU16(n);
    } else if n >= 0x1_0000 {
      assert bytes[1..5] == PutU32(n);
      U32RoundTrip(n);
    }
    hide GetU16, PutU16, GetU32, PutU32;
  }

  lemma IdRoundTrip(id: Identifier, tail: seq<u8>)
    ensures ReadId(WriteId(id) + tail) == Some(Read(id, tail, true))
  {
    IdentifierRoundTrip(id);
    var bytes := WriteId(id) + tail;
    hide ToText, FromText, GetU16, GetU32;
    assert bytes[2..] == ToText(id) + tail;
    assert bytes[2..][..64] == ToText(id) && bytes[2..][64..] == tail;
  }

  lemma {:induction false} ManyRoundTrip(data: seq<u8>, tail: seq<u8>)
    ensures ReadMany(WriteAll(data) + tail, |data|) == Some(Read(data, tail, true))
  {
    hide ReadUint, WriteUint;
    if data == [] {
      assert WriteAll(data) + tail == tail;
    } else {
      var later := WriteAll(data[1..]) + tail;
      assert WriteAll(data) + tail == WriteUint(data[0]) + later;
      UintRoundTrip(data[0], later, 0x100);
      ManyRoundTrip(data[1..], tail);
      assert [data[0]] + data[1..] == data;
    }
  }

  lemma SerializedShape(frame: Frame, tail: seq<u8>)
    requires frame.Data? && Sendable(frame)
    ensures Serialize(frame)[1..] + tail
            == WriteArrayHeader(3) + (WriteId(frame.host) + (WriteUint(frame.port)
               + (WriteArrayHeader(|frame.data|) + (WriteAll(frame.data) + tail))))
  {
    hide WriteId, WriteUint, WriteAll;
    var a, b, c, d := WriteId(frame.host), WriteUint(frame.port), WriteArrayHeader(|frame.data|), WriteAll(frame.data);
    assert WriteArrayHeader(3) == [0x93];
    hide WriteArrayHeader;
    assert Serialize(frame)[1..] == [0x93] + (a + (b + (c + d)));
    hide Serialize;
    Reassociate(a, b, c, d, tail);
  }

  lemma Reassociate(a: seq<u8>, b: seq<u8>, c: seq<u8>, d: seq<u8>, tail: seq<u8>)
    ensures [0x93] + (a + (b + (c + d))) + tail == [0x93] + (a + (b + (c + (d + tail))))
  {
  }

  lemma DataRoundTrip(frame: Frame, tail: seq<u8>)
    requires frame.Data? && Sendable(frame)
    ensures ReadData(Serialize(frame)[1..] + tail) == Some(Read(frame, tail, true))
  {
    hide ReadArrayHeader, ReadId, ReadUint, ReadMany, WriteUint, WriteAll, WriteId, WriteArrayHeader, Serialize;
    var Data(host, port, data) := frame;
    var many := WriteAll(data) + tail;
    var counted := WriteArrayHeader(|data|) + many;
    var ported := WriteUint(port) + counted;
    var hosted := WriteId(host) + ported;
    SerializedShape(frame, tail);
    ArrayHeaderRoundTrip(3, hosted);
    IdRoundTrip(host, ported);
    UintRoundTrip(port, counted, 0x1_0000);
    ArrayHeaderRoundTrip(|data|, many);
    ManyRoundTrip(data, tail);
  }

  /** A serialised frame reads back as itself, with what follows it left over, and counts as shortest. */
  lemma FrameRoundTrip(frame: Frame, tail: seq<u8>)
    requires Sendable(frame)
    ensures Parse(Serialize(frame) + tail) == Some(Read(frame, tail, true))
  {
    var bytes := Serialize(frame) + tail;
    match frame
    case Bind(port) =>
      assert bytes[1..] == WriteUint(port) + tail;
      UintRoundTrip(port, tail, 0x1_0000);
    case Error(_) => assert bytes[2..] == tail;
    case Data(_, _, _) =>
      assert bytes[1..] == Serialize(frame)[1..] + tail && bytes[0] == 1;
      DataRoundTrip(frame, tail);
      hide ReadData, Serialize;
  }

  // ---------------------------------------------------------------- streams of frames

  function SerializeAll(frames: seq<Frame>): seq<u8>
    requires forall f | f in frames :: Sendable(f)
  {
    if frames == [] then [] else Serialize(frames[0]) + SerializeAll(frames[1..])
  }

  /** Decoding until nothing is ready: the frames, the bytes left, and whether it ended in an error. */
  datatype Progress = Progress(frames: seq<Frame>, left: seq<u8>, failed: bool)

  lemma DecodeShrinks(buffer: seq<u8>)
    requires Decode(buffer).Got?
    ensures |Decode(buffer).left| < |buffer|
  {
    NeverOverruns(buffer);
  }

  function Drain(buffer: seq<u8>): Progress
    decreases |buffer|
  {
    match Decode(buffer)
    case NotReady => Progress([], buffer, false)
    case Failed => Progress([], buffer, true)
    case Got(frame, left) =>
      DecodeShrinks(buffer);
      var later := Drain(left);
      Progress([frame] + later.frames, later.left, later.failed)
  }

  /** Frames the daemon's own serialiser wrote one after another come back exactly, and the buffer ends up empty. */
  lemma {:induction false} StreamRoundTrip(frames: seq<Frame>)
    requires forall f | f in frames :: Sendable(f)
    ensures Drain(SerializeAll(frames)) == Progress(frames, [], false)
  {
    if frames != [] {
      assert frames[0] in frames && forall f | f in frames[1..] :: f in frames;
      var later := SerializeAll(frames[1..]);
      DecodeOfSerialized(frames[0], later);
      StreamRoundTrip(frames[1..]);
      hide Decode, Serialize;
    }
  }

  lemma DecodeOfSerialized(frame: Frame, tail: seq<u8>)
    requires Sendable(frame)
    ensures Decode(Serialize(frame) + tail) == Got(frame, tail)
  {
    FrameRoundTrip(frame, tail);
    LeavesTheUnreadIffShortest(Serialize(frame) + tail);
    hide Parse, Serialize;
  }

  // ---------------------------------------------------------------- frames in pieces

  /** The same value, with more bytes left over. */
  function Longer<T>(r: Option<Read<T>>, more: seq<u8>): Option<Read<T>> {
    if r.None? then None else Some(r.value.(rest := r.value.rest + more))
  }

  lemma UintIsStable(buffer: seq<u8>, bound: nat, more: seq<u8>)
    requires ReadUint(buffer, bound).Some?
    ensures ReadUint(buffer + more, bound) == Longer(ReadUint(buffer, bound), more)
  {
    hide GetU16, GetU32;
    assert |buffer| >= 3 ==> (buffer + more)[1..3] == buffer[1..3];
    assert |buffer| >= 5 ==> (buffer + more)[1..5] == buffer[1..5];
    assert forall k | 0 <= k <= |buffer| :: (buffer + more)[k..] == buffer[k..] + more;
  }

  lemma HeadersAreStable(buffer: seq<u8>, more: seq<u8>)
    ensures ReadStringHeader(buffer).Some? ==> ReadStringHeader(buffer + more) == Longer(ReadStringHeader(buffer), more)
    ensures ReadArrayHeader(buffer).Some? ==> ReadArrayHeader(buffer + more) == Longer(ReadArrayHeader(buffer), more)
  {
    hide GetU16, GetU32;
    assert |buffer| >= 3 ==> (buffer + more)[1..3] == buffer[1..3];
    assert |buffer| >= 5 ==> (buffer + more)[1..5] == buffer[1..5];
    assert forall k | 0 <= k <= |buffer| :: (buffer + more)[k..] == buffer[k..] + more;
  }

  lemma IdIsStable(buffer: seq<u8>, more: seq<u8>)
    requires ReadId(buffer).Some?
    ensures ReadId(buffer + more) == Longer(ReadId(buffer), more)
  {
    hide ReadStringHeader, FromText;
    HeadersAreStable(buffer, more);
    var Read(n, rest, _) := ReadStringHeader(buffer).value;
    assert (rest + more)[..n] == rest[..n] && (rest + more)[n..] == rest[n..] + more;
  }

  lemma {:induction false} ManyIsStable(buffer: seq<u8>, count: nat, more: seq<u8>)
    requires ReadMany(buffer, count).Some?
    ensures ReadMany(buffer + more, count) == Longer(ReadMany(buffer, count), more)
    decreases count
  {
    hide ReadUint;
    if count > 0 {
      UintIsStable(buffer, 0x100, more);
      ManyIsStable(ReadUint(buffer, 0x100).value.rest, count - 1, more);
    }
  }

  lemma DataIsStable(buffer: seq<u8>, more: seq<u8>)
    requires ReadData(buffer).Some?
    ensures ReadData(buffer + more) == Longer(ReadData(buffer), more)
  {
    hide ReadArrayHeader, ReadId, ReadUint, ReadMany;
    var fields := ReadArrayHeader(buffer).value;
    HeadersAreStable(buffer, more);
    var host := ReadId(fields.rest).value;
    IdIsStable(fields.rest, more);
    var port := ReadUint(host.rest, 0x1_0000).value;
    UintIsStable(host.rest, 0x1_0000, more);
    var count := ReadArrayHeader(port.rest).value;
    HeadersAreStable(port.rest, more);
    ManyIsStable(count.rest, count.value, more);
  }

  /** Bytes that arrive later never change a frame that could be read. */
  lemma ParseIsStable(buffer: seq<u8>, more: seq<u8>)
    requires Parse(buffer).Some?
    ensures Parse(buffer + more) == Longer(Parse(buffer), more)
  {
    hide ReadData, ReadUint;
    assert (buffer + more)[1..] == buffer[1..] + more;
    if buffer[0] == 0 {
      UintIsStable(buffer[1..], 0x1_0000, more);
    } else if buffer[0] == 1 {
      DataIsStable(buffer[1..], more);
    } else {
      assert (buffer + more)[2..] == buffer[2..] + more;
    }
  }

  /**
   There is no waiting for the rest of a frame: a buffer that holds only a part of one is an
   error. So a frame survives being cut in two only if the cut is at its ends.
   */
  lemma PartOfAFrameIsAnError(frame: Frame, cut: nat)
    requires Sendable(frame) && cut <= |Serialize(frame)|
    ensures Decode(Serialize(frame)[..cut]) ==
            if cut == 0 then NotReady else if cut < |Serialize(frame)| then Failed else Got(frame, [])
  {
    var whole := Serialize(frame);
    var part, more := whole[..cut], whole[cut..];
    assert part + more == whole && whole + [] == whole;
    FrameRoundTrip(frame, []);
    DecodeOfSerialized(frame, []);
    hide Serialize, Parse;
    assert cut < |whole| ==> forall rest: seq<u8> :: |rest + more| > 0;
    if 0 < cut < |whole| && Parse(part).Some? {
      ParseIsStable(part, more);
    }
    if cut == |whole| {
      assert part == whole;
    }
  }

  ghost predicate AllSendable(frames: seq<Frame>) {
    forall f | f in frames :: Sendable(f)
  }

  /** One turn of the read loop: after an error it has returned, otherwise it appends and decodes what it can. */
  function Feed(progress: Progress, chunk: seq<u8>): Progress {
    if progress.failed then progress
    else
      var later := Drain(progress.left + chunk);
      Progress(progress.frames + later.frames, later.left, later.failed)
  }

  function FeedAll(progress: Progress, chunks: seq<seq<u8>>): Progress
    decreases |chunks|
  {
    if chunks == [] then progress else FeedAll(Feed(progress, chunks[0]), chunks[1..])
  }

  /** These bytes are the first so many of the frames, whole. */
  ghost predicate AreFirst(chunk: seq<u8>, frames: seq<Frame>, j: nat)
    requires AllSendable(frames)
  {
    j <= |frames| && chunk == SerializeAll(frames[..j])
  }

  /**
   Every cut falls between frames: each chunk is some of the frames, whole, and the next goes on
   with the following.
   */
  ghost predicate CutBetweenFrames(frames: seq<Frame>, chunks: seq<seq<u8>>)
    requires AllSendable(frames)
    decreases |chunks|
  {
    if chunks == [] then frames == []
    else exists j: nat :: AreFirst(chunks[0], frames, j) && CutBetweenFrames(frames[j..], chunks[1..])
  }

  lemma {:induction false} SerializeAllOfConcat(a: seq<Frame>, b: seq<Frame>)
    requires AllSendable(a) && AllSendable(b)
    ensures AllSendable(a + b) && SerializeAll(a + b) == SerializeAll(a) + SerializeAll(b)
  {
    hide Serialize;
    if a == [] {
      assert a + b == b;
    } else {
      assert (a + b)[1..] == a[1..] + b;
      SerializeAllOfConcat(a[1..], b);
      Associate(Serialize(a[0]), SerializeAll(a[1..]), SerializeAll(b));
    }
  }

  /** A part of one frame is an error. */
  lemma PartFails(frame: Frame, part: seq<u8>)
    requires Sendable(frame) && [] < part < Serialize(frame)
    ensures Drain(part).failed
  {
    assert part == Serialize(frame)[..|part|];
    PartOfAFrameIsAnError(frame, |part|);
    hide Serialize, Decode;
  }

  lemma DrainAfterFrame(frame: Frame, rest: seq<u8>)
    requires Sendable(frame)
    ensures Drain(Serialize(frame) + rest).failed == Drain(rest).failed
  {
    DecodeOfSerialized(frame, rest);
    hide Serialize, Decode;
  }

  /** Where the front of two sequences ends: within the first, or after it. */
  lemma FrontOfTwo(front: seq<u8>, a: seq<u8>, b: seq<u8>)
    requires front <= a + b
    ensures if |front| < |a| then front < a else front == a + front[|a|..] && front[|a|..] <= b
  {
    if |front| >= |a| {
      assert front[|a|..] == (a + b)[|a|..|front|];
    }
  }

  /** The front of some frames' bytes is whole frames, or it is an error. */
  lemma {:induction false} FrontIsWholeOrFails(frames: seq<Frame>, front: seq<u8>)
    requires AllSendable(frames) && front <= SerializeAll(frames)
    ensures Drain(front).failed || exists j: nat :: AreFirst(front, frames, j)
    decreases |frames|
  {
    hide Serialize, Drain;
    if front == [] {
      assert AreFirst(front, frames, 0);
    } else {
      var first, later := Serialize(frames[0]), frames[1..];
      FrontOfTwo(front, first, SerializeAll(later));
      if |front| < |first| {
        PartFails(frames[0], front);
      } else {
        DrainAfterFrame(frames[0], front[|first|..]);
        FrontIsWholeOrFails(later, front[|first|..]);
        if !Drain(front).failed {
          var j: nat :| AreFirst(front[|first|..], later, j);
          OneMoreWhole(frames, front, j);
        }
      }
    }
  }

  lemma OneMoreWhole(frames: seq<Frame>, front: seq<u8>, j: nat)
    requires AllSendable(frames) && frames != [] && j < |frames|
    requires front == Serialize(frames[0]) + SerializeAll(frames[1..][..j])
    ensures AreFirst(front, frames, j + 1)
  {
    hide Serialize;
    assert frames[..j + 1][1..] == frames[1..][..j];
  }

  lemma {:induction false} FailedStaysFailed(progress: Progress, chunks: seq<seq<u8>>)
    requires progress.failed
    ensures FeedAll(progress, chunks) == progress
    decreases |chunks|
  {
    if chunks != [] {
      FailedStaysFailed(progress, chunks[1..]);
    }
  }

  lemma {:induction false} ChunksFrom(before: seq<Frame>, frames: seq<Frame>, chunks: seq<seq<u8>>)
    requires AllSendable(frames) && FrameStream.Join(chunks) == SerializeAll(frames)
    ensures FeedAll(Progress(before, [], false), chunks) == Progress(before + frames, [], false)
            <==> CutBetweenFrames(frames, chunks)
    decreases |chunks|
  {
    if chunks == [] {
      NothingIsNoFrames(frames);
    } else {
      hide Drain, Feed, FeedAll, SerializeAll, AllSendable, AreFirst;
      var chunk, start := chunks[0], Progress(before, [], false);
      FrontIsWholeOrFails(frames, chunk);
      if Drain(chunk).failed {
        AfterFailure(before, chunks);
      }
      forall j: nat | AreFirst(chunk, frames, j)
        ensures !Drain(chunk).failed
        ensures FeedAll(start, chunks) == Progress(before + frames, [], false)
                <==> CutBetweenFrames(frames[j..], chunks[1..])
      {
        hide CutBetweenFrames;
        AfterWholeFrames(before, frames, chunks, j);
        ChunksFrom(before + frames[..j], frames[j..], chunks[1..]);
      }
    }
  }

  lemma AfterFailure(before: seq<Frame>, chunks: seq<seq<u8>>)
    requires chunks != [] && Drain(chunks[0]).failed
    ensures FeedAll(Progress(before, [], false), chunks).failed
  {
    hide Drain;
    assert [] + chunks[0] == chunks[0];
    FailedStaysFailed(Feed(Progress(before, [], false), chunks[0]), chunks[1..]);
  }

  lemma NothingIsNoFrames(frames: seq<Frame>)
    requires AllSendable(frames)
    ensures SerializeAll(frames) == [] <==> frames == []
  {
  }

  /** A chunk of whole frames is decoded as these, and the others are still to come. */
  lemma AfterWholeFrames(before: seq<Frame>, frames: seq<Frame>, chunks: seq<seq<u8>>, j: nat)
    requires AllSendable(frames) && FrameStream.Join(chunks) == SerializeAll(frames)
    requires chunks != [] && AreFirst(chunks[0], frames, j)
    ensures j <= |frames| && before + frames[..j] + frames[j..] == before + frames
    ensures AllSendable(frames[j..]) && FrameStream.Join(chunks[1..]) == SerializeAll(frames[j..])
    ensures FeedAll(Progress(before, [], false), chunks)
            == FeedAll(Progress(before + frames[..j], [], false), chunks[1..])
    ensures !Drain(chunks[0]).failed
  {
    hide SerializeAll, Drain;
    PartsOfFrames(frames, j);
    StreamRoundTrip(frames[..j]);
    assert [] + chunks[0] == chunks[0];
    SameTail(chunks[0], FrameStream.Join(chunks[1..]), SerializeAll(frames[j..]));
  }

  lemma PartsOfFrames(frames: seq<Frame>, j: nat)
    requires AllSendable(frames) && j <= |frames|
    ensures AllSendable(frames[..j]) && AllSendable(frames[j..])
    ensures SerializeAll(frames) == SerializeAll(frames[..j]) + SerializeAll(frames[j..])
  {
    hide SerializeAll;
    assert frames[..j] + frames[j..] == frames;
    SerializeAllOfConcat(frames[..j], frames[j..]);
  }

  /**
   Exactly when chunking does no harm: whatever the frames and however their bytes are cut into
   chunks, the read loop yields just these frames if and only if every cut falls between two.
   */
  lemma ChunksAreReadIffCutBetweenFrames(frames: seq<Frame>, chunks: seq<seq<u8>>)
    requires AllSendable(frames) && FrameStream.Join(chunks) == SerializeAll(frames)
    ensures FeedAll(Progress([], [], false), chunks) == Progress(frames, [], false)
            <==> CutBetweenFrames(frames, chunks)
  {
    hide FeedAll, CutBetweenFrames, SerializeAll, AllSendable;
    ChunksFrom([], frames, chunks);
    assert [] + frames == frames;
  }

  /**
   A port in a longer form than needed is read as the same port, but its last bytes are read again:
   one bind becomes two.
   */
  lemma LongFormIsReadTwice()
    ensures Drain([0, 0xcd, 0, 5]).frames == [Bind(5), Bind(5)]
  {
    var buffer: seq<u8> := [0, 0xcd, 0, 5];
    assert buffer[1..] == [0xcd, 0, 5] && buffer[1..][1..3] == [0, 5] && buffer[1..][3..] == [] && GetU16([0, 5]) == 5;
    assert Parse(buffer) == Some(Read(Bind(5), [], false));
    assert buffer[2..] == [0, 5];
    var left: seq<u8> := [0, 5];
    assert left[1..] == [5] && [5][1..] == [];
    assert Parse(left) == Some(Read(Bind(5), [], true));
    assert left[2..] == [];
  }

  // ---------------------------------------------------------------- the codec in place

  /** A client stream's buffer. */
  class LocalBuffer {
    var bytes: seq<u8>

    constructor ()
      ensures bytes == []
    {
      bytes := [];
    }

    method Append(chunk: seq<u8>)
      modifies this
      ensures bytes == old(bytes) + chunk
    {
      bytes := bytes + chunk;
    }

    method Advance(count: nat)
      requires count <= |bytes|
      modifies this
      ensures bytes == old(bytes)[count..]
    {
      bytes := bytes[count..];
    }

    method Encode(frame: Frame)
      requires Sendable(frame)
      modifies this
      ensures bytes == old(bytes) + Serialize(frame)
    {
      var serialized := Serialize(frame);
      Append(serialized);
    }

    /** `ok` is false when no frame can be read off a buffer that is not empty. */
    method TryDecode() returns (ok: bool, frame: Option<Frame>)
      modifies this
      ensures match Decode(old(bytes))
              case NotReady => ok && frame == None && bytes == old(bytes)
              case Failed => !ok && frame == None && bytes == old(bytes)
              case Got(f, left) => ok && frame == Some(f) && bytes == left
    {
      if |bytes| < 1 {
        return true, None;
      }
      var parsed := Parse(bytes);
      if parsed.None? {
        return false, None;
      }
      NeverOverruns(bytes);
      var again := Serialize(parsed.value.value);
      Advance(|again|);
      return true, Some(parsed.value.value);
    }

    /** Decode until the buffer is empty or cannot be read. */
    method DecodeAll() returns (ok: bool, frames: seq<Frame>)
      modifies this
      ensures Progress(frames, bytes, !ok) == Drain(old(bytes))
    {
      hide Decode;
      frames := [];
      while true
        invariant var d := Drain(bytes); Progress(frames + d.frames, d.left, d.failed) == Drain(old(bytes))
        decreases |bytes|
      {
        if Decode(bytes).Got? {
          DecodeShrinks(bytes);
        }
        var next: Option<Frame>;
        ok, next := TryDecode();
        if next.None? {
          return;
        }
        frames := frames + [next.value];
      }
    }
  }
}
