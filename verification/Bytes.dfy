/** Fixed-width unsigned integers, and the big-endian 16-bit form both codecs use. */
module Bytes {
  type u8 = x: int | 0 <= x < 0x100 witness 0
  type u16 = x: int | 0 <= x < 0x1_0000 witness 0

  datatype Option<+T> = None | Some(value: T)

  /** Big-endian, most significant byte first. */
  function PutU16(x: u16): (bytes: seq<u8>)
    ensures |bytes| == 2 && GetU16(bytes) == x
  {
    [x / 0x100, x % 0x100]
  }

  function GetU16(bytes: seq<u8>): (x: u16)
    requires |bytes| == 2
    ensures bytes == [x / 0x100, x % 0x100]
  {
    (bytes[0] as int) * 0x100 + bytes[1]
  }

  lemma OneOver<T>(before: seq<T>, rest: seq<T>)
    requires rest != []
    ensures before + [rest[0]] + rest[1..] == before + rest
  {
  }

  lemma Associate<T>(a: seq<T>, b: seq<T>, c: seq<T>)
    ensures a + (b + c) == a + b + c
  {
  }

  lemma SameTail<T>(front: seq<T>, a: seq<T>, b: seq<T>)
    requires front + a == front + b
    ensures a == b
  {
    assert a == (front + a)[|front|..] == (front + b)[|front|..] == b;
  }
}
