/** Host identifiers: 32 bytes, written as 64 upper-case hexadecimal digits. Text is a sequence of ASCII codes. */
module Identifiers {
  import opened Bytes

  const LENGTH: nat := 32

  type Identifier = bytes: seq<u8> | |bytes| == 32 witness seq(32, _ => 0)

  type Text = seq<u8>

  predicate IsHex(c: u8) {
    '0' as int <= c <= '9' as int || 'A' as int <= c <= 'F' as int || 'a' as int <= c <= 'f' as int
  }

  /** The value of a hexadecimal digit, in either case. */
  function Digit(c: u8): Option<nat> {
    if '0' as int <= c <= '9' as int then Some(c - '0' as int)
    else if 'A' as int <= c <= 'F' as int then Some(c - 'A' as int + 10)
    else if 'a' as int <= c <= 'f' as int then Some(c - 'a' as int + 10)
    else None
  }

  /** Two characters as a byte. A leading plus sign is accepted before a single digit. */
  function FromRadix(hi: u8, lo: u8): (r: Option<u8>)
    ensures r.Some? <==> IsHex(lo) && (IsHex(hi) || hi == '+' as int)
  {
    if hi == '+' as int then (if Digit(lo).Some? then Some(Digit(lo).value) else None)
    else if Digit(hi).None? || Digit(lo).None? then None
    else Some(Digit(hi).value * 16 + Digit(lo).value)
  }

  function UpperDigit(v: nat): u8
    requires v < 16
  {
    if v < 10 then '0' as int + v else 'A' as int + v - 10
  }

  function ByteText(b: u8): Text {
    [UpperDigit(b / 16), UpperDigit(b % 16)]
  }

  /** The two digits of every byte, in order. */
  function ToText(bytes: seq<u8>): (text: Text)
    ensures |text| == 2 * |bytes|
  {
    if bytes == [] then [] else ToText(bytes[..|bytes| - 1]) + ByteText(bytes[|bytes| - 1])
  }

  /** The bytes that pairs of characters stand for, or nothing if some pair is malformed. */
  function FromPairs(text: Text): (r: Option<seq<u8>>)
    requires |text| % 2 == 0
    ensures r.Some? ==> |r.value| == |text| / 2
  {
    if text == [] then Some([])
    else
      var n := |text|;
      var front, last := FromPairs(text[..n - 2]), FromRadix(text[n - 2], text[n - 1]);
      if front.None? || last.None? then None else Some(front.value + [last.value])
  }

  function FromText(text: Text): Option<Identifier> {
    if |text| != 2 * LENGTH then None else FromPairs(text)
  }

  // ---------------------------------------------------------------- round trips

  lemma ByteRoundTrip(b: u8)
    ensures FromRadix(ByteText(b)[0], ByteText(b)[1]) == Some(b)
  {
    DigitRoundTrip(b / 16);
    DigitRoundTrip(b % 16);
    hide Digit, UpperDigit;
  }

  lemma DigitRoundTrip(v: nat)
    requires v < 16
    ensures Digit(UpperDigit(v)) == Some(v) && UpperDigit(v) != '+' as int
  {
  }

  lemma {:induction false} PairsRoundTrip(bytes: seq<u8>)
    ensures FromPairs(ToText(bytes)) == Some(bytes)
  {
    if bytes != [] {
      var front, b := bytes[..|bytes| - 1], bytes[|bytes| - 1];
      PairsRoundTrip(front);
      ByteRoundTrip(b);
      var text := ToText(bytes);
      assert text[..|text| - 2] == ToText(front);
      assert bytes == front + [b];
    }
  }

  /** Each byte prints as its two digits, the high one first. */
  lemma {:induction false} PrintedDigits(bytes: seq<u8>, i: nat)
    requires i < |bytes|
    ensures ToText(bytes)[2 * i] == "0123456789ABCDEF"[bytes[i] / 16] as int
    ensures ToText(bytes)[2 * i + 1] == "0123456789ABCDEF"[bytes[i] % 16] as int
  {
    if i < |bytes| - 1 {
      PrintedDigits(bytes[..|bytes| - 1], i);
    } else {
      UpperDigitIs(bytes[i] / 16);
      UpperDigitIs(bytes[i] % 16);
    }
  }

  lemma UpperDigitIs(v: nat)
    requires v < 16
    ensures UpperDigit(v) == "0123456789ABCDEF"[v] as int
  {
  }

  /** Every identifier reads back from its printed form. */
  lemma IdentifierRoundTrip(id: Identifier)
    ensures |ToText(id)| == 64 && FromText(ToText(id)) == Some(id)
  {
    PairsRoundTrip(id);
  }

  /** A hexadecimal digit in upper case; a plus sign reads as a zero. */
  function Upper(c: u8): u8 {
    if 'a' as int <= c <= 'f' as int then c - 'a' as int + 'A' as int
    else if c == '+' as int then '0' as int
    else c
  }

  function Uppers(text: Text): (r: Text)
    ensures |r| == |text|
  {
    seq(|text|, i requires 0 <= i < |text| => Upper(text[i]))
  }

  lemma ByteTextOfPair(hi: u8, lo: u8)
    requires FromRadix(hi, lo).Some?
    ensures ByteText(FromRadix(hi, lo).value) == [Upper(hi), Upper(lo)]
  {
  }

  lemma {:induction false} TextOfPairs(text: Text)
    requires |text| % 2 == 0 && FromPairs(text).Some?
    ensures ToText(FromPairs(text).value) == Uppers(text)
  {
    if text != [] {
      var n := |text|;
      TextOfPairs(text[..n - 2]);
      ByteTextOfPair(text[n - 2], text[n - 1]);
      var bytes := FromPairs(text).value;
      assert bytes[..|bytes| - 1] == FromPairs(text[..n - 2]).value;
      assert Uppers(text) == Uppers(text[..n - 2]) + [Upper(text[n - 2]), Upper(text[n - 1])];
    }
  }

  /** Pairs of digits in either case; the first of a pair may be a plus sign instead. */
  ghost predicate WellFormed(text: Text) {
    forall i | 0 <= i < |text| ::
      || '0' as int <= text[i] <= '9' as int
      || 'A' as int <= text[i] <= 'F' as int
      || 'a' as int <= text[i] <= 'f' as int
      || (i % 2 == 0 && text[i] == '+' as int)
  }

  lemma {:induction false} PairsIffWellFormed(text: Text)
    requires |text| % 2 == 0
    ensures FromPairs(text).Some? <==> WellFormed(text)
  {
    if text != [] {
      var n := |text|;
      var front := text[..n - 2];
      PairsIffWellFormed(front);
      assert forall i | 0 <= i < |front| :: front[i] == text[i];
      assert n == |front| + 2 && n % 2 == 0 && text[n - 2] == text[|front|];
    }
  }

  /**
   Exactly the 64-character texts of well-formed pairs are identifiers, and printing one normalises
   it to upper case; a plus sign is read as a zero.
   */
  lemma TextRoundTrip(text: Text)
    ensures FromText(text).Some? <==> |text| == 64 && WellFormed(text)
    ensures FromText(text).Some? ==> ToText(FromText(text).value) == Uppers(text)
  {
    if |text| == 64 {
      PairsIffWellFormed(text);
      if FromPairs(text).Some? {
        TextOfPairs(text);
      }
    }
  }

  // ---------------------------------------------------------------- the loops

  /** Filling the 32 bytes one pair at a time, and giving up at the first malformed one. */
  method Read(text: Text) returns (r: Option<Identifier>)
    ensures r == FromText(text)
  {
    if |text| != 2 * LENGTH {
      return None;
    }
    var ident := new u8[32](_ => 0);
    for i := 0 to 32
      invariant FromPairs(text[..2 * i]) == Some(ident[..i])
    {
      assert text[..2 * (i + 1)][..2 * i] == text[..2 * i];
      var b := FromRadix(text[2 * i], text[2 * i + 1]);
      if b.None? {
        MalformedPrefix(text, i + 1);
        return None;
      }
      ident[i] := b.value;
      assert ident[..i + 1] == ident[..i] + [b.value];
    }
    assert text[..64] == text && ident[..32] == ident[..];
    r := Some(ident[..]);
  }

  lemma {:induction false} MalformedPrefix(text: Text, k: nat)
    requires |text| % 2 == 0 && 2 * k <= |text| && FromPairs(text[..2 * k]).None?
    ensures FromPairs(text).None?
    decreases |text|
  {
    if 2 * k < |text| {
      var front := text[..|text| - 2];
      assert front[..2 * k] == text[..2 * k];
      MalformedPrefix(front, k);
    } else {
      assert text[..2 * k] == text;
    }
  }

  /** Printing byte by byte. */
  method Print(id: Identifier) returns (text: Text)
    ensures text == ToText(id)
  {
    text := [];
    for i := 0 to |id|
      invariant text == ToText(id[..i])
    {
      assert id[..i + 1][..i] == id[..i];
      text := text + ByteText(id[i]);
    }
    assert id[..|id|] == id;
  }
}
