/** The standard base64 encoding (RFC 4648, section 4), with padding, and the decoder of Go's
    `base64.StdEncoding`: line breaks anywhere are skipped and the unused low bits before
    padding are not inspected. */
module Base64 {
  import opened Wrappers

  type byte = x: int | 0 <= x < 256
  type sextet = x: int | 0 <= x < 64

  const PAD: byte := '=' as int

  function Digit(v: sextet): byte {
    if v < 26 then 'A' as int + v
    else if v < 52 then 'a' as int + (v - 26)
    else if v < 62 then '0' as int + (v - 52)
    else if v == 62 then '+' as int
    else '/' as int
  }

  function DigitValue(c: byte): Option<sextet> {
    if 'A' as int <= c <= 'Z' as int then Some(c - 'A' as int)
    else if 'a' as int <= c <= 'z' as int then Some(c - 'a' as int + 26)
    else if '0' as int <= c <= '9' as int then Some(c - '0' as int + 52)
    else if c == '+' as int then Some(62)
    else if c == '/' as int then Some(63)
    else None
  }

  predicate IsLineBreak(c: byte) {
    c == 10 || c == 13
  }

  /** The four digits of a group of three bytes. */
  function Sextet1(x: byte): sextet {
    x / 4
  }

  function Sextet2(x: byte, y: byte): sextet {
    x % 4 * 16 + y / 16
  }

  function Sextet3(y: byte, z: byte): sextet {
    y % 16 * 4 + z / 64
  }

  function Sextet4(z: byte): sextet {
    z % 64
  }

  function Encode(data: seq<byte>): seq<byte> {
    if |data| == 0 then []
    else if |data| == 1 then [Digit(Sextet1(data[0])), Digit(Sextet2(data[0], 0)), PAD, PAD]
    else if |data| == 2 then
      [Digit(Sextet1(data[0])), Digit(Sextet2(data[0], data[1])), Digit(Sextet3(data[1], 0)), PAD]
    else
      [Digit(Sextet1(data[0])), Digit(Sextet2(data[0], data[1])),
       Digit(Sextet3(data[1], data[2])), Digit(Sextet4(data[2]))] + Encode(data[3..])
  }

  function SkipLineBreaks(text: seq<byte>): seq<byte> {
    if text == [] then []
    else if IsLineBreak(text[0]) then SkipLineBreaks(text[1..])
    else [text[0]] + SkipLineBreaks(text[1..])
  }

  /** The three bytes of a group of four digits. */
  function First(a: sextet, b: sextet): byte {
    a * 4 + b / 16
  }

  function Second(b: sextet, c: sextet): byte {
    b % 16 * 16 + c / 4
  }

  function Third(c: sextet, d: sextet): byte {
    c % 4 * 64 + d
  }

  /** Groups of four; padding only in the last group. */
  function DecodeGroups(text: seq<byte>): Option<seq<byte>> {
    if text == [] then Some([])
    else if |text| < 4 then None
    else
      match (DigitValue(text[0]), DigitValue(text[1]))
      case (Some(a), Some(b)) =>
        if |text| == 4 && text[2] == PAD && text[3] == PAD then Some([First(a, b)])
        else (match DigitValue(text[2])
              case None => None
              case Some(c) =>
                if |text| == 4 && text[3] == PAD then Some([First(a, b), Second(b, c)])
                else match (DigitValue(text[3]), DecodeGroups(text[4..]))
                     case (Some(d), Some(rest)) =>
                       Some([First(a, b), Second(b, c), Third(c, d)] + rest)
                     case _ => None)
      case _ => None
  }

  function Decode(text: seq<byte>): Option<seq<byte>> {
    DecodeGroups(SkipLineBreaks(text))
  }

  /** A character that may occur in encoded text. */
  predicate InAlphabet(c: byte) {
    DigitValue(c).Some? || c == PAD
  }

  lemma {:induction false} EncodeAlphabet(data: seq<byte>)
    ensures forall i :: 0 <= i < |Encode(data)| ==> InAlphabet(Encode(data)[i])
    decreases |data|
  {
    if |data| >= 3 { EncodeAlphabet(data[3..]); }
  }

  lemma {:induction false} NoLineBreaksToSkip(text: seq<byte>)
    requires forall i :: 0 <= i < |text| ==> InAlphabet(text[i])
    ensures SkipLineBreaks(text) == text
  {
    if text != [] {
      assert InAlphabet(text[0]);
      NoLineBreaksToSkip(text[1..]);
    }
  }

  lemma DigitRoundTrip(v: sextet)
    ensures DigitValue(Digit(v)) == Some(v) && Digit(v) != PAD
  {
  }

  /** Any three bytes survive as the four digits of their group. */
  lemma BytesRoundTrip(x: byte, y: byte, z: byte)
    ensures First(Sextet1(x), Sextet2(x, y)) == x
    ensures Second(Sextet2(x, y), Sextet3(y, z)) == y
    ensures Third(Sextet3(y, z), Sextet4(z)) == z
  {
  }

  lemma {:induction false} GroupsRoundTrip(data: seq<byte>)
    ensures DecodeGroups(Encode(data)) == Some(data)
    decreases |data|
  {
    hide Digit, DigitValue, Sextet1, Sextet2, Sextet3, Sextet4, First, Second, Third;
    if data != [] {
      var x, y, z := data[0], if |data| > 1 then data[1] else 0, if |data| > 2 then data[2] else 0;
      BytesRoundTrip(x, y, z);
      DigitRoundTrip(Sextet1(x));
      DigitRoundTrip(Sextet2(x, y));
      DigitRoundTrip(Sextet3(y, z));
      DigitRoundTrip(Sextet4(z));
      if |data| == 1 {
        assert data == [x];
      } else if |data| == 2 {
        assert data == [x, y];
      } else {
        var e := Encode(data);
        assert e[4..] == Encode(data[3..]);
        GroupsRoundTrip(data[3..]);
        assert data == [x, y, z] + data[3..];
      }
    }
  }

  /** Table 1 of RFC 4648: three runs of neighbouring characters and two more. */
  lemma Alphabet(d: sextet)
    ensures Digit(0) == 'A' as int && Digit(26) == 'a' as int && Digit(52) == '0' as int
    ensures Digit(62) == '+' as int && Digit(63) == '/' as int
    ensures d !in {25, 51, 61, 62, 63} ==> Digit(d + 1) == Digit(d) + 1
  {
  }

  /** Test vectors of section 10 of RFC 4648, and one that uses the last two digits of the alphabet. */
  lemma Vectors()
    ensures Encode([0x66]) == [0x5A, 0x67, PAD, PAD]
    ensures Encode([0x66, 0x6F]) == [0x5A, 0x6D, 0x38, PAD]
    ensures Encode([0x66, 0x6F, 0x6F]) == [0x5A, 0x6D, 0x39, 0x76]
    ensures Encode([0xFB, 0xFF]) == [0x2B, 0x2F, 0x38, PAD] && PAD == 0x3D
  {
  }

  lemma {:induction false} EncodedLength(data: seq<byte>)
    ensures |Encode(data)| == 4 * ((|data| + 2) / 3)
    decreases |data|
  {
    hide Digit, Sextet1, Sextet2, Sextet3, Sextet4;
    if |data| >= 3 { EncodedLength(data[3..]); }
  }

  /** Decoding undoes encoding for every byte string. */
  lemma DecodeEncode(data: seq<byte>)
    ensures Decode(Encode(data)) == Some(data)
  {
    EncodeAlphabet(data);
    NoLineBreaksToSkip(Encode(data));
    GroupsRoundTrip(data);
  }

  lemma {:induction false} SkippedKeeps(text: seq<byte>, c: byte)
    requires c in text && !IsLineBreak(c)
    ensures c in SkipLineBreaks(text)
  {
    if text[0] != c { SkippedKeeps(text[1..], c); }
  }

  lemma {:induction false} GroupsRejectForeign(text: seq<byte>, c: byte)
    requires c in text && !InAlphabet(c)
    ensures DecodeGroups(text) == None
    decreases |text|
  {
    if |text| >= 4 {
      var head, tail := text[..4], text[4..];
      assert text == head + tail;
      if c in tail { GroupsRejectForeign(tail, c); }
      else { assert c in head; }
    }
  }

  /** Text holding anything but the alphabet, padding and line breaks is never taken for base64. */
  lemma DecodeRejectsForeign(text: seq<byte>, c: byte)
    requires c in text && !InAlphabet(c) && !IsLineBreak(c)
    ensures Decode(text) == None
  {
    SkippedKeeps(text, c);
    GroupsRejectForeign(SkipLineBreaks(text), c);
  }
}
