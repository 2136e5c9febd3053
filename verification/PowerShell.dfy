/** `powershellEncodedCommand`: CRLF line ends, UTF-16LE, base64. */
module PowerShell {
  import opened GoStrings
  import opened Wrappers
  import opened Base64

  type unit = x: int | 0 <= x < 0x1_0000

  function Normalize(script: string): string {
    ReplaceAll(ReplaceAll(script, "\r\n", "\n"), "\n", "\r\n")
  }

  /** `utf16.Encode` (RFC 2781, section 2.1) on scalar values. */
  function EncodeChar(c: char): seq<unit> {
    var n := c as int;
    if n < 0x1_0000 then [n]
    else [0xD800 + (n - 0x1_0000) / 0x400, 0xDC00 + (n - 0x1_0000) % 0x400]
  }

  function EncodeUtf16(s: string): seq<unit> {
    if s == "" then [] else EncodeChar(s[0]) + EncodeUtf16(s[1..])
  }

  function LittleEndian(units: seq<unit>): seq<byte> {
    if units == [] then [] else [units[0] % 256, units[0] / 256] + LittleEndian(units[1..])
  }

  /** The scalar value of a surrogate pair. */
  function FromPair(high: int, low: int): char
    requires 0xD800 <= high < 0xDC00 <= low < 0xE000
  {
    (0x1_0000 + (high - 0xD800) * 0x400 + (low - 0xDC00)) as char
  }

  /** The receiving side: RFC 2781, section 2.2, rejecting unpaired surrogates and odd lengths. */
  function DecodeUtf16(units: seq<unit>): Option<string> {
    if units == [] then Some("")
    else if units[0] < 0xD800 || 0xE000 <= units[0] then
      match DecodeUtf16(units[1..])
      case Some(rest) => Some([units[0] as char] + rest)
      case None => None
    else if units[0] < 0xDC00 && |units| >= 2 && 0xDC00 <= units[1] < 0xE000 then
      match DecodeUtf16(units[2..])
      case Some(rest) => Some([FromPair(units[0], units[1])] + rest)
      case None => None
    else None
  }

  function FromLittleEndian(bytes: seq<byte>): Option<seq<unit>> {
    if bytes == [] then Some([])
    else if |bytes| == 1 then None
    else match FromLittleEndian(bytes[2..])
         case Some(rest) => (var low: int, high: int := bytes[0], bytes[1]; Some([low + 256 * high] + rest))
         case None => None
  }

  function DecodeCommand(text: seq<byte>): Option<string> {
    match Decode(text)
    case None => None
    case Some(bytes) =>
      match FromLittleEndian(bytes)
      case None => None
      case Some(units) => DecodeUtf16(units)
  }

  lemma {:induction false} LittleEndianRoundTrip(units: seq<unit>)
    ensures FromLittleEndian(LittleEndian(units)) == Some(units)
  {
    if units != [] {
      LittleEndianRoundTrip(units[1..]);
      var bytes := LittleEndian(units);
      assert bytes[2..] == LittleEndian(units[1..]);
      assert bytes[0] == units[0] % 256 && bytes[1] == units[0] / 256;
      assert units == [units[0]] + units[1..];
    }
  }

  lemma {:induction false} Utf16RoundTrip(s: string)
    ensures DecodeUtf16(EncodeUtf16(s)) == Some(s)
  {
    if s != "" {
      Utf16RoundTrip(s[1..]);
      var head := EncodeChar(s[0]);
      assert EncodeUtf16(s)[|head|..] == EncodeUtf16(s[1..]);
      assert s == [s[0]] + s[1..];
    }
  }

  lemma {:induction false} FilledIsLittleEndian(bytes: seq<byte>, units: seq<unit>)
    requires |bytes| == 2 * |units|
    requires forall k :: 0 <= k < |units| ==> bytes[2 * k] == units[k] % 256 && bytes[2 * k + 1] == units[k] / 256
    ensures bytes == LittleEndian(units)
  {
    if units != [] {
      var rest := bytes[2..];
      assert bytes[2 * 0] == units[0] % 256 && bytes[2 * 0 + 1] == units[0] / 256;
      forall k | 0 <= k < |units| - 1
        ensures rest[2 * k] == units[1..][k] % 256 && rest[2 * k + 1] == units[1..][k] / 256
      {
        assert rest[2 * k] == bytes[2 * (k + 1)] && rest[2 * k + 1] == bytes[2 * (k + 1) + 1];
      }
      FilledIsLittleEndian(rest, units[1..]);
      assert bytes == bytes[..2] + rest;
    }
  }

  /** The buffer is filled byte by byte, low half first. */
  method PowershellEncodedCommand(script: string) returns (text: seq<byte>)
    ensures DecodeCommand(text) == Some(Normalize(script))
  {
    var normalized := Normalize(script);
    var u16 := EncodeUtf16(normalized);
    var buf := new byte[2 * |u16|];
    hide EncodeUtf16, Normalize, LittleEndian, Encode, DecodeCommand;
    for i := 0 to |u16|
      invariant forall k :: 0 <= k < i ==> buf[2 * k] == u16[k] % 256 && buf[2 * k + 1] == u16[k] / 256
    {
      buf[i * 2] := u16[i] % 256;
      buf[i * 2 + 1] := u16[i] / 256;
    }
    text := Encode(buf[..]);

    FilledIsLittleEndian(buf[..], u16);
    DecodeEncode(buf[..]);
    LittleEndianRoundTrip(u16);
    Utf16RoundTrip(normalized);
  }

  /** What normalisation means, read left to right: a CRLF pair or a lone LF becomes CRLF and
      every other character, a lone CR included, stays. */
  function WithCrLf(s: string): string {
    if s == "" then ""
    else if "\r\n" <= s then "\r\n" + WithCrLf(s[2..])
    else if s[0] == '\n' then "\r\n" + WithCrLf(s[1..])
    else [s[0]] + WithCrLf(s[1..])
  }

  lemma {:induction false} NormalizeMeaning(s: string)
    ensures Normalize(s) == WithCrLf(s)
    decreases |s|
  {
    var t := ReplaceAll(s, "\r\n", "\n");
    if s == "" {
    } else if "\r\n" <= s {
      NormalizeMeaning(s[2..]);
      assert t == "\n" + ReplaceAll(s[2..], "\r\n", "\n");
      assert "\n" <= t && t[1..] == ReplaceAll(s[2..], "\r\n", "\n");
    } else {
      NormalizeMeaning(s[1..]);
      assert t == [s[0]] + ReplaceAll(s[1..], "\r\n", "\n");
      assert t[1..] == ReplaceAll(s[1..], "\r\n", "\n");
      assert t[0] == s[0] && ("\n" <= t <==> t[0] == '\n');
    }
  }

  lemma {:induction false} WithCrLfTwice(s: string)
    ensures WithCrLf(WithCrLf(s)) == WithCrLf(s)
    decreases |s|
  {
    var r := WithCrLf(s);
    if s == "" {
    } else if "\r\n" <= s || s[0] == '\n' {
      var rest := if "\r\n" <= s then s[2..] else s[1..];
      WithCrLfTwice(rest);
      assert r == "\r\n" + WithCrLf(rest);
      assert "\r\n" <= r && r[2..] == WithCrLf(rest);
    } else {
      WithCrLfTwice(s[1..]);
      assert r == [s[0]] + WithCrLf(s[1..]);
      assert r[1..] == WithCrLf(s[1..]);
    }
  }

  /** Normalising twice is normalising once. */
  lemma NormalizeIdempotent(s: string)
    ensures Normalize(Normalize(s)) == Normalize(s)
  {
    NormalizeMeaning(s);
    NormalizeMeaning(Normalize(s));
    WithCrLfTwice(s);
  }

  /** No LF is left without a CR in front of it. */
  lemma {:induction false} EveryLfHasCr(s: string, i: nat)
    requires i < |WithCrLf(s)| && WithCrLf(s)[i] == '\n'
    ensures i > 0 && WithCrLf(s)[i - 1] == '\r'
    decreases |s|
  {
    if "\r\n" <= s || s[0] == '\n' {
      if i >= 2 { EveryLfHasCr(if "\r\n" <= s then s[2..] else s[1..], i - 2); }
    } else {
      if i >= 1 { EveryLfHasCr(s[1..], i - 1); }
    }
  }

  lemma NormalizedLinesEndInCrLf(s: string)
    ensures forall i :: 0 <= i < |Normalize(s)| && Normalize(s)[i] == '\n' ==> i > 0 && Normalize(s)[i - 1] == '\r'
  {
    NormalizeMeaning(s);
    forall i | 0 <= i < |Normalize(s)| && Normalize(s)[i] == '\n' ensures i > 0 && Normalize(s)[i - 1] == '\r' {
      EveryLfHasCr(s, i);
    }
  }
}
