/** Go strings as the bytes they are: trimming of UTF-8 white space, and the ASCII words the program
    looks for.  Because no white-space encoding starts inside another character, scanning bytes
    finds exactly what scanning runes finds, for invalid UTF-8 too. */
module GoBytes {
  import opened Base64
  import opened GoStrings

  type Bytes = seq<byte>

  function Ascii(s: string): Bytes {
    seq(|s|, i requires 0 <= i < |s| => s[i] as int % 256)
  }

  /** UTF-8 (RFC 3629). */
  function Utf8Char(c: char): Bytes {
    var n := c as int;
    if n < 0x80 then [n]
    else if n < 0x800 then [0xC0 + n / 64, 0x80 + n % 64]
    else if n < 0x1_0000 then [0xE0 + n / 4096, 0x80 + n / 64 % 64, 0x80 + n % 64]
    else [0xF0 + n / 262144 % 8, 0x80 + n / 4096 % 64, 0x80 + n / 64 % 64, 0x80 + n % 64]
  }

  function Utf8(s: string): Bytes {
    if s == "" then [] else Utf8Char(s[0]) + Utf8(s[1..])
  }

  predicate IsAsciiSpace(b: byte) {
    9 <= b <= 13 || b == 32
  }

  /** U+0085 and U+00A0. */
  predicate IsSpace2(b: byte, c: byte) {
    b == 0xC2 && (c == 0x85 || c == 0xA0)
  }

  /** U+1680, U+2000 to U+200A, U+2028, U+2029, U+202F, U+205F and U+3000. */
  predicate IsSpace3(b: byte, c: byte, d: byte) {
    || (b == 0xE1 && c == 0x9A && d == 0x80)
    || (b == 0xE2 && c == 0x80 && (0x80 <= d <= 0x8A || d == 0xA8 || d == 0xA9 || d == 0xAF))
    || (b == 0xE2 && c == 0x81 && d == 0x9F)
    || (b == 0xE3 && c == 0x80 && d == 0x80)
  }

  /** Length of the white-space character at the front, or 0. */
  function SpaceAtFront(s: Bytes): (n: nat)
    ensures n <= |s|
  {
    if |s| >= 1 && IsAsciiSpace(s[0]) then 1
    else if |s| >= 2 && IsSpace2(s[0], s[1]) then 2
    else if |s| >= 3 && IsSpace3(s[0], s[1], s[2]) then 3
    else 0
  }

  /** Length of the white-space character at the end, or 0. */
  function SpaceAtEnd(s: Bytes): (n: nat)
    ensures n <= |s|
  {
    var e := |s|;
    if e >= 1 && IsAsciiSpace(s[e - 1]) then 1
    else if e >= 2 && IsSpace2(s[e - 2], s[e - 1]) then 2
    else if e >= 3 && IsSpace3(s[e - 3], s[e - 2], s[e - 1]) then 3
    else 0
  }

  function TrimFront(s: Bytes): Bytes
    decreases |s|
  {
    if SpaceAtFront(s) == 0 then s else TrimFront(s[SpaceAtFront(s)..])
  }

  function TrimEnd(s: Bytes): Bytes
    decreases |s|
  {
    if SpaceAtEnd(s) == 0 then s else TrimEnd(s[..|s| - SpaceAtEnd(s)])
  }

  /** `strings.TrimSpace`. */
  function Trim(s: Bytes): Bytes {
    TrimEnd(TrimFront(s))
  }

  predicate StartsWith(s: Bytes, prefix: string) {
    Ascii(prefix) <= s
  }

  function DropPrefix(s: Bytes, prefix: string): Bytes {
    if StartsWith(s, prefix) then s[|prefix|..] else s
  }

  lemma {:induction false} TrimEndIsPrefix(s: Bytes)
    ensures TrimEnd(s) <= s
    ensures SpaceAtEnd(TrimEnd(s)) == 0
    decreases |s|
  {
    if SpaceAtEnd(s) != 0 { TrimEndIsPrefix(s[..|s| - SpaceAtEnd(s)]); }
  }

  lemma {:induction false} TrimFrontTrims(s: Bytes)
    ensures SpaceAtFront(TrimFront(s)) == 0
    decreases |s|
  {
    if SpaceAtFront(s) != 0 { TrimFrontTrims(s[SpaceAtFront(s)..]); }
  }

  /** Trimming twice is trimming once. */
  lemma TrimTwice(s: Bytes)
    ensures Trim(Trim(s)) == Trim(s)
  {
    TrimFrontTrims(s);
    TrimEndKeepsFront(TrimFront(s));
    TrimEndIsPrefix(TrimFront(s));
  }

  /** A text that does not start with white space does not do so once its end is trimmed. */
  lemma TrimEndKeepsFront(s: Bytes)
    requires SpaceAtFront(s) == 0
    ensures SpaceAtFront(TrimEnd(s)) == 0
  {
    TrimEndIsPrefix(s);
  }

  /** What ends in a line feed is not touched by trimming the end of what follows, unless that is
      blank. */
  lemma {:induction false} TrimEndOfTail(head: Bytes, tail: Bytes)
    requires head != [] && head[|head| - 1] == 10
    requires TrimEnd(tail) != []
    ensures TrimEnd(head + tail) == head + TrimEnd(tail)
    decreases |tail|
  {
    var s := head + tail;
    if tail != [] {
      assert SpaceAtEnd(s) == SpaceAtEnd(tail);
      var n := SpaceAtEnd(tail);
      if n != 0 {
        assert s[..|s| - n] == head + tail[..|tail| - n];
        TrimEndOfTail(head, tail[..|tail| - n]);
      }
    }
  }

  /** Encoded base64 has no white space to trim. */
  lemma TrimKeepsAlphabet(s: Bytes)
    requires forall i :: 0 <= i < |s| ==> InAlphabet(s[i])
    ensures Trim(s) == s
  {
    if s != [] {
      assert InAlphabet(s[0]) && InAlphabet(s[|s| - 1]);
      if |s| >= 2 { assert InAlphabet(s[1]) && InAlphabet(s[|s| - 2]); }
      if |s| >= 3 { assert InAlphabet(s[2]) && InAlphabet(s[|s| - 3]); }
    }
  }

  // ---------------------------------------------------------------- bytes against characters

  /** White space, told from the bytes of a character; a byte past the first one starts no character. */
  lemma SpaceInBytes(c: char)
    ensures var u := Utf8Char(c);
            && 1 <= |u| <= 4
            && (|u| == 1 ==> u[0] < 0x80 && (IsSpace(c) <==> IsAsciiSpace(u[0])))
            && (|u| == 2 ==> 0xC0 <= u[0] < 0xE0 && (IsSpace(c) <==> IsSpace2(u[0], u[1])))
            && (|u| == 3 ==> u[0] >= 0xE0 && (IsSpace(c) <==> IsSpace3(u[0], u[1], u[2])))
            && (|u| == 4 ==> u[0] >= 0xF0 && !IsSpace(c))
            && forall i :: 0 < i < |u| ==> 0x80 <= u[i] < 0xC0
  {
  }

  /** The bytes at the front are white space exactly when the first character is, and then all of it. */
  lemma FrontSpace(c: char, rest: Bytes)
    ensures SpaceAtFront(Utf8Char(c) + rest) == if IsSpace(c) then |Utf8Char(c)| else 0
  {
    SpaceInBytes(c);
    hide Utf8Char, IsSpace;
    var u := Utf8Char(c);
    var s := u + rest;
    assert s[0] == u[0];
    if |u| >= 2 { assert s[1] == u[1]; }
    if |u| >= 3 { assert s[2] == u[2]; }
  }

  lemma BackSpace(front: Bytes, c: char)
    ensures SpaceAtEnd(front + Utf8Char(c)) == if IsSpace(c) then |Utf8Char(c)| else 0
  {
    SpaceInBytes(c);
    hide Utf8Char, IsSpace;
    var u := Utf8Char(c);
    var s, n := front + u, |front| + |u|;
    assert s[n - 1] == u[|u| - 1];
    if |u| >= 2 { assert s[n - 2] == u[|u| - 2]; }
    if |u| >= 3 { assert s[n - 3] == u[|u| - 3]; }
  }

  lemma {:induction false} Utf8Last(s: string)
    requires s != ""
    ensures Utf8(s) == Utf8(s[..|s| - 1]) + Utf8Char(s[|s| - 1])
  {
    if |s| > 1 {
      Utf8Last(s[1..]);
      assert s[..|s| - 1][1..] == s[1..][..|s| - 2];
    }
  }

  lemma {:induction false} TrimFrontIsTrimLeft(s: string)
    ensures TrimFront(Utf8(s)) == Utf8(TrimLeft(s))
  {
    hide Utf8Char, IsSpace, SpaceAtFront;
    if s == "" {
      NoSpaceInNothing();
    } else {
      FrontSpace(s[0], Utf8(s[1..]));
      if IsSpace(s[0]) {
        assert Utf8(s)[|Utf8Char(s[0])|..] == Utf8(s[1..]);
        Utf8CharNotEmpty(s[0]);
        TrimFrontIsTrimLeft(s[1..]);
      }
    }
  }

  lemma NoSpaceInNothing()
    ensures SpaceAtFront([]) == 0 && SpaceAtEnd([]) == 0
  {
  }

  lemma Utf8CharNotEmpty(c: char)
    ensures Utf8Char(c) != []
  {
  }

  lemma {:induction false} TrimEndIsTrimRight(s: string)
    ensures TrimEnd(Utf8(s)) == Utf8(TrimRight(s))
  {
    hide Utf8Char, IsSpace, SpaceAtEnd;
    if s == "" {
      NoSpaceInNothing();
    } else {
      var front, c := s[..|s| - 1], s[|s| - 1];
      Utf8Last(s);
      BackSpace(Utf8(front), c);
      if IsSpace(c) {
        Utf8CharNotEmpty(c);
        assert Utf8(s)[..|Utf8(s)| - |Utf8Char(c)|] == Utf8(front);
        TrimEndIsTrimRight(front);
      }
    }
  }

  lemma AsciiChar(c: char, w: char)
    requires w <= '~'
    ensures Utf8Char(w) == [w as int] && |Utf8Char(c)| >= 1
    ensures Utf8Char(c)[0] == w as int <==> c == w
  {
  }

  /** A text starts with an ASCII word exactly when its bytes do. */
  lemma {:induction false} AsciiPrefix(word: string, s: string)
    requires forall i :: 0 <= i < |word| ==> word[i] <= '~'
    ensures StartsWith(Utf8(s), word) <==> word <= s
    ensures word <= s ==> Utf8(s)[|word|..] == Utf8(s[|word|..])
  {
    if word == "" {
      assert s[0..] == s;
    } else if s != "" {
      var rest := Utf8(s[1..]);
      AsciiPrefix(word[1..], s[1..]);
      AsciiChar(s[0], word[0]);
      hide Utf8Char;
      assert Ascii(word) == [word[0] as int] + Ascii(word[1..]);
      if s[0] == word[0] {
        assert Utf8(s) == [word[0] as int] + rest;
        assert Utf8(s)[1..] == rest;
        assert Ascii(word)[1..] == Ascii(word[1..]);
        assert StartsWith(Utf8(s), word) <==> StartsWith(rest, word[1..]) by {
          if StartsWith(rest, word[1..]) { assert Ascii(word) <= Utf8(s); }
          if StartsWith(Utf8(s), word) { assert Utf8(s)[1..][..|word| - 1] == Ascii(word)[1..]; }
        }
        assert word <= s <==> word[1..] <= s[1..];
        if word <= s {
          assert s[1..][|word| - 1..] == s[|word|..];
          assert Utf8(s)[|word|..] == rest[|word| - 1..];
        }
      } else {
        assert Utf8(s)[0] != word[0] as int;
      }
    }
  }

  /** Trimming the bytes of a text is trimming its characters. */
  lemma TrimIsTrimSpace(s: string)
    ensures Trim(Utf8(s)) == Utf8(TrimSpace(s))
  {
    TrimFrontIsTrimLeft(s);
    TrimEndIsTrimRight(TrimLeft(s));
  }
}
