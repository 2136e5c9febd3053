/** The parts of Go's `strings` package that the program relies on.  A string here is a
    sequence of Unicode scalar values, which is what a Go string holding valid UTF-8 denotes. */
module GoStrings {
  /** `unicode.IsSpace`. */
  predicate IsSpace(c: char) {
    var n := c as int;
    || 0x09 <= n <= 0x0D || n == 0x20 || n == 0x85 || n == 0xA0 || n == 0x1680
    || 0x2000 <= n <= 0x200A || n == 0x2028 || n == 0x2029 || n == 0x202F || n == 0x205F || n == 0x3000
  }

  /** A text without white space. */
  predicate IsWord(w: string) {
    w != "" && forall i :: 0 <= i < |w| ==> !IsSpace(w[i])
  }

  function TrimLeft(s: string): string {
    if s != "" && IsSpace(s[0]) then TrimLeft(s[1..]) else s
  }

  function TrimRight(s: string): string {
    if s != "" && IsSpace(s[|s| - 1]) then TrimRight(s[..|s| - 1]) else s
  }

  function TrimSpace(s: string): string {
    TrimRight(TrimLeft(s))
  }

  /** A text that neither starts nor ends with white space, and the same with some around it. */
  lemma TrimSpacePadded(front: char, name: string, back: char)
    requires IsSpace(front) && IsSpace(back) && name != "" && !IsSpace(name[0]) && !IsSpace(name[|name| - 1])
    ensures TrimSpace([front] + name + [back]) == name && TrimSpace(name) == name
  {
    var padded := [front] + name + [back];
    assert padded[1..] == name + [back];
    assert TrimLeft(padded) == TrimLeft(name + [back]) == name + [back];
    assert (name + [back])[..|name|] == name;
    assert TrimRight(name + [back]) == TrimRight(name) == name;
  }

  /** The simple lower-case mapping, spelled out for every character that it sends into ASCII.
      Any other letter stays outside ASCII, and the program only searches for ASCII words. */
  function LowerChar(c: char): char {
    var n := c as int;
    if 'A' <= c <= 'Z' then (n + 32) as char
    else if n == 0x212A then 'k'  // KELVIN SIGN
    else if n == 0x0130 then 'i'  // LATIN CAPITAL LETTER I WITH DOT ABOVE
    else c
  }

  function ToLower(s: string): (r: string)
    ensures |r| == |s|
    ensures forall i :: 0 <= i < |s| ==> r[i] == LowerChar(s[i])
  {
    seq(|s|, i requires 0 <= i < |s| => LowerChar(s[i]))
  }

  /** One representative of the simple-folding orbit, exact whenever the orbit meets ASCII. */
  function FoldChar(c: char): char {
    var n := c as int;
    if 'A' <= c <= 'Z' then (n + 32) as char
    else if n == 0x212A then 'k'  // KELVIN SIGN
    else if n == 0x017F then 's'  // LATIN SMALL LETTER LONG S
    else c
  }

  /** `strings.EqualFold` against an ASCII word. */
  predicate EqualFold(s: string, word: string) {
    |s| == |word| && forall i :: 0 <= i < |s| ==> FoldChar(s[i]) == FoldChar(word[i])
  }

  predicate OccursAt<T(==)>(s: seq<T>, sub: seq<T>, i: int) {
    0 <= i <= |s| - |sub| && s[i..i + |sub|] == sub
  }

  predicate Contains<T(==)>(s: seq<T>, sub: seq<T>) {
    exists i | 0 <= i <= |s| :: OccursAt(s, sub, i)
  }

  /** `strings.ReplaceAll` for a non-empty pattern: leftmost matches, not overlapping. */
  function ReplaceAll<T(==)>(s: seq<T>, pattern: seq<T>, replacement: seq<T>): seq<T>
    requires pattern != []
  {
    if s == [] then []
    else if pattern <= s then replacement + ReplaceAll(s[|pattern|..], pattern, replacement)
    else [s[0]] + ReplaceAll(s[1..], pattern, replacement)
  }

  function Join(parts: seq<string>, sep: string): string {
    if |parts| == 0 then ""
    else if |parts| == 1 then parts[0]
    else parts[0] + sep + Join(parts[1..], sep)
  }

  /** Length of the run of non-space characters at the front. */
  function WordLen(s: string): (n: nat)
    ensures n <= |s|
    ensures forall i :: 0 <= i < n ==> !IsSpace(s[i])
    ensures n < |s| ==> IsSpace(s[n])
  {
    if s == "" || IsSpace(s[0]) then 0 else 1 + WordLen(s[1..])
  }

  /** `strings.Fields`. */
  function Fields(s: string): (words: seq<string>)
    decreases |s|
  {
    if s == "" then []
    else if IsSpace(s[0]) then Fields(s[1..])
    else [s[..WordLen(s)]] + Fields(s[WordLen(s)..])
  }
}
