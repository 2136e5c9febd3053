/** Command normal form: how the cloud-init merge recognises a `runcmd` entry it already wrote. */
module Commands {
  import opened GoStrings

  function NormalizeCommand(s: string): string {
    Join(Fields(TrimSpace(s)), " ")
  }

  predicate AllWords(words: seq<string>) {
    forall i :: 0 <= i < |words| ==> IsWord(words[i])
  }

  /** The words of several texts, one after the other. */
  function AllFields(parts: seq<string>): seq<string> {
    if parts == [] then [] else Fields(parts[0]) + AllFields(parts[1..])
  }

  lemma {:induction false} WordLenPrefix(a: string, b: string)
    requires b == "" || IsSpace(b[0])
    ensures WordLen(a + b) == WordLen(a)
  {
    if a != "" && !IsSpace(a[0]) {
      assert (a + b)[1..] == a[1..] + b;
      WordLenPrefix(a[1..], b);
    } else if a == "" {
      assert a + b == b;
    }
  }

  lemma {:induction false} FieldsAreWords(s: string)
    ensures AllWords(Fields(s))
    decreases |s|
  {
    if s == "" {
    } else if IsSpace(s[0]) {
      FieldsAreWords(s[1..]);
    } else {
      FieldsAreWords(s[WordLen(s)..]);
    }
  }

  /** Splitting commutes with gluing two texts together at a space. */
  lemma {:induction false} FieldsSplitAtSpace(a: string, space: char, b: string)
    requires IsSpace(space)
    ensures Fields(a + [space] + b) == Fields(a) + Fields(b)
    decreases |a|
  {
    var whole := a + [space] + b;
    if a == "" {
      assert whole[1..] == b;
    } else if IsSpace(a[0]) {
      assert whole[1..] == a[1..] + [space] + b;
      FieldsSplitAtSpace(a[1..], space, b);
    } else {
      var n := WordLen(a);
      WordLenPrefix(a, [space] + b);
      assert whole == a + ([space] + b);
      assert whole[..n] == a[..n] && whole[n..] == a[n..] + [space] + b;
      FieldsSplitAtSpace(a[n..], space, b);
    }
  }

  /** Joining with a space loses no word and merges none, whatever spaces the parts contain. */
  lemma {:induction false} FieldsOfJoin(parts: seq<string>)
    ensures Fields(Join(parts, " ")) == AllFields(parts)
  {
    if |parts| == 1 {
      assert AllFields(parts[1..]) == [];
    } else if |parts| > 1 {
      FieldsOfJoin(parts[1..]);
      FieldsSplitAtSpace(parts[0], ' ', Join(parts[1..], " "));
    }
  }

  lemma FieldsOfWord(w: string)
    requires IsWord(w)
    ensures Fields(w) == [w]
  {
    assert !IsSpace(w[0]) && WordLen(w) == |w|;
    assert w[..|w|] == w && w[|w|..] == "";
  }

  lemma {:induction false} AllFieldsOfWords(words: seq<string>)
    requires AllWords(words)
    ensures AllFields(words) == words
  {
    if words != [] {
      assert IsWord(words[0]);
      FieldsOfWord(words[0]);
      AllFieldsOfWords(words[1..]);
    }
  }

  /** The single-space join of any words splits back into those words. */
  lemma SplitUndoesJoin(words: seq<string>)
    requires AllWords(words)
    ensures Fields(Join(words, " ")) == words
  {
    FieldsOfJoin(words);
    AllFieldsOfWords(words);
  }

  lemma {:induction false} FieldsIgnoreTrimLeft(s: string)
    ensures Fields(TrimLeft(s)) == Fields(s)
  {
    if s != "" && IsSpace(s[0]) { FieldsIgnoreTrimLeft(s[1..]); }
  }

  lemma {:induction false} FieldsIgnoreTrimRight(s: string)
    ensures Fields(TrimRight(s)) == Fields(s)
  {
    if s != "" && IsSpace(s[|s| - 1]) {
      var front := s[..|s| - 1];
      FieldsIgnoreTrimRight(front);
      assert s == front + [s[|s| - 1]] + "";
      FieldsSplitAtSpace(front, s[|s| - 1], "");
    }
  }

  lemma NormalFields(s: string)
    ensures Fields(NormalizeCommand(s)) == Fields(s)
  {
    FieldsIgnoreTrimLeft(s);
    FieldsIgnoreTrimRight(TrimLeft(s));
    FieldsAreWords(s);
    SplitUndoesJoin(Fields(s));
  }

  /** Normalising twice changes nothing. */
  lemma NormalizeIdempotent(s: string)
    ensures NormalizeCommand(NormalizeCommand(s)) == NormalizeCommand(s)
  {
    var t := NormalizeCommand(s);
    NormalFields(s);
    FieldsIgnoreTrimLeft(s);
    FieldsIgnoreTrimRight(TrimLeft(s));
    FieldsIgnoreTrimLeft(t);
    FieldsIgnoreTrimRight(TrimLeft(t));
  }

  /** Two commands match exactly when they consist of the same words. */
  lemma MatchIffSameWords(a: string, b: string)
    ensures NormalizeCommand(a) == NormalizeCommand(b) <==> Fields(a) == Fields(b)
  {
    NormalFields(a);
    NormalFields(b);
    FieldsIgnoreTrimLeft(a);
    FieldsIgnoreTrimRight(TrimLeft(a));
    FieldsIgnoreTrimLeft(b);
    FieldsIgnoreTrimRight(TrimLeft(b));
  }

  /** An argv entry is recognised exactly like a string entry made of the same words. */
  lemma ArgvMatchesLikeString(argv: seq<string>, wanted: string)
    ensures NormalizeCommand(Join(argv, " ")) == NormalizeCommand(wanted) <==> AllFields(argv) == Fields(wanted)
  {
    FieldsOfJoin(argv);
    MatchIffSameWords(Join(argv, " "), wanted);
  }
}
