/** Single-quoting for a POSIX shell, and the shell's own reading of the result. */
module ShellQuote {
  import opened GoStrings
  import opened Wrappers

  function ShellSingleQuote(value: string): string {
    "'" + ReplaceAll(value, "'", "'\"'\"'") + "'"
  }

  /** Where the reader stands: outside quotes with the word begun so far (if any), or inside
      single quotes (POSIX.1-2017 Shell Command Language, section 2.2.2) or double quotes
      (section 2.2.3) of a word. */
  datatype Mode = Outside(begun: Option<string>) | InSingle(word: string) | InDouble(word: string)

  /** Characters that end a word or start something other than a word outside quotes
      (sections 2.2 and 2.3), apart from the quotes and blanks handled below. */
  predicate Special(c: char) {
    c in "|&;<>()$`\\\n*?[#~=%!{}"
  }

  /** The words of a simple command line; None when a construct outside quoted words and plain
      characters occurs, or a quote stays open. */
  function Tokenize(input: string, mode: Mode, done: seq<string>): Option<seq<string>>
    decreases |input|
  {
    if input == "" then
      match mode
      case Outside(None) => Some(done)
      case Outside(Some(w)) => Some(done + [w])
      case _ => None
    else
      var c, rest := input[0], input[1..];
      match mode
      case Outside(w) =>
        var begun := if w.Some? then w.value else "";
        if c == '\'' then Tokenize(rest, InSingle(begun), done)
        else if c == '"' then Tokenize(rest, InDouble(begun), done)
        else if c == ' ' || c == '\t' then Tokenize(rest, Outside(None), if w.Some? then done + [w.value] else done)
        else if Special(c) then None
        else Tokenize(rest, Outside(Some(begun + [c])), done)
      case InSingle(w) =>
        if c == '\'' then Tokenize(rest, Outside(Some(w)), done) else Tokenize(rest, InSingle(w + [c]), done)
      case InDouble(w) =>
        if c == '"' then Tokenize(rest, Outside(Some(w)), done)
        else if c in "$`\\" then None
        else Tokenize(rest, InDouble(w + [c]), done)
  }

  /** Inside the opening quote, reading the escaped value adds exactly the value to the word and
      leaves the reader outside quotes. */
  lemma {:induction false} EscapedBody(value: string, rest: string, word: string, done: seq<string>)
    ensures Tokenize(ReplaceAll(value, "'", "'\"'\"'") + "'" + rest, InSingle(word), done)
         == Tokenize(rest, Outside(Some(word + value)), done)
    decreases |value|
  {
    var body := ReplaceAll(value, "'", "'\"'\"'");
    var text := body + "'" + rest;
    if value == "" {
      assert text[1..] == rest;
      assert word + value == word;
    } else if value[0] == '\'' {
      var tail := ReplaceAll(value[1..], "'", "'\"'\"'") + "'" + rest;
      assert "'" <= value;
      assert text == "'\"'\"'" + tail;
      CloseAndReopen(tail, word, done);
      EscapedBody(value[1..], rest, word + "'", done);
      assert word + "'" + value[1..] == word + value;
    } else {
      var tail := ReplaceAll(value[1..], "'", "'\"'\"'") + "'" + rest;
      assert text == [value[0]] + tail;
      EscapedBody(value[1..], rest, word + [value[0]], done);
      assert word + [value[0]] + value[1..] == word + value;
    }
  }

  /** The five characters that stand for one quote close the quotes, give a quote and reopen them. */
  lemma {:induction false} CloseAndReopen(tail: string, word: string, done: seq<string>)
    ensures Tokenize("'\"'\"'" + tail, InSingle(word), done) == Tokenize(tail, InSingle(word + "'"), done)
  {
    var t0 := "'\"'\"'" + tail;
    var t1 := "\"'\"'" + tail;
    var t2 := "'\"'" + tail;
    var t3 := "\"'" + tail;
    var t4 := "'" + tail;
    assert t0[1..] == t1 && t1[1..] == t2 && t2[1..] == t3 && t3[1..] == t4 && t4[1..] == tail;
    assert Tokenize(t0, InSingle(word), done) == Tokenize(t1, Outside(Some(word)), done);
    assert Tokenize(t1, Outside(Some(word)), done) == Tokenize(t2, InDouble(word), done);
    assert Tokenize(t2, InDouble(word), done) == Tokenize(t3, InDouble(word + "'"), done);
    assert Tokenize(t3, InDouble(word + "'"), done) == Tokenize(t4, Outside(Some(word + "'")), done);
  }

  /** Anywhere on a command line, at the start or in the middle of a word, the quoted value
      contributes exactly the value and the rest of the line is read as if nothing special came. */
  lemma {:induction false} QuotedInContext(value: string, rest: string, begun: Option<string>, done: seq<string>)
    ensures Tokenize(ShellSingleQuote(value) + rest, Outside(begun), done)
         == Tokenize(rest, Outside(Some((if begun.Some? then begun.value else "") + value)), done)
  {
    var body := ReplaceAll(value, "'", "'\"'\"'");
    var text := ShellSingleQuote(value) + rest;
    assert text[1..] == body + "'" + rest;
    EscapedBody(value, rest, if begun.Some? then begun.value else "", done);
  }

  /** The shell reads the quoted form of any value as exactly one word, the value. */
  lemma QuoteRoundTrip(value: string)
    ensures Tokenize(ShellSingleQuote(value), Outside(None), []) == Some([value])
  {
    QuotedInContext(value, "", None, []);
    assert ShellSingleQuote(value) + "" == ShellSingleQuote(value);
    assert "" + value == value && [] + [value] == [value];
  }

  /** Distinct values stay distinct once quoted. */
  lemma QuoteInjective(a: string, b: string)
    ensures ShellSingleQuote(a) == ShellSingleQuote(b) <==> a == b
  {
    QuoteRoundTrip(a);
    QuoteRoundTrip(b);
  }
}
