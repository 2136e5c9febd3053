/** The cloud-init merge on user-data texts: header, raw scripts, parsing and rendering. */
module CloudInitMerge {
  import opened Wrappers
  import opened GoStrings
  import opened GoBytes
  import opened CloudConfig
  import opened CloudConfigFacts

  /** The YAML library: reading a text as a cloud-config document and writing one. */
  datatype Yaml = Yaml(parse: Bytes -> Option<Doc>, render: Doc -> Bytes)

  const HEADER := "#cloud-config"

  const EMPTY_DOC := Doc(None, [], [], [], [], map[])

  /** What is taken for granted of the library, for the documents the merge writes, which were read
      before they were merged: the text is not blank, does not start with white space and, after the
      next parser has trimmed its end, reads as a document that still holds everything the program
      manages, no hints and no raw script.  It need not be the same document: a value at the very end
      of the text can lose white space. */
  ghost predicate ReadsBack(y: Yaml) {
    && WritesWell(y, EMPTY_DOC)
    && forall text :: y.parse(text).Some? && !HoldsRaw(y.parse(text).value) ==> WritesWell(y, y.parse(text).value)
  }

  ghost predicate WritesWell(y: Yaml, doc: Doc) {
    forall os :: os != OtherOS ==> ReadsAsManaged(y, StripHints(MergeDoc(doc, os)), os)
  }

  ghost predicate ReadsAsManaged(y: Yaml, doc: Doc, os: OSType) {
    var text := y.render(doc);
    && SpaceAtFront(text) == 0 && TrimEnd(text) != []
    && y.parse(TrimEnd(text)).Some?
    && IsManaged(y.parse(TrimEnd(text)).value, os)
  }

  predicate IsManaged(doc: Doc, os: OSType) {
    Complete(doc, os) && HintFree(doc) && !HoldsRaw(doc)
  }

  /** A document that stands for a raw script. */
  predicate HoldsRaw(doc: Doc) {
    RAW_USERDATA in doc.raw && doc.raw[RAW_USERDATA].Str?
  }

  /** Scripts that are not to be read as YAML. */
  predicate LooksRaw(text: Bytes) {
    || StartsWith(text, "#ps1") || StartsWith(text, "powershell") || StartsWith(text, "net user")
    || Contains(text, Ascii("winrm "))
  }

  lemma PrefixStarts(word: string, rest: Bytes)
    ensures StartsWith(Ascii(word) + rest, word)
  {
    assert (Ascii(word) + rest)[..|word|] == Ascii(word);
  }

  lemma InsideContains(front: Bytes, word: string, rest: Bytes)
    ensures Contains(front + Ascii(word) + rest, Ascii(word))
  {
    var text := front + Ascii(word) + rest;
    assert text[|front|..|front| + |Ascii(word)|] == Ascii(word);
    assert OccursAt(text, Ascii(word), |front|);
  }

  /** What counts as a raw script: a PowerShell or batch opening, or a call of the remote-management tool
      anywhere; not a mapping that mentions none. */
  lemma RawLooks(front: Bytes, rest: Bytes)
    ensures LooksRaw(Ascii("#ps1") + rest) && LooksRaw(Ascii("powershell") + rest) && LooksRaw(Ascii("net user") + rest)
    ensures LooksRaw(front + Ascii("winrm ") + rest)
    ensures front != [] && front[0] !in {35, 112, 110} && !Contains(front, Ascii("winrm ")) ==> !LooksRaw(front)
  {
    PrefixStarts("#ps1", rest);
    PrefixStarts("powershell", rest);
    PrefixStarts("net user", rest);
    InsideContains(front, "winrm ", rest);
    hide Contains;
  }

  datatype Parsed = RawScript(text: Bytes) | Config(doc: Doc) | Malformed

  /** The text without surrounding white space and without the header. */
  function Body(userData: Bytes): Bytes {
    var trimmed := Trim(userData);
    if StartsWith(trimmed, HEADER) then Trim(trimmed[|HEADER|..]) else trimmed
  }

  /** On characters: what is left of a text without the white space around it, and without the header and
      the white space after that. */
  lemma BodyOfText(s: string)
    ensures var t := TrimSpace(s);
            Body(Utf8(s)) == Utf8(if "#cloud-config" <= t then TrimSpace(t[13..]) else t)
  {
    var t := TrimSpace(s);
    TrimIsTrimSpace(s);
    assert |HEADER| == 13;
    AsciiPrefix(HEADER, t);
    if HEADER <= t { TrimIsTrimSpace(t[13..]); }
    hide Trim, TrimSpace, Utf8;
  }

  /** `parseCloudConfig`. */
  function ParseCloudConfig(y: Yaml, userData: Bytes): Parsed {
    var body := Body(userData);
    if body == [] then Config(EMPTY_DOC)
    else if LooksRaw(body) then RawScript(body)
    else
      match y.parse(body)
      case None => Malformed
      case Some(doc) =>
        if HoldsRaw(doc) then RawScript(Utf8(doc.raw[RAW_USERDATA].s))
        else Config(doc)
  }

  /** `renderCloudConfig`. */
  function RenderCloudConfig(y: Yaml, doc: Doc): Bytes {
    Ascii(HEADER) + [10] + y.render(StripHints(doc))
  }

  datatype Merged = Merged(text: Bytes, changed: bool)

  /** `Merge`. */
  function Merge(y: Yaml, userData: Bytes, os: OSType): Result<Merged> {
    match ParseCloudConfig(y, userData)
    case Malformed => Err("failed to parse cloud-init userdata")
    case RawScript(text) => Ok(Merged(text, false))
    case Config(doc) =>
      if os == OtherOS then Err("unsupported os type")
      else Ok(Merged(RenderCloudConfig(y, MergeDoc(doc, os)), MergeDoc(doc, os) != doc))
  }

  method MergeUserData(y: Yaml, userData: Bytes, os: OSType) returns (r: Result<Merged>)
    ensures r == Merge(y, userData, os)
  {
    match ParseCloudConfig(y, userData) {
      case Malformed => return Err("failed to parse cloud-init userdata");
      case RawScript(text) => return Ok(Merged(text, false));
      case Config(doc) =>
        if os == OtherOS {
          return Err("unsupported os type");
        }
        var merged, changed := MergeConfig(doc, os);
        HintsSurvive(doc, os);
        assert StripHints(merged) == merged by { MergeTwice(doc, os); }
        return Ok(Merged(RenderCloudConfig(y, merged), changed));
    }
  }

  /** When a merge fails, and that raw scripts come back as they are: the text without its header, or what
      stands under the name the program keeps for them. */
  lemma MergeIs(y: Yaml, userData: Bytes, os: OSType)
    ensures var b, merged := Body(userData), Merge(y, userData, os);
            var raw := exists s :: y.parse(b).Some? && Holds(y.parse(b).value, s);
            && (merged.Err? <==> (b == [] || !LooksRaw(b)) && ((b != [] && y.parse(b).None?) || (os == OtherOS && (b == [] || !raw))))
            && (b != [] && LooksRaw(b) ==> merged == Ok(Merged(b, false)))
            && (b != [] && !LooksRaw(b) && y.parse(b).Some? ==>
                  forall s :: Holds(y.parse(b).value, s) ==> merged == Ok(Merged(Utf8(s), false)))
  {
    hide Body, LooksRaw, MergeDoc, Utf8, RenderCloudConfig;
    var b := Body(userData);
    if y.parse(b).Some? {
      var doc := y.parse(b).value;
      if HoldsRaw(doc) { assert Holds(doc, doc.raw[RAW_USERDATA].s); }
    }
  }

  predicate Holds(doc: Doc, s: string) {
    "raw_userdata" in doc.raw && doc.raw["raw_userdata"] == Str(s)
  }

  /** The body of a rendered text is the rendering, up to white space at its end. */
  lemma BodyOfRendered(y: Yaml, doc: Doc)
    requires SpaceAtFront(y.render(StripHints(doc))) == 0 && TrimEnd(y.render(StripHints(doc))) != []
    ensures Body(RenderCloudConfig(y, doc)) == TrimEnd(y.render(StripHints(doc)))
  {
    var inner := y.render(StripHints(doc));
    var text := RenderCloudConfig(y, doc);
    var head := Ascii(HEADER) + [10];
    assert text == head + inner && text[0] == 35;
    assert TrimFront(text) == text;
    TrimEndOfTail(head, inner);
    var trimmed := Trim(text);
    assert trimmed == head + TrimEnd(inner);
    assert trimmed[..|HEADER|] == Ascii(HEADER);
    var rest := trimmed[|HEADER|..];
    assert rest == [10] + TrimEnd(inner);
    TrimEndKeepsFront(inner);
    TrimEndIsPrefix(inner);
    assert rest[1..] == TrimEnd(inner);
    assert TrimFront(rest) == TrimFront(TrimEnd(inner)) == TrimEnd(inner);
    assert TrimEnd(TrimEnd(inner)) == TrimEnd(inner);
  }

  /** What the YAML library makes of a merged text, past its header. */
  function Reading(y: Yaml, text: Bytes): Option<Doc> {
    y.parse(Body(text))
  }

  lemma ParsedWritesWell(y: Yaml, userData: Bytes)
    requires ReadsBack(y) && ParseCloudConfig(y, userData).Config?
    ensures WritesWell(y, ParseCloudConfig(y, userData).doc)
  {
    hide Body, LooksRaw, WritesWell;
  }

  /** Whoever reads the YAML of a merged text, whatever it looks like, finds everything the program
      manages and no hints. */
  lemma MergedTextIsComplete(y: Yaml, userData: Bytes, os: OSType)
    requires ReadsBack(y) && ParseCloudConfig(y, userData).Config? && os != OtherOS
    ensures Merge(y, userData, os).Ok?
    ensures var out := Merge(y, userData, os).value.text;
            && Body(out) == TrimEnd(y.render(StripHints(MergeDoc(ParseCloudConfig(y, userData).doc, os))))
            && Body(out) != [] && Reading(y, out).Some? && IsManaged(Reading(y, out).value, os)
  {
    var doc := ParseCloudConfig(y, userData).doc;
    ParsedWritesWell(y, userData);
    hide MergeDoc, Body, StripHints, ParseCloudConfig, IsManaged, RenderCloudConfig;
    assert ReadsAsManaged(y, StripHints(MergeDoc(doc, os)), os);
    BodyOfRendered(y, MergeDoc(doc, os));
  }

  lemma ManagedIsFixed(y: Yaml, doc: Doc, os: OSType)
    requires IsManaged(doc, os)
    ensures MergeDoc(doc, os) == doc && StripHints(doc) == doc
  {
    CompleteIsFixed(doc, os);
    hide MergeDoc, Complete;
    assert doc.raw - {HINT_USER, HINT_KEY} == doc.raw;
  }

  /** A second merge never reports a change.  It gives the text without its header if that looks like
      a raw script, and otherwise what the reading of the text renders to. */
  lemma MergeAgain(y: Yaml, userData: Bytes, os: OSType)
    requires ReadsBack(y) && ParseCloudConfig(y, userData).Config? && os != OtherOS
    ensures Merge(y, userData, os).Ok?
    ensures var out := Merge(y, userData, os).value.text;
            && Reading(y, out).Some?
            && Merge(y, out, os) ==
                 Ok(Merged(if LooksRaw(Body(out)) then Body(out) else Ascii(HEADER) + [10] + y.render(Reading(y, out).value),
                           false))
  {
    MergedTextIsComplete(y, userData, os);
    var out := Merge(y, userData, os).value.text;
    var read := Reading(y, out).value;
    ManagedIsFixed(y, read, os);
    assert ParseCloudConfig(y, out) == if LooksRaw(Body(out)) then RawScript(Body(out)) else Config(read) by {
      hide Body, LooksRaw, Complete, Merge, HintFree;
    }
    hide MergeDoc, Body, LooksRaw, ParseCloudConfig, StripHints, IsManaged, Reading;
  }

  /** The second merge gives the same text exactly when the first result does not look like a raw
      script and its reading renders to the same bytes. */
  lemma TextIdempotentIff(y: Yaml, userData: Bytes, os: OSType)
    requires ReadsBack(y) && ParseCloudConfig(y, userData).Config? && os != OtherOS
    ensures Merge(y, userData, os).Ok?
    ensures var out := Merge(y, userData, os).value.text;
            && Reading(y, out).Some? && Merge(y, out, os).Ok?
            && (Merge(y, out, os).value.text == out
                <==> !LooksRaw(Body(out)) && Ascii(HEADER) + [10] + y.render(Reading(y, out).value) == out)
  {
    MergeAgain(y, userData, os);
    BodyIsShorter(y, userData, os);
    hide MergeDoc, Body, LooksRaw, StripHints, ParseCloudConfig, Reading, Merge;
  }

  lemma BodyIsShorter(y: Yaml, userData: Bytes, os: OSType)
    requires ReadsBack(y) && ParseCloudConfig(y, userData).Config? && os != OtherOS
    ensures Merge(y, userData, os).Ok?
    ensures |Body(Merge(y, userData, os).value.text)| < |Merge(y, userData, os).value.text|
  {
    MergedTextIsComplete(y, userData, os);
    var doc := ParseCloudConfig(y, userData).doc;
    TrimEndIsPrefix(y.render(StripHints(MergeDoc(doc, os))));
    hide MergeDoc, Body, ParseCloudConfig, StripHints;
  }

  /** Where the library reads back what it writes, that is a matter of white space alone: the text
      stays exactly when it does not look raw and trimming its end does not change what it says. */
  lemma TextIdempotentIffTrimHarmless(y: Yaml, userData: Bytes, os: OSType)
    requires ReadsBack(y) && ParseCloudConfig(y, userData).Config? && os != OtherOS
    requires var once := StripHints(MergeDoc(ParseCloudConfig(y, userData).doc, os));
             && y.parse(y.render(once)) == Some(once)
             && (Merge(y, userData, os).Ok? && Reading(y, Merge(y, userData, os).value.text).Some? ==>
                   var read := Reading(y, Merge(y, userData, os).value.text).value;
                   y.parse(y.render(read)) == Some(read))
    ensures Merge(y, userData, os).Ok?
    ensures var out := Merge(y, userData, os).value.text;
            var rendered := y.render(StripHints(MergeDoc(ParseCloudConfig(y, userData).doc, os)));
            && Merge(y, out, os).Ok?
            && (Merge(y, out, os).value.text == out
                <==> !LooksRaw(Body(out)) && y.parse(TrimEnd(rendered)) == y.parse(rendered))
  {
    TextIdempotentIff(y, userData, os);
    MergedTextIsComplete(y, userData, os);
    var once := StripHints(MergeDoc(ParseCloudConfig(y, userData).doc, os));
    var out := Merge(y, userData, os).value.text;
    assert out == Ascii(HEADER) + [10] + y.render(once) by { hide MergeDoc, ParseCloudConfig, Body, LooksRaw; }
    assert out[|HEADER| + 1..] == y.render(once);
    var again := Ascii(HEADER) + [10] + y.render(Reading(y, out).value);
    assert again[|HEADER| + 1..] == y.render(Reading(y, out).value);
    hide MergeDoc, Body, LooksRaw, StripHints, ParseCloudConfig, Merge, IsManaged;
  }

  /** For Windows it does not stay: the script written into the document holds the word that makes the
      rendered text look raw, so the second merge drops the header. */
  lemma WindowsTextNotIdempotent(y: Yaml, userData: Bytes)
    requires ReadsBack(y) && ParseCloudConfig(y, userData).Config?
    requires var once := StripHints(MergeDoc(ParseCloudConfig(y, userData).doc, OSWindows));
             HasWindowsScript(once) ==> Contains(TrimEnd(y.render(once)), Ascii("winrm "))
    requires !HasFile(ParseCloudConfig(y, userData).doc.writeFiles, WINDOWS_SCRIPT_PATH)
    ensures Merge(y, userData, OSWindows).Ok?
    ensures var out := Merge(y, userData, OSWindows).value.text;
            Merge(y, out, OSWindows) == Ok(Merged(Body(out), false)) && Body(out) != out
  {
    MergeAgain(y, userData, OSWindows);
    MergedTextIsComplete(y, userData, OSWindows);
    BodyIsShorter(y, userData, OSWindows);
    WindowsScriptIsWritten(ParseCloudConfig(y, userData).doc);
    hide MergeDoc, Body, StripHints, ParseCloudConfig, HasFile, HasWindowsScript, Contains, Merge, Reading, IsManaged;
  }

  /** So it is already for empty user data. */
  lemma FreshWindowsTextNotIdempotent(y: Yaml)
    requires ReadsBack(y)
    requires var once := StripHints(MergeDoc(EMPTY_DOC, OSWindows));
             HasWindowsScript(once) ==> Contains(TrimEnd(y.render(once)), Ascii("winrm "))
    ensures Merge(y, [], OSWindows).Ok?
    ensures var out := Merge(y, [], OSWindows).value.text;
            Merge(y, out, OSWindows) == Ok(Merged(Body(out), false)) && Body(out) != out
  {
    assert ParseCloudConfig(y, []) == Config(EMPTY_DOC);
    hide ParseCloudConfig, MergeDoc, Merge;
    WindowsTextNotIdempotent(y, []);
  }

  /** The lines `final_message: |`, `  up`, `runcmd:` and `  - echo hi`, and the same document
      without the line break at the end of the message. */
  const UP_DOC := EMPTY_DOC.(runCmd := [Str("echo hi")], raw := map["final_message" := Str("up\n")])
  const UP_TRIMMED := UP_DOC.(raw := map["final_message" := Str("up")])

  lemma UpHasNoHints()
    ensures StripHints(MergeDoc(UP_DOC, OSLinux)) == MergeDoc(UP_DOC, OSLinux)
  {
    assert |"final_message"| == 13 && |HINT_USER| == 22 && |HINT_KEY| == 28;
    MergedRaw(UP_DOC, OSLinux);
    hide MergeDoc, HasUser;
    assert RawString(UP_DOC, HINT_USER) == "";
    assert MergeDoc(UP_DOC, OSLinux).raw - {HINT_USER, HINT_KEY} == UP_DOC.raw;
  }

  /** For Linux a value at the end of the text can make the difference.  The unstructured part is
      written last, so the next parser trims the line break off the message. */
  lemma LinuxTextNotIdempotent(y: Yaml, userData: Bytes)
    requires ReadsBack(y) && ParseCloudConfig(y, userData) == Config(UP_DOC)
    requires y.parse(TrimEnd(y.render(MergeDoc(UP_DOC, OSLinux)))) == Some(MergeDoc(UP_TRIMMED, OSLinux))
    requires y.render(MergeDoc(UP_TRIMMED, OSLinux)) != y.render(MergeDoc(UP_DOC, OSLinux))
    ensures Merge(y, userData, OSLinux).Ok?
    ensures var out := Merge(y, userData, OSLinux).value.text;
            Merge(y, out, OSLinux).Ok? && Merge(y, out, OSLinux).value.text != out
  {
    TextIdempotentIff(y, userData, OSLinux);
    MergedTextIsComplete(y, userData, OSLinux);
    UpHasNoHints();
    var once := MergeDoc(UP_DOC, OSLinux);
    var out := Merge(y, userData, OSLinux).value.text;
    assert out == Ascii(HEADER) + [10] + y.render(once);
    assert out[|HEADER| + 1..] == y.render(once);
    var again := Ascii(HEADER) + [10] + y.render(MergeDoc(UP_TRIMMED, OSLinux));
    assert again[|HEADER| + 1..] == y.render(MergeDoc(UP_TRIMMED, OSLinux));
    hide MergeDoc, Body, LooksRaw, StripHints, ParseCloudConfig, Merge, IsManaged;
  }

  lemma WindowsScriptIsWritten(doc: Doc)
    requires !HasFile(doc.writeFiles, WINDOWS_SCRIPT_PATH)
    ensures HasWindowsScript(StripHints(MergeDoc(doc, OSWindows)))
  {
    hide HasFile, HasCommand;
    var files := MergeDoc(doc, OSWindows).writeFiles;
    assert files[|files| - 1] == FileEntry(WINDOWS_SCRIPT_PATH, "0644", WindowsScript(RawString(doc, HINT_KEY)));
    assert IsWindowsScript(files[|files| - 1]);
  }

  /** A document into which the program has written its Windows script. */
  predicate HasWindowsScript(doc: Doc) {
    exists i :: 0 <= i < |doc.writeFiles| && IsWindowsScript(doc.writeFiles[i])
  }

  predicate IsWindowsScript(file: Object) {
    match Lookup(file, "content")
    case Some(Str(s)) => "winrm " <= s
    case _ => false
  }
}
