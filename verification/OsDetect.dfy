/** The OS family of a VM as the controller sees it (internal/osdetect) and as `kvoctl onboard`
    sees it (normalizeOS in pkg/onboarding). */
module OsDetect {
  import opened GoStrings

  datatype Family = Linux | Windows | Unknown

  type Labels = map<string, string>

  const OS_LABEL := "kubevirt.io/os"

  function OsLabel(labels: Labels): string {
    if OS_LABEL in labels then labels[OS_LABEL] else ""
  }

  predicate NamesLinux(v: string) {
    || Contains(v, "linux") || Contains(v, "ubuntu") || Contains(v, "debian") || Contains(v, "rhel")
    || Contains(v, "centos") || Contains(v, "rocky") || Contains(v, "alma") || Contains(v, "oel")
    || Contains(v, "fedora")
  }

  function FamilyOfLabel(text: string): Family {
    var v := ToLower(text);
    if Contains(v, "win") then Windows
    else if NamesLinux(v) then Linux
    else Unknown
  }

  function Detect(labels: Labels): Family {
    FamilyOfLabel(OsLabel(labels))
  }

  /** `normalizeOS`; Unknown stands for its empty result. */
  function NormalizeOS(raw: string): Family {
    var v := ToLower(TrimSpace(raw));
    if Contains(v, "win") then Windows
    else if NamesLinux(v) || v == "ol" || Contains(v, "oracle") then Linux
    else Unknown
  }

  /** A character that the word does not start with can be put in front of a text. */
  lemma ContainsInFront(c: char, s: string, word: string)
    requires word != "" && word[0] != c
    ensures Contains([c] + s, word) <==> Contains(s, word)
  {
    var t := [c] + s;
    if i :| 0 <= i <= |t| && OccursAt(t, word, i) {
      assert t[i..i + |word|][0] == t[i];
      assert t[i..i + |word|] == s[i - 1..i - 1 + |word|];
      assert OccursAt(s, word, i - 1);
    }
    if i :| 0 <= i <= |s| && OccursAt(s, word, i) {
      assert t[i + 1..i + 1 + |word|] == s[i..i + |word|];
      assert OccursAt(t, word, i + 1);
    }
  }

  lemma ContainsAtEnd(s: string, c: char, word: string)
    requires word != "" && word[|word| - 1] != c
    ensures Contains(s + [c], word) <==> Contains(s, word)
  {
    var t := s + [c];
    if i :| 0 <= i <= |t| && OccursAt(t, word, i) {
      assert t[i..i + |word|][|word| - 1] == t[i + |word| - 1];
      assert t[i..i + |word|] == s[i..i + |word|];
      assert OccursAt(s, word, i);
    }
    if i :| 0 <= i <= |s| && OccursAt(s, word, i) {
      assert t[i..i + |word|] == s[i..i + |word|];
      assert OccursAt(t, word, i);
    }
  }

  lemma {:induction false} ContainsIgnoresLeftTrim(s: string, word: string)
    requires IsWord(word)
    ensures Contains(ToLower(TrimLeft(s)), word) <==> Contains(ToLower(s), word)
  {
    hide Contains;
    if s != "" && IsSpace(s[0]) {
      ContainsIgnoresLeftTrim(s[1..], word);
      assert IsSpace(LowerChar(s[0]));
      assert ToLower(s) == [LowerChar(s[0])] + ToLower(s[1..]);
      ContainsInFront(LowerChar(s[0]), ToLower(s[1..]), word);
    }
  }

  lemma {:induction false} ContainsIgnoresRightTrim(s: string, word: string)
    requires IsWord(word)
    ensures Contains(ToLower(TrimRight(s)), word) <==> Contains(ToLower(s), word)
  {
    hide Contains;
    if s != "" && IsSpace(s[|s| - 1]) {
      var t, c := s[..|s| - 1], s[|s| - 1];
      ContainsIgnoresRightTrim(t, word);
      assert IsSpace(LowerChar(c));
      assert ToLower(s) == ToLower(t) + [LowerChar(c)];
      ContainsAtEnd(ToLower(t), LowerChar(c), word);
    }
  }

  lemma TrimKeepsWord(s: string, word: string)
    requires IsWord(word)
    ensures Contains(ToLower(TrimSpace(s)), word) <==> Contains(ToLower(s), word)
  {
    ContainsIgnoresLeftTrim(s, word);
    ContainsIgnoresRightTrim(TrimLeft(s), word);
  }

  /** The two readers differ on exactly the labels the controller does not know but kvoctl takes
      for Oracle Linux. */
  lemma ReadersDifferOnOracle(text: string)
    ensures var v := ToLower(TrimSpace(text));
            NormalizeOS(text) != FamilyOfLabel(text)
            <==> FamilyOfLabel(text) == Unknown && (v == "ol" || Contains(v, "oracle"))
    ensures NormalizeOS(text) != FamilyOfLabel(text) ==> NormalizeOS(text) == Linux
  {
    TrimKeepsWord(text, "win");
    TrimKeepsWord(text, "linux");
    TrimKeepsWord(text, "ubuntu");
    TrimKeepsWord(text, "debian");
    TrimKeepsWord(text, "rhel");
    TrimKeepsWord(text, "centos");
    TrimKeepsWord(text, "rocky");
    TrimKeepsWord(text, "alma");
    TrimKeepsWord(text, "oel");
    TrimKeepsWord(text, "fedora");
  }

  const LINUX_WORDS: seq<string> := ["linux", "ubuntu", "debian", "rhel", "centos", "rocky", "alma", "oel", "fedora"]

  /** A VM is taken for Windows if its label holds `win` in any case, and otherwise for Linux exactly if the
      label holds one of nine words. */
  lemma FamilyIff(labels: Labels)
    ensures var text := if "kubevirt.io/os" in labels then labels["kubevirt.io/os"] else "";
            && (Detect(labels) == Windows <==> Contains(ToLower(text), "win"))
            && (Detect(labels) == Linux
                <==> !Contains(ToLower(text), "win") && exists i :: 0 <= i < 9 && Contains(ToLower(text), LINUX_WORDS[i]))
  {
    var v := ToLower(OsLabel(labels));
    hide Contains, ToLower;
    if NamesLinux(v) {
      assert Contains(v, LINUX_WORDS[0]) || Contains(v, LINUX_WORDS[1]) || Contains(v, LINUX_WORDS[2]) || Contains(v, LINUX_WORDS[3])
             || Contains(v, LINUX_WORDS[4]) || Contains(v, LINUX_WORDS[5]) || Contains(v, LINUX_WORDS[6]) || Contains(v, LINUX_WORDS[7])
             || Contains(v, LINUX_WORDS[8]);
    }
  }

  /** The labels kvoctl itself writes are known to the controller. */
  lemma WrittenLabelsAreKnown()
    ensures FamilyOfLabel("linux") == Linux
    ensures FamilyOfLabel("windows") == Windows
    ensures FamilyOfLabel("") == Unknown
  {
    assert ToLower("linux") == "linux" && ToLower("windows") == "windows" && ToLower("") == "";
    assert OccursAt("linux", "linux", 0) by { assert "linux"[0..5] == "linux"; }
    assert OccursAt("windows", "win", 0) by { assert "windows"[0..3] == "win"; }
    assert forall i :: !OccursAt("linux", "win", i) by {
      forall i ensures !OccursAt("linux", "win", i) {
        if 0 <= i <= 2 { assert "linux"[i..i + 3][0] != 'w'; }
      }
    }
  }

  /** A VM labelled `ol` is Linux to kvoctl and unknown to the controller. */
  lemma OracleLabelExample()
    ensures NormalizeOS("ol") == Linux && FamilyOfLabel("ol") == Unknown
  {
    assert TrimSpace("ol") == "ol" && ToLower("ol") == "ol";
    assert forall w: string, i :: |w| > 2 ==> !OccursAt("ol", w, i);
  }
}
