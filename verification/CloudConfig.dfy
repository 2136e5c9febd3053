/** The cloud-init document merge (internal/cloudinitmerge/merge.go) on parsed documents. */
module CloudConfig {
  import opened Wrappers
  import opened GoStrings
  import opened Commands

  /** A YAML value; a mapping lists its entries in key order, and a scalar that is not a string
      carries the text `%v` prints for it. */
  datatype Value = Str(s: string) | List(items: seq<Value>) | Mapping(entries: Object) | Scalar(text: string)

  type Object = seq<(string, Value)>

  datatype Doc = Doc(
    packageUpdate: Option<Value>,
    packages: seq<Value>,
    writeFiles: seq<Object>,
    runCmd: seq<Value>,
    bootCmd: seq<Value>,
    raw: map<string, Value>)

  datatype OSType = OSLinux | OSWindows | OtherOS

  const HINT_USER := "observability_ssh_user"
  const HINT_KEY := "observability_ssh_public_key"
  const RAW_USERDATA := "raw_userdata"
  const USERS := "users"
  const DISABLE_ROOT := "disable_root"

  const LINUX_SERVICE := "vm-linux-monitoring-service"
  const LINUX_SCRIPT_PATH := "/usr/local/bin/bootstrap-kubevirt-observability.sh"
  const LINUX_UNIT_PATH := "/etc/systemd/system/" + LINUX_SERVICE + ".service"
  const WINDOWS_SCRIPT_PATH := "C:\\ProgramData\\KubeVirtObservability\\bootstrap-kubevirt-observability.ps1"
  const RELOAD_COMMAND := "systemctl daemon-reload"
  const ENABLE_COMMAND := "systemctl enable --now " + LINUX_SERVICE
  const WINDOWS_COMMAND := "powershell.exe -ExecutionPolicy Bypass -File " + WINDOWS_SCRIPT_PATH

  /** The embedded scripts; their text plays no part beyond the `winrm ` of the Windows one. */
  const LINUX_SCRIPT := "linux bootstrap script"
  const LINUX_UNIT := "linux systemd unit"

  function WindowsScript(pubKey: string): string {
    "winrm set " + if pubKey == "" then "ssh-rsa placeholder" else pubKey
  }

  function Lookup(o: Object, key: string): Option<Value> {
    if o == [] then None
    else if o[0].0 == key then Some(o[0].1)
    else Lookup(o[1..], key)
  }

  /** What `%v` prints. */
  function Show(v: Value): string {
    match v
    case Str(s) => s
    case Scalar(t) => t
    case List(items) => "[" + ShowItems(items) + "]"
    case Mapping(entries) => "map[" + ShowEntries(entries) + "]"
  }

  function ShowItems(items: seq<Value>): string {
    if items == [] then ""
    else if |items| == 1 then Show(items[0])
    else Show(items[0]) + " " + ShowItems(items[1..])
  }

  function ShowEntries(entries: Object): string {
    if entries == [] then ""
    else
      var first := ShowEntry(entries[0]);
      if |entries| == 1 then first else first + " " + ShowEntries(entries[1..])
  }

  function ShowEntry(entry: (string, Value)): string {
    entry.0 + ":" + Show(entry.1)
  }

  predicate IsFileAt(file: Object, path: string) {
    match Lookup(file, "path")
    case Some(Str(s)) => EqualFold(s, path)
    case _ => false
  }

  predicate IsCommand(entry: Value, wanted: string) {
    match entry
    case Str(s) => NormalizeCommand(s) == NormalizeCommand(wanted)
    case List(items) => NormalizeCommand(ShowItems(items)) == NormalizeCommand(wanted)
    case _ => false
  }

  predicate IsUserNamed(entry: Value, name: string) {
    entry.Mapping? && Lookup(entry.entries, "name") == Some(Str(name))
  }

  predicate HasFile(files: seq<Object>, path: string) {
    exists i :: 0 <= i < |files| && IsFileAt(files[i], path)
  }

  predicate HasCommand(cmds: seq<Value>, wanted: string) {
    exists i :: 0 <= i < |cmds| && IsCommand(cmds[i], wanted)
  }

  predicate HasUser(users: seq<Value>, name: string) {
    exists i :: 0 <= i < |users| && IsUserNamed(users[i], name)
  }

  method HasWriteFile(files: seq<Object>, path: string) returns (found: bool)
    ensures found <==> HasFile(files, path)
  {
    for i := 0 to |files|
      invariant forall j :: 0 <= j < i ==> !IsFileAt(files[j], path)
    {
      var v := Lookup(files[i], "path");
      if v.Some? && v.value.Str? && EqualFold(v.value.s, path) {
        assert IsFileAt(files[i], path);
        return true;
      }
    }
    return false;
  }

  method HasRunCmd(cmds: seq<Value>, wanted: string) returns (found: bool)
    ensures found <==> HasCommand(cmds, wanted)
  {
    var normWanted := NormalizeCommand(wanted);
    for i := 0 to |cmds|
      invariant forall j :: 0 <= j < i ==> !IsCommand(cmds[j], wanted)
    {
      match cmds[i] {
        case Str(s) =>
          if NormalizeCommand(s) == normWanted {
            assert IsCommand(cmds[i], wanted);
            return true;
          }
        case List(items) =>
          var parts: seq<string> := [];
          for k := 0 to |items|
            invariant |parts| == k && forall m :: 0 <= m < k ==> parts[m] == Show(items[m])
          {
            parts := parts + [Show(items[k])];
          }
          JoinShows(items, parts);
          if NormalizeCommand(Join(parts, " ")) == normWanted {
            assert IsCommand(cmds[i], wanted);
            return true;
          }
        case _ =>
      }
    }
    return false;
  }

  lemma {:induction false} JoinShows(items: seq<Value>, parts: seq<string>)
    requires |parts| == |items| && forall m :: 0 <= m < |items| ==> parts[m] == Show(items[m])
    ensures Join(parts, " ") == ShowItems(items)
  {
    if |items| > 1 { JoinShows(items[1..], parts[1..]); }
  }

  // ---------------------------------------------------------------- the merge

  function Shows(items: seq<Value>): seq<string> {
    if items == [] then [] else [Show(items[0])] + Shows(items[1..])
  }

  /** An argv entry counts as the command exactly when its items, split at white space, are the
      command's words: string and argv entries are recognised alike. */
  lemma ArgvRecognised(items: seq<Value>, wanted: string)
    ensures IsCommand(List(items), wanted) <==> AllFields(Shows(items)) == Fields(wanted)
  {
    ShowsAt(items);
    JoinShows(items, Shows(items));
    ArgvMatchesLikeString(Shows(items), wanted);
  }

  function Strings(words: seq<string>): seq<Value> {
    if words == [] then [] else [Str(words[0])] + Strings(words[1..])
  }

  /** An argv entry of strings counts as the command exactly when they are the command's words. */
  lemma {:induction false} ArgvOfWords(words: seq<string>, wanted: string)
    requires AllWords(words)
    ensures IsCommand(List(Strings(words)), wanted) <==> words == Fields(wanted)
  {
    ArgvRecognised(Strings(words), wanted);
    ShowsOfStrings(words);
    AllFieldsOfWords(words);
  }

  lemma {:induction false} ShowsOfStrings(words: seq<string>)
    ensures Shows(Strings(words)) == words
  {
    if words != [] {
      ShowsOfStrings(words[1..]);
      assert Strings(words)[1..] == Strings(words[1..]);
    }
  }

  /** Neither the spaces between its words nor those around a string entry matter. */
  lemma StringRecognised(s: string, wanted: string)
    ensures IsCommand(Str(s), wanted) <==> Fields(s) == Fields(wanted)
  {
    MatchIffSameWords(s, wanted);
  }

  lemma {:induction false} ShowsAt(items: seq<Value>)
    ensures |Shows(items)| == |items| && forall m :: 0 <= m < |items| ==> Shows(items)[m] == Show(items[m])
  {
    if items != [] { ShowsAt(items[1..]); }
  }

  function FileEntry(path: string, permissions: string, content: string): Object {
    [("content", Str(content)), ("path", Str(path)), ("permissions", Str(permissions))]
  }

  function WithFile(doc: Doc, path: string, permissions: string, content: string): Doc {
    if HasFile(doc.writeFiles, path) then doc
    else doc.(writeFiles := doc.writeFiles + [FileEntry(path, permissions, content)])
  }

  function WithCommand(doc: Doc, cmd: string): Doc {
    if HasCommand(doc.runCmd, cmd) then doc else doc.(runCmd := doc.runCmd + [Str(cmd)])
  }

  /** A string stored under a name of the unstructured part; empty when there is none. */
  function RawString(doc: Doc, key: string): string {
    if key in doc.raw && doc.raw[key].Str? then doc.raw[key].s else ""
  }

  function Users(doc: Doc): seq<Value> {
    if USERS in doc.raw && doc.raw[USERS].List? then doc.raw[USERS].items else []
  }

  function UserEntry(user: string, pubKey: string): Value {
    var keys := ("ssh_authorized_keys", List([Str(pubKey)]));
    if user == "root" then Mapping([("name", Str(user)), keys])
    else Mapping([("name", Str(user)), ("shell", Str("/bin/bash")), keys, ("sudo", Str("ALL=(ALL) NOPASSWD:ALL"))])
  }

  /** The user the hints ask for, if they are complete and the user is not there yet. */
  predicate UserMissing(doc: Doc) {
    && RawString(doc, HINT_USER) != "" && RawString(doc, HINT_KEY) != ""
    && !HasUser(Users(doc), RawString(doc, HINT_USER))
  }

  function WithUser(doc: Doc): Doc {
    if !UserMissing(doc) then doc
    else
      var user := RawString(doc, HINT_USER);
      var raw := if user == "root" then doc.raw[DISABLE_ROOT := Scalar("false")] else doc.raw;
      doc.(raw := raw[USERS := List(Users(doc) + [UserEntry(user, RawString(doc, HINT_KEY))])])
  }

  function MergeLinux(doc: Doc): Doc {
    WithCommand(WithCommand(
      WithFile(WithFile(WithUser(doc), LINUX_SCRIPT_PATH, "0755", LINUX_SCRIPT), LINUX_UNIT_PATH, "0644", LINUX_UNIT),
      RELOAD_COMMAND), ENABLE_COMMAND)
  }

  function MergeWindows(doc: Doc): Doc {
    WithCommand(WithFile(doc, WINDOWS_SCRIPT_PATH, "0644", WindowsScript(RawString(doc, HINT_KEY))), WINDOWS_COMMAND)
  }

  function MergeDoc(doc: Doc, os: OSType): Doc {
    if os == OSLinux then MergeLinux(doc) else if os == OSWindows then MergeWindows(doc) else doc
  }

  /** What rendering leaves out. */
  function StripHints(doc: Doc): Doc {
    doc.(raw := doc.raw - {HINT_USER, HINT_KEY})
  }

  /** The document while it is being merged. */
  class Config {
    var packageUpdate: Option<Value>
    var packages: seq<Value>
    var writeFiles: seq<Object>
    var runCmd: seq<Value>
    var bootCmd: seq<Value>
    var raw: map<string, Value>

    function Content(): Doc
      reads this
    {
      Doc(packageUpdate, packages, writeFiles, runCmd, bootCmd, raw)
    }

    constructor (doc: Doc)
      ensures Content() == doc
    {
      packageUpdate, packages, writeFiles := doc.packageUpdate, doc.packages, doc.writeFiles;
      runCmd, bootCmd, raw := doc.runCmd, doc.bootCmd, doc.raw;
    }

    method EnsureFile(path: string, permissions: string, content: string) returns (changed: bool)
      modifies this`writeFiles
      ensures Content() == WithFile(old(Content()), path, permissions, content)
      ensures changed <==> Content() != old(Content())
    {
      var found := HasWriteFile(writeFiles, path);
      if !found {
        writeFiles := writeFiles + [FileEntry(path, permissions, content)];
        assert |writeFiles| == |old(writeFiles)| + 1;
      }
      return !found;
    }

    method EnsureCommand(cmd: string) returns (changed: bool)
      modifies this`runCmd
      ensures Content() == WithCommand(old(Content()), cmd)
      ensures changed <==> Content() != old(Content())
    {
      var found := HasRunCmd(runCmd, cmd);
      if !found {
        runCmd := runCmd + [Str(cmd)];
        assert |runCmd| == |old(runCmd)| + 1;
      }
      return !found;
    }

    /** `ensureLinuxSSH`. */
    method EnsureLinuxSSH() returns (changed: bool)
      modifies this`raw
      ensures Content() == WithUser(old(Content()))
      ensures changed <==> Content() != old(Content())
    {
      var user, pubKey := RawString(Content(), HINT_USER), RawString(Content(), HINT_KEY);
      if user == "" || pubKey == "" {
        return false;
      }
      var users := Users(Content());
      for i := 0 to |users|
        invariant Content() == old(Content())
        invariant forall j :: 0 <= j < i ==> !IsUserNamed(users[j], user)
      {
        if users[i].Mapping? && Lookup(users[i].entries, "name") == Some(Str(user)) {
          assert IsUserNamed(users[i], user);
          return false;
        }
      }
      if user == "root" {
        raw := raw[DISABLE_ROOT := Scalar("false")];
      }
      users := users + [UserEntry(user, pubKey)];
      raw := raw[USERS := List(users)];
      assert |Users(Content())| == |Users(old(Content()))| + 1;
      return true;
    }

    /** `ensureLinuxWriteFiles` and `ensureLinuxRunCmd`. */
    method EnsureLinux() returns (changed: bool)
      modifies this
      ensures Content() == MergeLinux(old(Content()))
      ensures changed <==> Content() != old(Content())
    {
      hide WithUser, WithFile, WithCommand, Size;
      ghost var d0 := Content();
      changed := EnsureLinuxSSH();
      ghost var d1 := Content();
      UserGrows(d0);
      var c := EnsureFile(LINUX_SCRIPT_PATH, "0755", LINUX_SCRIPT);
      changed := changed || c;
      ghost var d2 := Content();
      FileGrows(d1, LINUX_SCRIPT_PATH, "0755", LINUX_SCRIPT);
      c := EnsureFile(LINUX_UNIT_PATH, "0644", LINUX_UNIT);
      changed := changed || c;
      ghost var d3 := Content();
      FileGrows(d2, LINUX_UNIT_PATH, "0644", LINUX_UNIT);
      c := EnsureCommand(RELOAD_COMMAND);
      changed := changed || c;
      ghost var d4 := Content();
      CommandGrows(d3, RELOAD_COMMAND);
      c := EnsureCommand(ENABLE_COMMAND);
      changed := changed || c;
      CommandGrows(d4, ENABLE_COMMAND);
    }

    /** `ensureWindowsWriteFiles` and `ensureWindowsRunCmd`. */
    method EnsureWindows() returns (changed: bool)
      modifies this
      ensures Content() == MergeWindows(old(Content()))
      ensures changed <==> Content() != old(Content())
    {
      hide WithFile, WithCommand, Size;
      ghost var d0 := Content();
      var pubKey := RawString(Content(), HINT_KEY);
      changed := EnsureFile(WINDOWS_SCRIPT_PATH, "0644", WindowsScript(pubKey));
      ghost var d1 := Content();
      FileGrows(d0, WINDOWS_SCRIPT_PATH, "0644", WindowsScript(pubKey));
      var c := EnsureCommand(WINDOWS_COMMAND);
      changed := changed || c;
      CommandGrows(d1, WINDOWS_COMMAND);
    }
  }

  /** The merge only ever adds entries. */
  function Size(doc: Doc): nat {
    |doc.writeFiles| + |doc.runCmd| + |Users(doc)|
  }

  lemma UserGrows(doc: Doc)
    ensures WithUser(doc) == doc || Size(WithUser(doc)) > Size(doc)
  {
  }

  lemma FileGrows(doc: Doc, path: string, permissions: string, content: string)
    ensures WithFile(doc, path, permissions, content) == doc || Size(WithFile(doc, path, permissions, content)) > Size(doc)
  {
  }

  lemma CommandGrows(doc: Doc, cmd: string)
    ensures WithCommand(doc, cmd) == doc || Size(WithCommand(doc, cmd)) > Size(doc)
  {
  }

  /** The merge of a whole document, by the methods above. */
  method MergeConfig(doc: Doc, os: OSType) returns (merged: Doc, changed: bool)
    requires os != OtherOS
    ensures merged == StripHints(MergeDoc(doc, os))
    ensures changed <==> merged != StripHints(doc)
  {
    var cfg := new Config(doc);
    if os == OSLinux {
      changed := cfg.EnsureLinux();
    } else {
      changed := cfg.EnsureWindows();
    }
    cfg.raw := cfg.raw - {HINT_USER, HINT_KEY};
    merged := cfg.Content();
    HintsSurvive(doc, os);
  }

  /** Merging leaves the hints alone, so a change is a change apart from them. */
  lemma HintsSurvive(doc: Doc, os: OSType)
    ensures SameHints(MergeDoc(doc, os), doc)
    ensures MergeDoc(doc, os) == doc <==> StripHints(MergeDoc(doc, os)) == StripHints(doc)
  {
    UserKeepsHints(doc);
    MergedRaw(doc, os);
    StrippingTellsApart(MergeDoc(doc, os), doc);
    hide MergeDoc, WithUser, StripHints;
  }

  lemma MergedRaw(doc: Doc, os: OSType)
    ensures MergeDoc(doc, os).raw == if os == OSLinux then WithUser(doc).raw else doc.raw
  {
    hide HasFile, HasCommand, WithUser;
  }

  /** Documents with the same hints differ exactly when they differ without them. */
  lemma StrippingTellsApart(a: Doc, b: Doc)
    requires SameHints(a, b)
    ensures a == b <==> StripHints(a) == StripHints(b)
  {
    var names := {HINT_USER, HINT_KEY};
    if a.raw - names == b.raw - names {
      forall k | k !in names ensures (k in a.raw <==> k in b.raw) && (k in a.raw ==> a.raw[k] == b.raw[k]) {
        assert k in a.raw <==> k in a.raw - names;
        assert k in b.raw <==> k in b.raw - names;
      }
      assert a.raw == b.raw;
    }
  }

  predicate SameHints(a: Doc, b: Doc) {
    && (HINT_USER in a.raw <==> HINT_USER in b.raw) && (HINT_USER in a.raw ==> a.raw[HINT_USER] == b.raw[HINT_USER])
    && (HINT_KEY in a.raw <==> HINT_KEY in b.raw) && (HINT_KEY in a.raw ==> a.raw[HINT_KEY] == b.raw[HINT_KEY])
  }

  lemma UserKeepsHints(doc: Doc)
    ensures SameHints(WithUser(doc), doc)
  {
    assert |USERS| < |DISABLE_ROOT| < |HINT_USER| < |HINT_KEY|;
  }
}
