/** What the document merge does to a user's document, for both operating systems. */
module CloudConfigFacts {
  import opened Wrappers
  import opened GoStrings
  import opened Commands
  import opened CloudConfig

  // ---------------------------------------------------------------- present afterwards

  lemma FileEntryIsThere(path: string, permissions: string, content: string)
    ensures IsFileAt(FileEntry(path, permissions, content), path)
  {
    var e := FileEntry(path, permissions, content);
    assert |"content"| != |"path"|;
    assert Lookup(e[1..], "path") == Some(Str(path));
  }

  lemma WithFileHas(doc: Doc, path: string, permissions: string, content: string)
    ensures HasFile(WithFile(doc, path, permissions, content).writeFiles, path)
  {
    FileEntryIsThere(path, permissions, content);
    var files := WithFile(doc, path, permissions, content).writeFiles;
    if !HasFile(doc.writeFiles, path) { assert IsFileAt(files[|files| - 1], path); }
  }

  lemma WithCommandHas(doc: Doc, cmd: string)
    ensures HasCommand(WithCommand(doc, cmd).runCmd, cmd)
  {
    var cmds := WithCommand(doc, cmd).runCmd;
    if !HasCommand(doc.runCmd, cmd) { assert IsCommand(cmds[|cmds| - 1], cmd); }
  }

  lemma FileStays(files: seq<Object>, more: seq<Object>, path: string)
    requires HasFile(files, path) && files <= more
    ensures HasFile(more, path)
  {
    var i :| 0 <= i < |files| && IsFileAt(files[i], path);
    assert IsFileAt(more[i], path);
  }

  lemma CommandStays(cmds: seq<Value>, more: seq<Value>, cmd: string)
    requires HasCommand(cmds, cmd) && cmds <= more
    ensures HasCommand(more, cmd)
  {
    var i :| 0 <= i < |cmds| && IsCommand(cmds[i], cmd);
    assert IsCommand(more[i], cmd);
  }

  /** Everything the program manages is in the document. */
  predicate Complete(doc: Doc, os: OSType) {
    match os
    case OSLinux =>
      && HasFile(doc.writeFiles, LINUX_SCRIPT_PATH) && HasFile(doc.writeFiles, LINUX_UNIT_PATH)
      && HasCommand(doc.runCmd, RELOAD_COMMAND) && HasCommand(doc.runCmd, ENABLE_COMMAND)
    case OSWindows => HasFile(doc.writeFiles, WINDOWS_SCRIPT_PATH) && HasCommand(doc.runCmd, WINDOWS_COMMAND)
    case OtherOS => true
  }

  lemma MergedIsComplete(doc: Doc, os: OSType)
    ensures Complete(MergeDoc(doc, os), os)
  {
    hide WithUser, HasFile, HasCommand;
    match os {
      case OSLinux =>
        var d1 := WithUser(doc);
        var d2 := WithFile(d1, LINUX_SCRIPT_PATH, "0755", LINUX_SCRIPT);
        var d3 := WithFile(d2, LINUX_UNIT_PATH, "0644", LINUX_UNIT);
        var d4 := WithCommand(d3, RELOAD_COMMAND);
        WithFileHas(d1, LINUX_SCRIPT_PATH, "0755", LINUX_SCRIPT);
        WithFileHas(d2, LINUX_UNIT_PATH, "0644", LINUX_UNIT);
        WithCommandHas(d3, RELOAD_COMMAND);
        WithCommandHas(d4, ENABLE_COMMAND);
        FileStays(d2.writeFiles, d3.writeFiles, LINUX_SCRIPT_PATH);
        CommandStays(d4.runCmd, WithCommand(d4, ENABLE_COMMAND).runCmd, RELOAD_COMMAND);
      case OSWindows =>
        var d1 := WithFile(doc, WINDOWS_SCRIPT_PATH, "0644", WindowsScript(RawString(doc, HINT_KEY)));
        WithFileHas(doc, WINDOWS_SCRIPT_PATH, "0644", WindowsScript(RawString(doc, HINT_KEY)));
        WithCommandHas(d1, WINDOWS_COMMAND);
      case OtherOS =>
    }
  }

  predicate HintFree(doc: Doc) {
    HINT_USER !in doc.raw && HINT_KEY !in doc.raw
  }

  /** A complete document without hints is left exactly as it is. */
  lemma CompleteIsFixed(doc: Doc, os: OSType)
    requires Complete(doc, os) && HintFree(doc)
    ensures MergeDoc(doc, os) == doc
  {
    hide HasFile, HasCommand;
  }

  /** Merging twice, with the hints stripped in between as rendering does, is merging once. */
  lemma MergeTwice(doc: Doc, os: OSType)
    ensures var once := StripHints(MergeDoc(doc, os));
            MergeDoc(once, os) == once && StripHints(once) == once
  {
    var merged := MergeDoc(doc, os);
    MergedIsComplete(doc, os);
    var once := StripHints(merged);
    assert once.writeFiles == merged.writeFiles && once.runCmd == merged.runCmd && HintFree(once);
    hide MergeDoc, HasFile, HasCommand;
    CompleteIsFixed(once, os);
    assert once.raw - {HINT_USER, HINT_KEY} == once.raw;
  }

  // ---------------------------------------------------------------- nothing lost or moved

  lemma UserKeepsLists(doc: Doc)
    ensures var d := WithUser(doc);
            && d.writeFiles == doc.writeFiles && d.runCmd == doc.runCmd
            && d.packageUpdate == doc.packageUpdate && d.packages == doc.packages && d.bootCmd == doc.bootCmd
  {
  }

  lemma ListsOnlyGrow(doc: Doc, os: OSType)
    ensures var m := MergeDoc(doc, os);
            && doc.writeFiles <= m.writeFiles && doc.runCmd <= m.runCmd
            && m.packageUpdate == doc.packageUpdate && m.packages == doc.packages && m.bootCmd == doc.bootCmd
            && m.raw == if os == OSLinux then WithUser(doc).raw else doc.raw
  {
    hide HasFile, HasCommand, WithUser, FileEntry;
    UserKeepsLists(doc);
    MergedRaw(doc, os);
  }

  /** What was there stays, in place and in order: the lists only grow at the end, and of the
      unstructured part only `users` and `disable_root` can change, the latter only for root.
      A `users` entry that is not a list gives way to one. */
  lemma NothingLost(doc: Doc, os: OSType)
    ensures var m := MergeDoc(doc, os);
            && doc.writeFiles <= m.writeFiles && doc.runCmd <= m.runCmd && Users(doc) <= Users(m)
            && m.packageUpdate == doc.packageUpdate && m.packages == doc.packages && m.bootCmd == doc.bootCmd
            && (forall k :: k != USERS && k != DISABLE_ROOT ==>
                  (k in m.raw <==> k in doc.raw) && (k in m.raw ==> m.raw[k] == doc.raw[k]))
            && (RawString(doc, HINT_USER) != "root" ==>
                  (DISABLE_ROOT in m.raw <==> DISABLE_ROOT in doc.raw)
                  && (DISABLE_ROOT in m.raw ==> m.raw[DISABLE_ROOT] == doc.raw[DISABLE_ROOT]))
  {
    ListsOnlyGrow(doc, os);
    hide MergeDoc, HasUser;
    assert |USERS| != |DISABLE_ROOT|;
  }

  // ---------------------------------------------------------------- how often

  function CountFiles(files: seq<Object>, path: string): nat {
    if files == [] then 0 else (if IsFileAt(files[0], path) then 1 else 0) + CountFiles(files[1..], path)
  }

  function CountCommands(cmds: seq<Value>, cmd: string): nat {
    if cmds == [] then 0 else (if IsCommand(cmds[0], cmd) then 1 else 0) + CountCommands(cmds[1..], cmd)
  }

  function CountUsers(users: seq<Value>, name: string): nat {
    if users == [] then 0 else (if IsUserNamed(users[0], name) then 1 else 0) + CountUsers(users[1..], name)
  }

  lemma {:induction false} CountFilesAppend(files: seq<Object>, file: Object, path: string)
    ensures CountFiles(files + [file], path) == CountFiles(files, path) + (if IsFileAt(file, path) then 1 else 0)
    ensures CountFiles(files, path) > 0 <==> HasFile(files, path)
  {
    if files == [] {
      assert files + [file] == [file];
    } else {
      assert (files + [file])[1..] == files[1..] + [file];
      CountFilesAppend(files[1..], file, path);
      if HasFile(files[1..], path) { FileStaysAtEnd(files, path); }
      if i :| 0 <= i < |files| && IsFileAt(files[i], path) && i > 0 { assert IsFileAt(files[1..][i - 1], path); }
    }
  }

  lemma FileStaysAtEnd(files: seq<Object>, path: string)
    requires files != [] && HasFile(files[1..], path)
    ensures HasFile(files, path)
  {
    var i :| 0 <= i < |files[1..]| && IsFileAt(files[1..][i], path);
    assert IsFileAt(files[i + 1], path);
  }

  lemma {:induction false} CountCommandsAppend(cmds: seq<Value>, entry: Value, cmd: string)
    ensures CountCommands(cmds + [entry], cmd) == CountCommands(cmds, cmd) + (if IsCommand(entry, cmd) then 1 else 0)
    ensures CountCommands(cmds, cmd) > 0 <==> HasCommand(cmds, cmd)
  {
    if cmds == [] {
      assert cmds + [entry] == [entry];
    } else {
      assert (cmds + [entry])[1..] == cmds[1..] + [entry];
      CountCommandsAppend(cmds[1..], entry, cmd);
      if i :| 0 <= i < |cmds[1..]| && IsCommand(cmds[1..][i], cmd) { assert IsCommand(cmds[i + 1], cmd); }
      if i :| 0 <= i < |cmds| && IsCommand(cmds[i], cmd) && i > 0 { assert IsCommand(cmds[1..][i - 1], cmd); }
    }
  }

  lemma {:induction false} CountUsersAppend(users: seq<Value>, entry: Value, name: string)
    ensures CountUsers(users + [entry], name) == CountUsers(users, name) + (if IsUserNamed(entry, name) then 1 else 0)
    ensures CountUsers(users, name) > 0 <==> HasUser(users, name)
  {
    if users == [] {
      assert users + [entry] == [entry];
    } else {
      assert (users + [entry])[1..] == users[1..] + [entry];
      CountUsersAppend(users[1..], entry, name);
      if i :| 0 <= i < |users[1..]| && IsUserNamed(users[1..][i], name) { assert IsUserNamed(users[i + 1], name); }
      if i :| 0 <= i < |users| && IsUserNamed(users[i], name) && i > 0 { assert IsUserNamed(users[1..][i - 1], name); }
    }
  }

  function AtLeastOne(n: nat): nat {
    if n == 0 then 1 else n
  }

  lemma ManagedPathsDiffer(permissions: string, content: string)
    ensures !IsFileAt(FileEntry(LINUX_UNIT_PATH, permissions, content), LINUX_SCRIPT_PATH)
    ensures !IsFileAt(FileEntry(LINUX_SCRIPT_PATH, permissions, content), LINUX_UNIT_PATH)
  {
    assert |LINUX_UNIT_PATH| != |LINUX_SCRIPT_PATH|;
    assert |"content"| != |"path"|;
    assert Lookup(FileEntry(LINUX_UNIT_PATH, permissions, content)[1..], "path") == Some(Str(LINUX_UNIT_PATH));
    assert Lookup(FileEntry(LINUX_SCRIPT_PATH, permissions, content)[1..], "path") == Some(Str(LINUX_SCRIPT_PATH));
  }

  lemma FirstTwoWords(first: string, second: string, rest: string)
    requires IsWord(first) && IsWord(second)
    ensures Fields(first + [' '] + (second + [' '] + rest)) == [first, second] + Fields(rest)
    ensures Fields(first + [' '] + second) == [first, second]
  {
    hide Fields;
    FieldsSplitAtSpace(first, ' ', second + [' '] + rest);
    FieldsSplitAtSpace(second, ' ', rest);
    FieldsSplitAtSpace(first, ' ', second);
    FieldsOfWord(first);
    FieldsOfWord(second);
  }

  lemma ReloadWords()
    ensures Fields(RELOAD_COMMAND) == ["systemctl", "daemon-reload"]
  {
    hide Fields;
    assert RELOAD_COMMAND == "systemctl" + [' '] + "daemon-reload";
    FirstTwoWords("systemctl", "daemon-reload", "");
  }

  lemma EnableWords(service: string)
    ensures Fields("systemctl enable --now " + service) == ["systemctl", "enable"] + Fields("--now " + service)
  {
    hide Fields;
    FirstTwoWords("systemctl", "enable", "--now " + service);
    EnableText(service);
  }

  lemma EnableText(service: string)
    ensures "systemctl enable --now " + service == "systemctl" + [' '] + ("enable" + [' '] + ("--now " + service))
  {
    assert "systemctl enable --now " == "systemctl" + [' '] + "enable" + [' '] + "--now ";
  }

  lemma ManagedCommandsDiffer()
    ensures !IsCommand(Str(ENABLE_COMMAND), RELOAD_COMMAND)
    ensures !IsCommand(Str(RELOAD_COMMAND), ENABLE_COMMAND)
  {
    hide Fields, NormalizeCommand, LINUX_SERVICE;
    ReloadWords();
    EnableWords(LINUX_SERVICE);
    assert |"enable"| != |"daemon-reload"|;
    assert Fields(ENABLE_COMMAND)[1] == "enable" && Fields(RELOAD_COMMAND)[1] == "daemon-reload";
    MatchIffSameWords(ENABLE_COMMAND, RELOAD_COMMAND);
  }

  /** Each managed path and command occurs exactly once, or as often as it did before. */
  lemma ManagedOccurOnce(doc: Doc)
    ensures var m := MergeLinux(doc);
            && CountFiles(m.writeFiles, LINUX_SCRIPT_PATH) == AtLeastOne(CountFiles(doc.writeFiles, LINUX_SCRIPT_PATH))
            && CountFiles(m.writeFiles, LINUX_UNIT_PATH) == AtLeastOne(CountFiles(doc.writeFiles, LINUX_UNIT_PATH))
            && CountCommands(m.runCmd, RELOAD_COMMAND) == AtLeastOne(CountCommands(doc.runCmd, RELOAD_COMMAND))
            && CountCommands(m.runCmd, ENABLE_COMMAND) == AtLeastOne(CountCommands(doc.runCmd, ENABLE_COMMAND))
  {
    hide HasFile, HasCommand, IsFileAt, IsCommand, WithUser, FileEntry, CountFiles, CountCommands;
    var d1 := WithUser(doc);
    assert d1.writeFiles == doc.writeFiles && d1.runCmd == doc.runCmd by { UserKeepsLists(doc); }
    var script, unitFile := FileEntry(LINUX_SCRIPT_PATH, "0755", LINUX_SCRIPT), FileEntry(LINUX_UNIT_PATH, "0644", LINUX_UNIT);
    FileEntryIsThere(LINUX_SCRIPT_PATH, "0755", LINUX_SCRIPT);
    FileEntryIsThere(LINUX_UNIT_PATH, "0644", LINUX_UNIT);
    ManagedPathsDiffer("0755", LINUX_SCRIPT);
    ManagedPathsDiffer("0644", LINUX_UNIT);
    var d2 := WithFile(d1, LINUX_SCRIPT_PATH, "0755", LINUX_SCRIPT);
    CountFilesAppend(d1.writeFiles, script, LINUX_SCRIPT_PATH);
    CountFilesAppend(d1.writeFiles, script, LINUX_UNIT_PATH);
    CountFilesAppend(d2.writeFiles, unitFile, LINUX_SCRIPT_PATH);
    CountFilesAppend(d2.writeFiles, unitFile, LINUX_UNIT_PATH);
    var d3 := WithFile(d2, LINUX_UNIT_PATH, "0644", LINUX_UNIT);
    ManagedCommandsDiffer();
    assert IsCommand(Str(RELOAD_COMMAND), RELOAD_COMMAND) && IsCommand(Str(ENABLE_COMMAND), ENABLE_COMMAND) by { SelfCommand(); }
    CountCommandsAppend(d3.runCmd, Str(RELOAD_COMMAND), RELOAD_COMMAND);
    CountCommandsAppend(d3.runCmd, Str(RELOAD_COMMAND), ENABLE_COMMAND);
    var d4 := WithCommand(d3, RELOAD_COMMAND);
    CountCommandsAppend(d4.runCmd, Str(ENABLE_COMMAND), RELOAD_COMMAND);
    CountCommandsAppend(d4.runCmd, Str(ENABLE_COMMAND), ENABLE_COMMAND);
  }

  lemma SelfCommand()
    ensures IsCommand(Str(RELOAD_COMMAND), RELOAD_COMMAND) && IsCommand(Str(ENABLE_COMMAND), ENABLE_COMMAND)
    ensures IsCommand(Str(WINDOWS_COMMAND), WINDOWS_COMMAND)
  {
  }

  lemma WindowsManagedOccurOnce(doc: Doc)
    ensures var m := MergeWindows(doc);
            && CountFiles(m.writeFiles, WINDOWS_SCRIPT_PATH) == AtLeastOne(CountFiles(doc.writeFiles, WINDOWS_SCRIPT_PATH))
            && CountCommands(m.runCmd, WINDOWS_COMMAND) == AtLeastOne(CountCommands(doc.runCmd, WINDOWS_COMMAND))
  {
    hide HasFile, HasCommand, IsFileAt, IsCommand, FileEntry, CountFiles, CountCommands;
    var script := WindowsScript(RawString(doc, HINT_KEY));
    FileEntryIsThere(WINDOWS_SCRIPT_PATH, "0644", script);
    CountFilesAppend(doc.writeFiles, FileEntry(WINDOWS_SCRIPT_PATH, "0644", script), WINDOWS_SCRIPT_PATH);
    SelfCommand();
    CountCommandsAppend(doc.runCmd, Str(WINDOWS_COMMAND), WINDOWS_COMMAND);
  }

  /** With complete hints the requested user is there exactly once, or as often as before; without
      them the users are as before. */
  lemma UserOccursOnce(doc: Doc)
    ensures var name := RawString(doc, HINT_USER);
            if name != "" && RawString(doc, HINT_KEY) != ""
            then CountUsers(Users(MergeLinux(doc)), name) == AtLeastOne(CountUsers(Users(doc), name))
            else Users(MergeLinux(doc)) == Users(doc)
  {
    var name := RawString(doc, HINT_USER);
    ListsOnlyGrow(doc, OSLinux);
    assert MergeDoc(doc, OSLinux) == MergeLinux(doc);
    hide MergeLinux, MergeDoc, HasUser, CountUsers, IsUserNamed;
    assert Users(MergeLinux(doc)) == Users(WithUser(doc));
    UserEntryHasName(name, RawString(doc, HINT_KEY));
    CountUsersAppend(Users(doc), UserEntry(name, RawString(doc, HINT_KEY)), name);
    assert UserMissing(doc) ==> Users(WithUser(doc)) == Users(doc) + [UserEntry(name, RawString(doc, HINT_KEY))];
  }

  lemma UserEntryHasName(name: string, pubKey: string)
    ensures IsUserNamed(UserEntry(name, pubKey), name)
  {
  }

  // ---------------------------------------------------------------- what is written

  lemma FileEntryHolds(path: string, permissions: string, content: string)
    ensures var e := FileEntry(path, permissions, content);
            && |e| == 3 && Lookup(e, "path") == Some(Str(path)) && Lookup(e, "permissions") == Some(Str(permissions))
            && Lookup(e, "content") == Some(Str(content))
  {
    assert |"content"| == 7 && |"path"| == 4 && |"permissions"| == 11;
    var e := FileEntry(path, permissions, content);
    assert Lookup(e[1..], "path") == Some(Str(path));
    assert Lookup(e[1..][1..], "permissions") == Some(Str(permissions));
    assert Lookup(e[1..], "permissions") == Lookup(e[1..][1..], "permissions");
  }

  /** An entry that holds exactly this file. */
  predicate HoldsFile(e: Object, path: string, permissions: string, content: string) {
    && |e| == 3 && Lookup(e, "path") == Some(Str(path)) && Lookup(e, "permissions") == Some(Str(permissions))
    && Lookup(e, "content") == Some(Str(content))
  }

  predicate AppendedFile(before: seq<Object>, after: seq<Object>, path: string, permissions: string, content: string) {
    if HasFile(before, path) then after == before
    else after != [] && after[..|after| - 1] == before && HoldsFile(after[|after| - 1], path, permissions, content)
  }

  lemma WithFileAppends(doc: Doc, path: string, permissions: string, content: string)
    ensures AppendedFile(doc.writeFiles, WithFile(doc, path, permissions, content).writeFiles, path, permissions, content)
  {
    FileEntryHolds(path, permissions, content);
    hide HasFile, FileEntry;
  }

  lemma UnitUnaffected(files: seq<Object>)
    ensures HasFile(files + [FileEntry(LINUX_SCRIPT_PATH, "0755", LINUX_SCRIPT)], LINUX_UNIT_PATH) <==> HasFile(files, LINUX_UNIT_PATH)
  {
    var script := FileEntry(LINUX_SCRIPT_PATH, "0755", LINUX_SCRIPT);
    ManagedPathsDiffer("0755", LINUX_SCRIPT);
    CountFilesAppend(files, script, LINUX_UNIT_PATH);
    CountFilesAppend(files + [script], script, LINUX_UNIT_PATH);
    hide HasFile, IsFileAt, FileEntry, CountFiles;
  }

  lemma LinuxFilesAppended(doc: Doc)
    ensures exists mid ::
              && AppendedFile(doc.writeFiles, mid, LINUX_SCRIPT_PATH, "0755", LINUX_SCRIPT)
              && AppendedFile(mid, MergeLinux(doc).writeFiles, LINUX_UNIT_PATH, "0644", LINUX_UNIT)
              && (HasFile(mid, LINUX_UNIT_PATH) <==> HasFile(doc.writeFiles, LINUX_UNIT_PATH))
  {
    var d1 := WithUser(doc);
    var d2 := WithFile(d1, LINUX_SCRIPT_PATH, "0755", LINUX_SCRIPT);
    UserKeepsLists(doc);
    WithFileAppends(d1, LINUX_SCRIPT_PATH, "0755", LINUX_SCRIPT);
    WithFileAppends(d2, LINUX_UNIT_PATH, "0644", LINUX_UNIT);
    UnitUnaffected(doc.writeFiles);
    hide HasFile, WithUser, FileEntry, AppendedFile, HasCommand;
    assert MergeLinux(doc).writeFiles == WithFile(d2, LINUX_UNIT_PATH, "0644", LINUX_UNIT).writeFiles;
    assert AppendedFile(doc.writeFiles, d2.writeFiles, LINUX_SCRIPT_PATH, "0755", LINUX_SCRIPT);
  }

  /** The Linux merge adds, as far as they are missing, the executable script and then the unit with its
      own permissions, each under its path, and nothing else. */
  lemma LinuxFilesWritten(doc: Doc)
    ensures var unitPath := "/etc/systemd/system/" + "vm-linux-monitoring-service" + ".service";
            exists mid ::
              && AppendedFile(doc.writeFiles, mid, "/usr/local/bin/bootstrap-kubevirt-observability.sh", "0755", LINUX_SCRIPT)
              && AppendedFile(mid, MergeLinux(doc).writeFiles, unitPath, "0644", LINUX_UNIT)
              && (HasFile(mid, unitPath) <==> HasFile(doc.writeFiles, unitPath))
  {
    LinuxFilesAppended(doc);
    hide AppendedFile, HasFile, MergeLinux;
  }

  lemma WindowsFileWritten(doc: Doc)
    ensures var key := RawString(doc, HINT_KEY);
            AppendedFile(doc.writeFiles, MergeWindows(doc).writeFiles,
                         "C:\\ProgramData\\KubeVirtObservability\\bootstrap-kubevirt-observability.ps1", "0644",
                         "winrm set " + if key == "" then "ssh-rsa placeholder" else key)
  {
    WithFileAppends(doc, WINDOWS_SCRIPT_PATH, "0644", WindowsScript(RawString(doc, HINT_KEY)));
    hide HasFile, FileEntry, AppendedFile, HasCommand;
  }

  lemma CommandsAppended(doc: Doc)
    ensures MergeLinux(doc).runCmd
            == doc.runCmd
               + (if HasCommand(doc.runCmd, RELOAD_COMMAND) then [] else [Str(RELOAD_COMMAND)])
               + (if HasCommand(doc.runCmd, ENABLE_COMMAND) then [] else [Str(ENABLE_COMMAND)])
    ensures MergeWindows(doc).runCmd
            == doc.runCmd + (if HasCommand(doc.runCmd, WINDOWS_COMMAND) then [] else [Str(WINDOWS_COMMAND)])
  {
    UserKeepsLists(doc);
    ReloadBesideEnable(doc.runCmd);
    hide HasCommand, HasFile, WithUser;
  }

  /** The commands are appended as far as they are missing, the reload before the start of the service. */
  lemma CommandsWritten(doc: Doc)
    ensures var reload, enable := "systemctl daemon-reload", "systemctl enable --now " + "vm-linux-monitoring-service";
            MergeLinux(doc).runCmd == doc.runCmd + (if HasCommand(doc.runCmd, reload) then [] else [Str(reload)])
                                      + (if HasCommand(doc.runCmd, enable) then [] else [Str(enable)])
    ensures MergeWindows(doc).runCmd
            == doc.runCmd + (if HasCommand(doc.runCmd, WINDOWS_COMMAND) then [] else [Str(WINDOWS_COMMAND)])
  {
    CommandsAppended(doc);
    hide HasCommand, MergeLinux, MergeWindows;
  }

  lemma ReloadBesideEnable(cmds: seq<Value>)
    ensures HasCommand(cmds + [Str(RELOAD_COMMAND)], ENABLE_COMMAND) <==> HasCommand(cmds, ENABLE_COMMAND)
  {
    ManagedCommandsDiffer();
    CountCommandsAppend(cmds, Str(RELOAD_COMMAND), ENABLE_COMMAND);
    CountCommandsAppend(cmds + [Str(RELOAD_COMMAND)], Str(RELOAD_COMMAND), ENABLE_COMMAND);
    hide HasCommand, IsCommand, CountCommands;
  }

  predicate Says(doc: Doc, key: string, s: string) {
    key in doc.raw && doc.raw[key] == Str(s)
  }

  /** The list of users; anything else under that name is no list. */
  predicate ListsUsers(doc: Doc) {
    "users" in doc.raw && doc.raw["users"].List?
  }

  predicate NamedAlready(doc: Doc, user: string) {
    ListsUsers(doc) &&
    exists i :: 0 <= i < |doc.raw["users"].items| && doc.raw["users"].items[i].Mapping?
                && Lookup(doc.raw["users"].items[i].entries, "name") == Some(Str(user))
  }

  /** A user is added exactly when both hints are non-empty strings and no mapping in the list of users has
      that name. */
  lemma UserAddedIff(doc: Doc)
    ensures WithUser(doc) != doc
            <==> exists user, key :: Says(doc, "observability_ssh_user", user) && Says(doc, "observability_ssh_public_key", key)
                                     && user != "" && key != "" && !NamedAlready(doc, user)
  {
    hide Lookup;
    UserMissingIff(doc);
    assert UserMissing(doc) ==> |Users(WithUser(doc))| == |Users(doc)| + 1;
  }

  lemma UserMissingIff(doc: Doc)
    ensures UserMissing(doc)
            <==> exists user, key :: Says(doc, "observability_ssh_user", user) && Says(doc, "observability_ssh_public_key", key)
                                     && user != "" && key != "" && !NamedAlready(doc, user)
  {
    hide Lookup;
    var user, key := RawString(doc, HINT_USER), RawString(doc, HINT_KEY);
    assert HasUser(Users(doc), user) <==> NamedAlready(doc, user);
    assert user != "" ==> Says(doc, "observability_ssh_user", user);
    assert key != "" ==> Says(doc, "observability_ssh_public_key", key);
    assert forall s, t :: Says(doc, "observability_ssh_user", s) && Says(doc, "observability_ssh_public_key", t) ==>
             s == user && t == key;
  }

  /** A missing user is added at the end, under the requested name, with the requested public key as the
      one key that may log in; with a shell and sudo unless it is root, for whom logging in is enabled. */
  lemma UserWritten(doc: Doc)
    requires UserMissing(doc)
    ensures var before, after := Users(doc), Users(WithUser(doc));
            && |after| == |before| + 1 && after[..|before|] == before && after[|before|].Mapping?
            && var e, name := after[|before|].entries, RawString(doc, HINT_USER);
            && Lookup(e, "name") == Some(Str(name))
            && Lookup(e, "ssh_authorized_keys") == Some(List([Str(RawString(doc, HINT_KEY))]))
            && Lookup(e, "sudo") == (if name == "root" then None else Some(Str("ALL=(ALL) NOPASSWD:ALL")))
            && Lookup(e, "shell") == (if name == "root" then None else Some(Str("/bin/bash")))
    ensures RawString(doc, HINT_USER) == "root" ==>
              DISABLE_ROOT in WithUser(doc).raw && WithUser(doc).raw[DISABLE_ROOT] == Scalar("false")
    ensures !ListsUsers(doc) ==> Users(doc) == []
  {
    UserEntryHolds(RawString(doc, HINT_USER), RawString(doc, HINT_KEY));
    assert |USERS| == 5 && |DISABLE_ROOT| == 12;
    hide UserEntry, Lookup;
  }

  lemma UserEntryHolds(user: string, pubKey: string)
    ensures UserEntry(user, pubKey).Mapping?
    ensures var e := UserEntry(user, pubKey).entries;
            && Lookup(e, "name") == Some(Str(user))
            && Lookup(e, "ssh_authorized_keys") == Some(List([Str(pubKey)]))
            && Lookup(e, "sudo") == (if user == "root" then None else Some(Str("ALL=(ALL) NOPASSWD:ALL")))
            && Lookup(e, "shell") == (if user == "root" then None else Some(Str("/bin/bash")))
  {
    assert |"name"| == 4 && |"shell"| == 5 && |"ssh_authorized_keys"| == 19;
    assert "sudo"[0] != "name"[0];
    var e := UserEntry(user, pubKey).entries;
    if user == "root" {
      assert e[1..][1..] == [];
      assert Lookup(e[1..], "sudo") == Lookup(e[1..][1..], "sudo") == None;
      assert Lookup(e[1..], "shell") == Lookup(e[1..][1..], "shell") == None;
    } else {
      assert Lookup(e[1..], "shell") == Some(Str("/bin/bash"));
      assert Lookup(e[1..][1..], "ssh_authorized_keys") == Some(List([Str(pubKey)]));
      assert Lookup(e[1..][1..][1..], "sudo") == Some(Str("ALL=(ALL) NOPASSWD:ALL"));
      assert Lookup(e[1..], "ssh_authorized_keys") == Lookup(e[1..][1..], "ssh_authorized_keys");
      assert Lookup(e[1..][1..], "sudo") == Lookup(e[1..][1..][1..], "sudo");
    }
  }

  /** A path is the same file in lower case. */
  lemma CaseDoesNotMatter(file: Object, path: string)
    requires forall i :: 0 <= i < |path| ==> path[i] <= '~'
    requires Lookup(file, "path") == Some(Str(ToLower(path)))
    ensures IsFileAt(file, path)
  {
  }
}
