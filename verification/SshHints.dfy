/** The controller's cloud-init Secret step (controllers/vm_controller.go): the SSH user and key are
    slipped into the Secret's data as hints, the data is merged, and a difference patch is sent.
    The hints must not reach the stored Secret. */
module SshHints {
  import opened Wrappers
  import opened MergePatch
  import opened GoStrings
  import opened Base64
  import opened GoBytes
  import opened CloudConfig
  import opened CloudConfigFacts
  import opened CloudInitMerge
  import opened CloudInitSource

  /** The second YAML library, reading a text as one flat map. */
  datatype FlatYaml = FlatYaml(parse: Bytes -> Option<map<string, Value>>, render: map<string, Value> -> Bytes)

  /** The key the hints are written under; it prefers the other spelling than the merge does. */
  function InjectKey(keys: set<string>): Option<string> {
    if SECOND in keys then Some(SECOND)
    else if PREFERRED in keys then Some(PREFERRED)
    else None
  }

  function FlatBody(value: Bytes): Bytes {
    Trim(DropPrefix(Trim(value), HEADER))
  }

  /** Both libraries are given the same text. */
  lemma FlatBodyIsBody(value: Bytes)
    ensures FlatBody(value) == Body(value)
  {
    TrimTwice(value);
    hide Trim;
  }

  function WithHints(m: map<string, Value>, user: string, pubKey: string): map<string, Value> {
    m[HINT_USER := Str(user)][HINT_KEY := Str(pubKey)]
  }

  /** `injectSSHMergeHints`. */
  function Inject(f: FlatYaml, data: Data, user: string, pubKey: string): (r: Result<Data>)
    ensures r.Ok? ==> user != "" && pubKey != "" && r.value.Keys == data.Keys && InjectKey(data.Keys).Some?
    ensures r.Ok? ==> r.value - {InjectKey(data.Keys).value} == data - {InjectKey(data.Keys).value}
  {
    if TrimSpace(user) == "" then Err("linux ssh user is required")
    else if TrimSpace(pubKey) == "" then Err("linux ssh public key is required")
    else
      match InjectKey(data.Keys)
      case None => Err("cloud-init secret missing userData/userdata")
      case Some(key) =>
        var body := FlatBody(data[key]);
        match if body == [] then Some(map[]) else f.parse(body)
        case None => Err("parse cloud-init userdata for ssh injection")
        case Some(m) => Ok(data[key := Ascii(HEADER) + [10] + f.render(WithHints(m, user, pubKey))])
  }

  /** A Secret in memory; its data map is shared by whoever holds the object. */
  class Secret {
    var data: Data

    constructor (data: Data)
      ensures this.data == data
    {
      this.data := data;
    }

    method InjectSSHMergeHints(f: FlatYaml, user: string, pubKey: string) returns (ok: bool)
      modifies this
      ensures ok <==> Inject(f, old(data), user, pubKey).Ok?
      ensures data == if ok then Inject(f, old(data), user, pubKey).value else old(data)
    {
      if TrimSpace(user) == "" || TrimSpace(pubKey) == "" {
        return false;
      }
      var key := SECOND;
      if key !in data {
        key := PREFERRED;
      }
      if key !in data {
        return false;
      }
      var cfgMap: map<string, Value> := map[];
      var raw := FlatBody(data[key]);
      if raw != [] {
        var parsed := f.parse(raw);
        if parsed.None? {
          return false;
        }
        cfgMap := parsed.value;
      }
      cfgMap := cfgMap[HINT_USER := Str(user)];
      cfgMap := cfgMap[HINT_KEY := Str(pubKey)];
      data := data[key := Ascii(HEADER) + [10] + f.render(cfgMap)];
      return true;
    }
  }

  /** The key of the merge, which prefers the other spelling. */
  function MergeKey(keys: set<string>): string {
    if PREFERRED in keys then PREFERRED else SECOND
  }

  lemma MergeKeyIsSecretKey(keys: set<string>)
    requires InjectKey(keys).Some?
    ensures IsSecretKey(keys, MergeKey(keys))
  {
    hide LooksLikeUserData;
  }

  /** The merge of the data with the hints in them. */
  function MergeWithHints(y: Yaml, f: FlatYaml, data: Data, user: string, pubKey: string, os: OSType): Result<Outcome> {
    match Inject(f, data, user, pubKey)
    case Err(e) => Err(e)
    case Ok(injected) => MergeAt(y, injected, MergeKey(injected.Keys), os)
  }

  /** The data on the server once a changed merge has been patched in: the merged value under the key
      of the merge, and nothing else. */
  function Patched(y: Yaml, f: FlatYaml, data: Data, user: string, pubKey: string, os: OSType): Data
    requires MergeWithHints(y, f, data, user, pubKey, os).Ok?
  {
    var injected, key := Inject(f, data, user, pubKey).value, MergeKey(data.Keys);
    var value := MergeWithHints(y, f, data, user, pubKey, os).value.data[key];
    if value == injected[key] then data else data[key := value]
  }

  /** A merge that reports a change has changed the value, so the patch does carry it. */
  lemma ChangeIsStored(y: Yaml, f: FlatYaml, data: Data, user: string, pubKey: string, os: OSType)
    requires ReadsBack(y)
    requires MergeWithHints(y, f, data, user, pubKey, os).Ok? && MergeWithHints(y, f, data, user, pubKey, os).value.changed
    ensures var key, merged := MergeKey(data.Keys), MergeWithHints(y, f, data, user, pubKey, os).value;
            Patched(y, f, data, user, pubKey, os) == data[key := merged.data[key]]
  {
    hide MergeAt, Inject, LooksLikeUserData, ReadsBack;
    var injected, key := Inject(f, data, user, pubKey).value, MergeKey(data.Keys);
    MergeKeyIsSecretKey(injected.Keys);
    MergeSecretTwice(y, injected, key, os);
    var merged := MergeAt(y, injected, key, os).value;
    assert merged.data != injected;
    MergeChangesOneKey(y, injected, key, os);
  }

  lemma MergeChangesOneKey(y: Yaml, data: Data, key: string, os: OSType)
    requires key in data && MergeAt(y, data, key, os).Ok?
    ensures var merged := MergeAt(y, data, key, os).value;
            key in merged.data && merged.key == key && merged.data == data[key := merged.data[key]]
            && (!merged.changed ==> merged.data == data)
  {
    hide Merge, MaybeDecodeBase64;
  }

  datatype Call = GetSecret | CreateSecret | PatchSecret

  const CREATED: Data := map[PREFERRED := Ascii(HEADER) + [10]]

  /** A text written from a document without hints, plain or encoded. */
  ghost predicate WrittenHintFree(y: Yaml, value: Bytes) {
    exists doc :: HintFree(doc) && WrittenFrom(y, value, doc)
  }

  ghost predicate WrittenFrom(y: Yaml, value: Bytes, doc: Doc) {
    var text := Ascii(HEADER) + [10] + y.render(doc);
    value == text || value == Encode(text)
  }

  lemma ChangedIsHintFree(y: Yaml, data: Data, key: string, os: OSType)
    requires key in data && MergeAt(y, data, key, os).Ok? && MergeAt(y, data, key, os).value.changed
    ensures var out := MergeAt(y, data, key, os).value.data;
            out == data[key := out[key]] && WrittenHintFree(y, out[key])
  {
    var d := MaybeDecodeBase64(data[key]);
    var doc := StripHints(MergeDoc(ParseCloudConfig(y, d.text).doc, os));
    hide MergeDoc, ParseCloudConfig, MaybeDecodeBase64;
    assert HintFree(doc);
    var out := MergeAt(y, data, key, os).value.data;
    assert WrittenFrom(y, out[key], doc);
  }

  /** A patch taken against the copy that already holds the hints carries the merged key alone. */
  lemma PatchCarriesOneKey(server: Data, injected: Data, key: string, value: Bytes)
    requires server.Keys == injected.Keys && key in server && value != injected[key]
    ensures Apply(server, Diff(injected, injected[key := value])) == server[key := value]
  {
    var result := Apply(server, Diff(injected, injected[key := value]));
    forall k | k in result.Keys + server.Keys ensures AgreeAt(result, server[key := value], k) {
      DiffIsThreeWayMerge(server, injected, injected[key := value], k);
    }
  }

  /** The stored data are as before, except perhaps for one text without hints under the key of the
      merge. */
  ghost predicate OnlyMerged(y: Yaml, before: Data, after: Data) {
    after == before || exists key :: IsSecretKey(before.Keys, key) && ReplacedAt(y, before, after, key)
  }

  ghost predicate ReplacedAt(y: Yaml, before: Data, after: Data, key: string) {
    key in after && after == before[key := after[key]] && WrittenHintFree(y, after[key])
  }

  lemma PatchAfterMerge(y: Yaml, server: Data, injected: Data, key: string, os: OSType)
    requires server.Keys == injected.Keys && IsSecretKey(injected.Keys, key)
    requires MergeAt(y, injected, key, os).Ok? && MergeAt(y, injected, key, os).value.changed
    ensures OnlyMerged(y, server, Apply(server, Diff(injected, MergeAt(y, injected, key, os).value.data)))
  {
    hide MergeAt, IsSecretKey, WrittenHintFree, Apply, Diff;
    KeyIsThere(injected, key);
    var out := MergeAt(y, injected, key, os).value.data;
    ChangedIsHintFree(y, injected, key, os);
    var after := Apply(server, Diff(injected, out));
    if out[key] == injected[key] {
      assert out == injected;
      SamePatchesNothing(server, injected);
    } else {
      PatchCarriesOneKey(server, injected, key, out[key]);
      assert ReplacedAt(y, server, after, key);
    }
  }

  lemma PatchGives(y: Yaml, f: FlatYaml, server: Data, user: string, pubKey: string, os: OSType)
    requires MergeWithHints(y, f, server, user, pubKey, os).Ok?
    ensures Apply(server, Diff(Inject(f, server, user, pubKey).value, MergeWithHints(y, f, server, user, pubKey, os).value.data))
            == Patched(y, f, server, user, pubKey, os)
  {
    hide MergeAt, Inject, Apply, Diff;
    var injected, key := Inject(f, server, user, pubKey).value, MergeKey(server.Keys);
    MergeChangesOneKey(y, injected, key, os);
    var value := MergeAt(y, injected, key, os).value.data[key];
    if value == injected[key] {
      assert injected[key := value] == injected;
      SamePatchesNothing(server, injected);
    } else {
      PatchCarriesOneKey(server, injected, key, value);
    }
  }

  lemma SamePatchesNothing(server: Data, injected: Data)
    ensures Apply(server, Diff(injected, injected)) == server
  {
  }

  class SecretStore {
    /** The Secret in the API server, if there is one. */
    var stored: Option<Data>

    constructor (stored: Option<Data>)
      ensures this.stored == stored
    {
      this.stored := stored;
    }

    /** What the Secret holds when the merge starts. */
    function Before(): Data
      reads this
    {
      if stored.None? then CREATED else stored.value
    }

    /** The part of `reconcileCloudInitSecret` that works on the Secret it has read or created. */
    method MergeStored(y: Yaml, f: FlatYaml, os: OSType, user: string, pubKey: string, patchOK: bool) returns (done: bool)
      requires stored.Some?
      modifies this
      ensures stored.Some? && OnlyMerged(y, old(stored.value), stored.value)
      ensures var merged := MergeWithHints(y, f, old(stored.value), user, pubKey, os);
              && (done <==> merged.Ok? && (merged.value.changed ==> patchOK))
              && stored.value == if done && merged.value.changed then Patched(y, f, old(stored.value), user, pubKey, os)
                                 else old(stored.value)
    {
      hide MergeAt, LooksLikeUserData, OnlyMerged, Inject;
      SameIsMerged(y, stored.value);
      var secret := new Secret(stored.value);
      var injected := secret.InjectSSHMergeHints(f, user, pubKey);
      if !injected {
        return false;
      }
      assert secret.data.Keys == stored.value.Keys;
      var found := FindCloudInitSecretKey(secret.data.Keys);
      MergeKeyIsSecretKey(secret.data.Keys);
      if found.None? {
        return false;
      }
      var key := found.value;
      SecretKeyUnique(secret.data.Keys, key, MergeKey(secret.data.Keys));
      var merged := MergeAt(y, secret.data, key, os);
      if merged.Err? {
        return false;
      }
      if !merged.value.changed {
        return true;
      }
      PatchAfterMerge(y, stored.value, secret.data, key, os);
      PatchGives(y, f, stored.value, user, pubKey, os);
      var base := secret.data;
      secret.data := merged.value.data;
      if !patchOK {
        return false;
      }
      stored := Some(Apply(stored.value, Diff(base, secret.data)));
      return true;
    }

    /** `reconcileCloudInitSecret` for a given user and public key.  Whatever happens, on one key or
        both, on raw or unparseable user data, on an unchanged merge or a failing call: the stored
        Secret is as it was (or as freshly created), except that after a successful merge the value
        under the merge's own key may have been replaced by a text written from a document without
        hints.  The step is done exactly when the calls, the injection and the merge succeed, and a
        change is then stored. */
    method ReconcileCloudInitSecret(y: Yaml, f: FlatYaml, os: OSType, user: string, pubKey: string, fails: set<Call>)
      returns (done: bool)
      modifies this
      ensures stored == old(stored) || (stored.Some? && OnlyMerged(y, old(Before()), stored.value))
      ensures var merged := MergeWithHints(y, f, old(Before()), user, pubKey, os);
              var reached := GetSecret !in fails && (old(stored).None? ==> CreateSecret !in fails);
              && (done <==> reached && merged.Ok? && (merged.value.changed ==> PatchSecret !in fails))
              && stored == if !reached then old(stored)
                           else if done && merged.value.changed then Some(Patched(y, f, old(Before()), user, pubKey, os))
                           else Some(old(Before()))
    {
      hide OnlyMerged, Inject, MergeWithHints, Patched;
      if GetSecret in fails {
        return false;
      }
      if stored.None? {
        if CreateSecret in fails {
          return false;
        }
        stored := Some(CREATED);
      }
      done := MergeStored(y, f, os, user, pubKey, PatchSecret !in fails);
    }
  }

  lemma SameIsMerged(y: Yaml, data: Data)
    ensures OnlyMerged(y, data, data)
  {
  }

  /** The two key preferences agree exactly when the Secret does not hold both spellings. */
  lemma KeysAgreeIff(keys: set<string>, key: string)
    requires IsSecretKey(keys, key) && InjectKey(keys).Some?
    ensures InjectKey(keys).value == key <==> !(PREFERRED in keys && SECOND in keys)
  {
    assert PREFERRED[4] != SECOND[4];
    hide LooksLikeUserData;
  }

  /** With both spellings the merge does not see the hints at all: it does to the data exactly what
      it would have done without them, so the requested user is never added. */
  lemma BothKeysLoseTheUser(y: Yaml, f: FlatYaml, data: Data, user: string, pubKey: string, os: OSType)
    requires PREFERRED in data && SECOND in data
    requires Inject(f, data, user, pubKey).Ok?
    ensures var plain, hinted := MergeAt(y, data, PREFERRED, os), MergeAt(y, Inject(f, data, user, pubKey).value, PREFERRED, os);
            && (plain.Ok? <==> hinted.Ok?)
            && (plain.Ok? ==> plain.value.changed == hinted.value.changed
                              && plain.value.data[PREFERRED] == hinted.value.data[PREFERRED])
  {
    InjectedElsewhere(f, data, user, pubKey);
    hide Merge, MaybeDecodeBase64, Inject;
  }

  lemma InjectedElsewhere(f: FlatYaml, data: Data, user: string, pubKey: string)
    requires PREFERRED in data && SECOND in data
    requires Inject(f, data, user, pubKey).Ok?
    ensures var injected := Inject(f, data, user, pubKey).value;
            PREFERRED in injected && injected[PREFERRED] == data[PREFERRED]
  {
    hide TrimSpace, FlatBody;
    assert PREFERRED[4] != SECOND[4];
  }

  // ---------------------------------------------------------------- when the user is added

  /** What the merge sees under a key. */
  function Seen(y: Yaml, data: Data, key: string): Parsed
    requires key in data
  {
    ParseCloudConfig(y, MaybeDecodeBase64(data[key]).text)
  }

  /** The merge works on a document, and in what it makes of it the user is there. */
  predicate UserMerged(y: Yaml, data: Data, key: string, user: string)
    requires key in data
  {
    match Seen(y, data, key)
    case Config(doc) => HasUser(Users(MergeLinux(doc)), user)
    case _ => false
  }

  /** What is taken for granted of the two YAML libraries together: where the second one's text reads as
      a document, it holds the hints that were put in. */
  ghost predicate HintsGetAcross(y: Yaml, text: Bytes, user: string, pubKey: string) {
    match ParseCloudConfig(y, text)
    case Config(doc) => RawString(doc, HINT_USER) == user && RawString(doc, HINT_KEY) == pubKey
    case _ => true
  }

  lemma HintedDocHasUser(doc: Doc)
    requires RawString(doc, HINT_USER) != "" && RawString(doc, HINT_KEY) != ""
    ensures HasUser(Users(MergeLinux(doc)), RawString(doc, HINT_USER))
  {
    UserOccursOnce(doc);
    CountUsersAppend(Users(MergeLinux(doc)), Str(""), RawString(doc, HINT_USER));
    hide MergeLinux, CountUsers, HasUser, RawString;
  }

  lemma InjectedIsPlain(f: FlatYaml, data: Data, user: string, pubKey: string)
    requires Inject(f, data, user, pubKey).Ok?
    ensures var text := Inject(f, data, user, pubKey).value[InjectKey(data.Keys).value];
            MaybeDecodeBase64(text) == Decoded(text, false)
  {
    hide TrimSpace, FlatBody, MaybeDecodeBase64;
    var text := Inject(f, data, user, pubKey).value[InjectKey(data.Keys).value];
    assert text[0] == 35;
    PlainStaysPlain(text);
  }

  /** Exactly when the requested user is merged: with one spelling, if the text with the hints reads as
      a document, that is, neither looks like a raw script nor fails to parse; with both spellings, if
      the merge would have brought the user without any hints. */
  lemma UserMergedIff(y: Yaml, f: FlatYaml, data: Data, user: string, pubKey: string)
    requires Inject(f, data, user, pubKey).Ok?
    requires HintsGetAcross(y, Inject(f, data, user, pubKey).value[InjectKey(data.Keys).value], user, pubKey)
    ensures var injected := Inject(f, data, user, pubKey).value;
            UserMerged(y, injected, MergeKey(data.Keys), user)
            <==> if PREFERRED in data && SECOND in data then UserMerged(y, data, PREFERRED, user)
                 else ParseCloudConfig(y, injected[InjectKey(data.Keys).value]).Config?
  {
    var injected := Inject(f, data, user, pubKey).value;
    if PREFERRED in data && SECOND in data {
      InjectedElsewhere(f, data, user, pubKey);
      hide Inject, MaybeDecodeBase64, ParseCloudConfig, MergeLinux, HasUser;
    } else {
      InjectedIsPlain(f, data, user, pubKey);
      var key := InjectKey(data.Keys).value;
      assert MergeKey(data.Keys) == key;
      hide Inject, MaybeDecodeBase64, ParseCloudConfig, MergeLinux, HasUser, RawString;
      match ParseCloudConfig(y, injected[key]) {
        case Config(doc) => HintedDocHasUser(doc);
        case _ =>
      }
    }
  }

  /** With one spelling, the three readings of the text with the hints: a document is merged with the
      user in it and is what is written; a raw script is reported as merged, although nothing is
      written and the user is not added; anything else is an error. */
  lemma OneKeyAddsTheUser(y: Yaml, f: FlatYaml, data: Data, user: string, pubKey: string)
    requires Inject(f, data, user, pubKey).Ok? && !(PREFERRED in data && SECOND in data)
    requires HintsGetAcross(y, Inject(f, data, user, pubKey).value[InjectKey(data.Keys).value], user, pubKey)
    ensures var injected, key := Inject(f, data, user, pubKey).value, InjectKey(data.Keys).value;
            var merged := MergeWithHints(y, f, data, user, pubKey, OSLinux);
            match ParseCloudConfig(y, injected[key])
            case Config(doc) =>
              && merged.Ok? && HasUser(Users(MergeLinux(doc)), user)
              && merged.value.data == if MergeLinux(doc) == doc then injected
                                      else injected[key := RenderCloudConfig(y, MergeLinux(doc))]
            case RawScript(_) => merged == Ok(Outcome(injected, key, false)) && !UserMerged(y, injected, key, user)
            case Malformed => merged.Err?
  {
    var injected, key := Inject(f, data, user, pubKey).value, InjectKey(data.Keys).value;
    InjectedIsPlain(f, data, user, pubKey);
    assert MergeKey(data.Keys) == key;
    hide Inject, MaybeDecodeBase64, ParseCloudConfig, MergeLinux, RenderCloudConfig, HasUser, RawString;
    match ParseCloudConfig(y, injected[key]) {
      case Config(doc) => HintedDocHasUser(doc);
      case _ =>
    }
  }

  /** So user data that merely mention the Windows remote-management tool lose the user. */
  lemma RawLosesTheUser(y: Yaml, f: FlatYaml, data: Data, user: string, pubKey: string, os: OSType)
    requires Inject(f, data, user, pubKey).Ok? && !(PREFERRED in data && SECOND in data)
    requires LooksRaw(Body(Inject(f, data, user, pubKey).value[InjectKey(data.Keys).value]))
    ensures var injected, key := Inject(f, data, user, pubKey).value, InjectKey(data.Keys).value;
            && MergeWithHints(y, f, data, user, pubKey, os) == Ok(Outcome(injected, key, false))
            && !UserMerged(y, injected, key, user)
  {
    var injected, key := Inject(f, data, user, pubKey).value, InjectKey(data.Keys).value;
    InjectedIsPlain(f, data, user, pubKey);
    assert MergeKey(data.Keys) == key;
    assert ParseCloudConfig(y, injected[key]).RawScript? by { hide Inject, Body, LooksRaw; EmptyIsNotRaw(); }
    hide Inject, MaybeDecodeBase64, ParseCloudConfig, Body, LooksRaw;
  }

  lemma EmptyIsNotRaw()
    ensures !LooksRaw([])
  {
  }

  // ---------------------------------------------------------------- when the Windows key is written

  /** The merge works on a document and adds the script with this public key to its files. */
  predicate KeyWritten(y: Yaml, data: Data, key: string, pubKey: string)
    requires key in data
  {
    match Seen(y, data, key)
    case Config(doc) =>
      MergeWindows(doc).writeFiles == doc.writeFiles + [FileEntry(WINDOWS_SCRIPT_PATH, "0644", WindowsScript(pubKey))]
    case _ => false
  }

  lemma ScriptIsWrittenIff(doc: Doc)
    ensures MergeWindows(doc).writeFiles
            == doc.writeFiles + [FileEntry(WINDOWS_SCRIPT_PATH, "0644", WindowsScript(RawString(doc, HINT_KEY)))]
            <==> !HasFile(doc.writeFiles, WINDOWS_SCRIPT_PATH)
  {
    hide HasFile, HasCommand, WindowsScript, FileEntry;
    if HasFile(doc.writeFiles, WINDOWS_SCRIPT_PATH) { assert MergeWindows(doc).writeFiles == doc.writeFiles; }
  }

  /** Exactly when the injected public key gets into the Windows script: with one spelling, if the text
      with the hints reads as a document that has no file at the script's path yet; with both, if the
      merge would have written this key without any hints. */
  lemma WindowsKeyIff(y: Yaml, f: FlatYaml, data: Data, user: string, pubKey: string)
    requires Inject(f, data, user, pubKey).Ok?
    requires HintsGetAcross(y, Inject(f, data, user, pubKey).value[InjectKey(data.Keys).value], user, pubKey)
    ensures var injected := Inject(f, data, user, pubKey).value;
            KeyWritten(y, injected, MergeKey(data.Keys), pubKey)
            <==> if PREFERRED in data && SECOND in data then KeyWritten(y, data, PREFERRED, pubKey)
                 else match ParseCloudConfig(y, injected[InjectKey(data.Keys).value])
                      case Config(doc) => !HasFile(doc.writeFiles, WINDOWS_SCRIPT_PATH)
                      case _ => false
  {
    var injected := Inject(f, data, user, pubKey).value;
    if PREFERRED in data && SECOND in data {
      InjectedElsewhere(f, data, user, pubKey);
      hide Inject, MaybeDecodeBase64, ParseCloudConfig, MergeWindows, FileEntry, WindowsScript;
    } else {
      InjectedIsPlain(f, data, user, pubKey);
      var key := InjectKey(data.Keys).value;
      assert MergeKey(data.Keys) == key;
      hide Inject, MaybeDecodeBase64, ParseCloudConfig, MergeWindows, FileEntry, WindowsScript, HasFile, RawString;
      match ParseCloudConfig(y, injected[key]) {
        case Config(doc) => ScriptIsWrittenIff(doc);
        case _ =>
      }
    }
  }

  /** The Secret the controller makes where there is none says nothing: it reads as an empty document,
      whatever the VM's own data were. */
  lemma CreatedIsEmpty(y: Yaml)
    ensures Seen(y, CREATED, PREFERRED) == Config(EMPTY_DOC)
  {
    var text := Ascii(HEADER) + [10];
    PlainStaysPlain(text);
    HeaderAlone();
    hide MaybeDecodeBase64, Body, LooksRaw;
  }

  lemma HeaderAlone()
    ensures Body(Ascii(HEADER) + [10]) == []
  {
    var text := Ascii(HEADER) + [10];
    assert text[0] == 35 && TrimFront(text) == text;
    assert text[..|text| - 1] == Ascii(HEADER) && SpaceAtEnd(text) == 1;
    assert SpaceAtEnd(Ascii(HEADER)) == 0;
    assert TrimEnd(text) == Ascii(HEADER);
    assert Trim(text)[|HEADER|..] == [];
  }

  // ---------------------------------------------------------------- the user's own document

  /** What the second library makes of user data, past the header; nothing at all is the empty map. */
  function FlatReading(f: FlatYaml, value: Bytes): Option<map<string, Value>> {
    if FlatBody(value) == [] then Some(map[]) else f.parse(FlatBody(value))
  }

  /** Exactly when the hints can be put in. */
  lemma InjectOkIff(f: FlatYaml, data: Data, user: string, pubKey: string)
    ensures Inject(f, data, user, pubKey).Ok?
            <==> && TrimSpace(user) != "" && TrimSpace(pubKey) != "" && ("userData" in data || "userdata" in data)
                 && FlatReading(f, data[if "userData" in data then "userData" else "userdata"]).Some?
  {
    hide TrimSpace, FlatBody;
  }

  /** The library reads back the text with the hints. */
  ghost predicate ReadsHints(f: FlatYaml, m: map<string, Value>, user: string, pubKey: string) {
    var hinted := m[HINT_USER := Str(user)][HINT_KEY := Str(pubKey)];
    var text := Ascii(HEADER) + [10] + f.render(hinted);
    FlatBody(text) != [] && f.parse(FlatBody(text)) == Some(hinted)
  }

  /** Injecting adds the two hints to the user's document and takes nothing from it. */
  lemma InjectKeepsDocument(f: FlatYaml, data: Data, user: string, pubKey: string)
    requires Inject(f, data, user, pubKey).Ok?
    requires var before := FlatReading(f, data[InjectKey(data.Keys).value]);
             before.Some? ==> ReadsHints(f, before.value, user, pubKey)
    ensures var key := InjectKey(data.Keys).value;
            var before, after := FlatReading(f, data[key]), FlatReading(f, Inject(f, data, user, pubKey).value[key]);
            && before.Some? && after.Some?
            && after.value - {HINT_USER, HINT_KEY} == before.value - {HINT_USER, HINT_KEY}
            && HINT_USER in after.value && after.value[HINT_USER] == Str(user)
            && HINT_KEY in after.value && after.value[HINT_KEY] == Str(pubKey)
  {
    hide TrimSpace, FlatBody;
    assert |HINT_USER| == 22 && |HINT_KEY| == 28;
  }

  /** What is taken for granted of the two YAML libraries on two texts: if the second one finds the same
      in them apart from the hints, so does the first, where it finds documents. */
  ghost predicate LibrariesAgree(y: Yaml, f: FlatYaml, a: Bytes, b: Bytes) {
    var ma, mb, da, db := FlatReading(f, a), FlatReading(f, b), ParseCloudConfig(y, a), ParseCloudConfig(y, b);
    ma.Some? && mb.Some? && ma.value - {HINT_USER, HINT_KEY} == mb.value - {HINT_USER, HINT_KEY} && da.Config? && db.Config? ==>
      StripHints(da.doc) == StripHints(db.doc)
  }

  /** Everything the user wrote is still there, in place and in order. */
  ghost predicate KeepsUser(before: Doc, after: Doc) {
    && before.writeFiles <= after.writeFiles && before.runCmd <= after.runCmd && Users(before) <= Users(after)
    && after.packageUpdate == before.packageUpdate && after.packages == before.packages && after.bootCmd == before.bootCmd
    && forall k :: k !in {USERS, DISABLE_ROOT, HINT_USER, HINT_KEY} ==>
         (k in after.raw <==> k in before.raw) && (k in after.raw ==> after.raw[k] == before.raw[k])
  }

  lemma MergeKeepsUser(before: Doc, hinted: Doc, os: OSType)
    requires StripHints(before) == StripHints(hinted)
    ensures KeepsUser(before, MergeDoc(hinted, os))
  {
    NothingLost(hinted, os);
    SameUsers(before, hinted);
    hide MergeDoc, Users, RawString;
    forall k | k !in {USERS, DISABLE_ROOT, HINT_USER, HINT_KEY}
      ensures (k in hinted.raw <==> k in before.raw) && (k in hinted.raw ==> hinted.raw[k] == before.raw[k])
    {
      assert k in before.raw <==> k in StripHints(before).raw;
      assert k in hinted.raw <==> k in StripHints(hinted).raw;
    }
  }

  lemma SameUsers(before: Doc, hinted: Doc)
    requires StripHints(before) == StripHints(hinted)
    ensures Users(before) == Users(hinted)
  {
    assert |USERS| == 5 && |HINT_USER| == 22 && |HINT_KEY| == 28;
    assert USERS in before.raw <==> USERS in StripHints(before).raw;
    assert USERS in hinted.raw <==> USERS in StripHints(hinted).raw;
    if USERS in before.raw {
      assert StripHints(before).raw[USERS] == before.raw[USERS] && StripHints(hinted).raw[USERS] == hinted.raw[USERS];
    }
  }

  /** From the Secret before the step to what the merge writes: with one spelling, and both texts reading
      as documents, what is written renders a document that keeps all the user wrote and has the
      requested user or script. */
  lemma StoredKeepsDocument(y: Yaml, f: FlatYaml, data: Data, user: string, pubKey: string, os: OSType)
    requires Inject(f, data, user, pubKey).Ok? && !(PREFERRED in data && SECOND in data) && os != OtherOS
    requires var key := InjectKey(data.Keys).value;
             var text := Inject(f, data, user, pubKey).value[key];
             && FlatReading(f, data[key]).Some? && ReadsHints(f, FlatReading(f, data[key]).value, user, pubKey)
             && LibrariesAgree(y, f, data[key], text)
             && ParseCloudConfig(y, data[key]).Config? && ParseCloudConfig(y, text).Config?
    ensures var key := InjectKey(data.Keys).value;
            var before, hinted := ParseCloudConfig(y, data[key]).doc, ParseCloudConfig(y, Inject(f, data, user, pubKey).value[key]).doc;
            var merged := MergeWithHints(y, f, data, user, pubKey, os);
            && KeepsUser(before, MergeDoc(hinted, os))
            && merged.Ok? && (merged.value.changed <==> MergeDoc(hinted, os) != hinted)
            && (merged.value.changed ==> merged.value.data[key] == RenderCloudConfig(y, MergeDoc(hinted, os)))
  {
    var key := InjectKey(data.Keys).value;
    var text := Inject(f, data, user, pubKey).value[key];
    InjectKeepsDocument(f, data, user, pubKey);
    InjectedIsPlain(f, data, user, pubKey);
    assert MergeKey(data.Keys) == key;
    hide Inject, FlatReading, ReadsHints, MaybeDecodeBase64, ParseCloudConfig, MergeDoc, RenderCloudConfig, KeepsUser, StripHints;
    MergeKeepsUser(ParseCloudConfig(y, data[key]).doc, ParseCloudConfig(y, text).doc, os);
  }
}
