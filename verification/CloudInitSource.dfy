/** The cloud-init merge on Secret data (internal/cloudinitmerge/source.go): choosing the key,
    seeing through base64, and leaving the caller's map alone. */
module CloudInitSource {
  import opened Wrappers
  import opened GoStrings
  import opened Base64
  import opened GoBytes
  import opened CloudConfig
  import opened CloudInitMerge

  // ---------------------------------------------------------------- choosing the key

  /** Byte order of UTF-8 strings, which is the order of their scalar values. */
  predicate Less(a: string, b: string) {
    if b == "" then false
    else if a == "" then true
    else a[0] < b[0] || (a[0] == b[0] && Less(a[1..], b[1..]))
  }

  lemma {:induction false} LessTotal(a: string, b: string)
    ensures a == b || Less(a, b) || Less(b, a)
    ensures !(Less(a, b) && Less(b, a)) && !Less(a, a)
  {
    if a != "" && b != "" {
      LessTotal(a[1..], b[1..]);
      assert a == [a[0]] + a[1..] && b == [b[0]] + b[1..];
    }
    if a != "" { LessTotal(a[1..], a[1..]); }
  }

  /** The first difference decides; a text comes before what it is the beginning of. */
  lemma {:induction false} FirstDifferenceDecides(common: string, x: char, y: char, a: string, b: string)
    requires x != y
    ensures Less(common + [x] + a, common + [y] + b) <==> x < y
    ensures Less(common, common + [x] + a)
  {
    if common != "" {
      FirstDifferenceDecides(common[1..], x, y, a, b);
      assert (common + [x] + a)[1..] == common[1..] + [x] + a && (common + [y] + b)[1..] == common[1..] + [y] + b;
    }
  }

  lemma {:induction false} LessTransitive(a: string, b: string, c: string)
    requires Less(a, b) && Less(b, c)
    ensures Less(a, c)
  {
    if a != "" && a[0] == b[0] == c[0] { LessTransitive(a[1..], b[1..], c[1..]); }
  }

  const PREFERRED := "userdata"
  const SECOND := "userData"

  predicate LooksLikeUserData(key: string) {
    var k := ToLower(TrimSpace(key));
    k == "userdata" || k == "userdata.yaml" || k == "cloud-config"
  }

  const KNOWN_NAMES: set<string> := {"userdata", "userdata.yaml", "cloud-config"}

  /** A name is known in any case and with white space around it. */
  lemma KnownNameIff(name: string, front: char, back: char)
    requires IsSpace(front) && IsSpace(back) && name != "" && !IsSpace(name[0]) && !IsSpace(name[|name| - 1])
    ensures LooksLikeUserData([front] + name + [back]) <==> ToLower(name) in KNOWN_NAMES
    ensures LooksLikeUserData(name) <==> ToLower(name) in KNOWN_NAMES
  {
    TrimSpacePadded(front, name, back);
    hide ToLower, TrimSpace;
  }

  /** The key the merge works on: one of the two usual spellings, or else the first in byte order
      whose trimmed lower-case form is known. */
  ghost predicate IsSecretKey(keys: set<string>, key: string) {
    key in keys &&
    if PREFERRED in keys then key == PREFERRED
    else if SECOND in keys then key == SECOND
    else
      && LooksLikeUserData(key)
      && forall k :: k in keys && k != key && LooksLikeUserData(k) ==> Less(key, k)
  }

  /** There is at most one such key. */
  lemma SecretKeyUnique(keys: set<string>, a: string, b: string)
    requires IsSecretKey(keys, a) && IsSecretKey(keys, b)
    ensures a == b
  {
    if a != b && PREFERRED !in keys && SECOND !in keys {
      assert Less(a, b) && Less(b, a);
      LessTotal(a, b);
    }
  }

  predicate Sorted(s: seq<string>) {
    forall i, j :: 0 <= i < j < |s| ==> Less(s[i], s[j])
  }

  function Insert(s: seq<string>, key: string): seq<string> {
    if s == [] then [key]
    else if Less(key, s[0]) then [key] + s
    else [s[0]] + Insert(s[1..], key)
  }

  lemma {:induction false} InsertContents(s: seq<string>, key: string)
    ensures forall k :: k in Insert(s, key) <==> k == key || k in s
  {
    if s != [] {
      InsertContents(s[1..], key);
      assert forall k :: k in s <==> k == s[0] || k in s[1..];
    }
  }

  lemma {:induction false} InsertSorted(s: seq<string>, key: string)
    requires Sorted(s) && key !in s
    ensures Sorted(Insert(s, key))
  {
    if s != [] {
      LessTotal(key, s[0]);
      if Less(key, s[0]) {
        forall j | 0 < j < |s| ensures Less(key, s[j]) { LessTransitive(key, s[0], s[j]); }
      } else {
        var rest := Insert(s[1..], key);
        assert Sorted(s[1..]);
        InsertSorted(s[1..], key);
        InsertContents(s[1..], key);
        forall j | 0 <= j < |rest| ensures Less(s[0], rest[j]) {
          assert rest[j] in rest;
          if rest[j] != key { var i :| 0 <= i < |s[1..]| && s[1..][i] == rest[j]; assert s[i + 1] == rest[j]; }
        }
      }
    }
  }

  /** The keys in order, as collected from the map and sorted. */
  method SortedKeys(keys: set<string>) returns (s: seq<string>)
    ensures Sorted(s) && forall k :: k in s <==> k in keys
  {
    s := [];
    var rest := keys;
    while rest != {}
      invariant rest <= keys
      invariant Sorted(s) && forall k :: k in s <==> k in keys - rest
    {
      var k :| k in rest;
      InsertContents(s, k);
      InsertSorted(s, k);
      s, rest := Insert(s, k), rest - {k};
    }
  }

  method FindCloudInitSecretKey(keys: set<string>) returns (key: Option<string>)
    ensures key.Some? ==> IsSecretKey(keys, key.value)
    ensures key.None? ==> forall k :: k in keys ==> k != PREFERRED && k != SECOND && !LooksLikeUserData(k)
  {
    if PREFERRED in keys {
      return Some(PREFERRED);
    }
    if SECOND in keys {
      return Some(SECOND);
    }
    var sorted := SortedKeys(keys);
    for i := 0 to |sorted|
      invariant forall j :: 0 <= j < i ==> !LooksLikeUserData(sorted[j])
    {
      assert sorted[i] in sorted;
      if LooksLikeUserData(sorted[i]) {
        forall k | k in keys && k != sorted[i] && LooksLikeUserData(k) ensures Less(sorted[i], k) {
          assert k in sorted;
        }
        return Some(sorted[i]);
      }
    }
    assert forall k :: k in keys ==> k in sorted;
    return None;
  }

  // ---------------------------------------------------------------- base64

  /** Something a cloud-config text is known by. */
  predicate HasMarker(text: Bytes) {
    || Contains(text, Ascii("#cloud-config")) || Contains(text, Ascii("runcmd:"))
    || Contains(text, Ascii("bootcmd:")) || Contains(text, Ascii("write_files:"))
  }

  datatype Decoded = Decoded(text: Bytes, wasBase64: bool)

  function MaybeDecodeBase64(value: Bytes): Decoded {
    var trimmed := Trim(value);
    if trimmed == [] then Decoded([], false)
    else
      match Decode(trimmed)
      case Some(text) => if HasMarker(text) then Decoded(text, true) else Decoded(value, false)
      case None => Decoded(value, false)
  }

  const MARKERS: seq<string> := ["#cloud-config", "runcmd:", "bootcmd:", "write_files:"]

  /** A value is seen through exactly when it is base64 of a text that holds one of the four markers, and
      else taken as it is. */
  lemma SeenThroughIff(value: Bytes)
    ensures var d, t := MaybeDecodeBase64(value), Trim(value);
            && (d.wasBase64 <==> t != [] && Decode(t).Some?
                                 && exists i :: 0 <= i < 4 && Contains(Decode(t).value, Ascii(MARKERS[i])))
            && d.text == if d.wasBase64 then Decode(t).value else if t == [] then [] else value
  {
    hide Contains, Decode, Trim, Ascii;
    var t := Trim(value);
    if t != [] && Decode(t).Some? && HasMarker(Decode(t).value) {
      var text := Decode(t).value;
      assert Contains(text, Ascii(MARKERS[0])) || Contains(text, Ascii(MARKERS[1])) || Contains(text, Ascii(MARKERS[2]))
             || Contains(text, Ascii(MARKERS[3]));
    }
  }

  lemma RenderedHasMarker(y: Yaml, doc: Doc)
    ensures var text := RenderCloudConfig(y, doc);
            text != [] && text[0] == 35 && HasMarker(text)
  {
    var text := RenderCloudConfig(y, doc);
    assert text[0..0 + |Ascii(HEADER)|] == Ascii(HEADER);
    assert OccursAt(text, Ascii(HEADER), 0);
  }

  /** A rendered text is not taken for base64: its first character is outside the alphabet. */
  lemma PlainStaysPlain(text: Bytes)
    requires text != [] && text[0] == 35
    ensures MaybeDecodeBase64(text) == Decoded(text, false)
  {
    assert TrimFront(text) == text;
    TrimEndIsPrefix(text);
    if Trim(text) != [] {
      assert Trim(text)[0] == 35;
      DecodeRejectsForeign(Trim(text), 35);
    } else {
      FirstByteSurvives(text);
    }
  }

  lemma {:induction false} FirstByteSurvives(text: Bytes)
    requires text != [] && text[0] == 35
    ensures TrimEnd(text) != []
    decreases |text|
  {
    var n := SpaceAtEnd(text);
    if n != 0 {
      assert n < |text|;
      FirstByteSurvives(text[..|text| - n]);
    }
  }

  /** ... and an encoded one is seen through. */
  lemma EncodedStaysEncoded(text: Bytes)
    requires HasMarker(text) && text != []
    ensures MaybeDecodeBase64(Encode(text)) == Decoded(text, true)
  {
    EncodeAlphabet(text);
    TrimKeepsAlphabet(Encode(text));
    DecodeEncode(text);
  }

  // ---------------------------------------------------------------- the Secret

  type Data = map<string, Bytes>

  datatype Outcome = Outcome(data: Data, key: string, changed: bool)

  /** `MergeSecretData` once the key is chosen. */
  function MergeAt(y: Yaml, data: Data, key: string, os: OSType): Result<Outcome>
    requires key in data
  {
    var d := MaybeDecodeBase64(data[key]);
    match Merge(y, d.text, os)
    case Err(e) => Err(e)
    case Ok(m) =>
      if !m.changed then Ok(Outcome(data, key, false))
      else Ok(Outcome(data[key := if d.wasBase64 then Encode(m.text) else m.text], key, true))
  }

  /** The merge on its own output: no change, the same data, the same key and the same encoding,
      for both operating systems and for plain and encoded values; nothing but the value under the
      key ever differs. */
  lemma MergeSecretTwice(y: Yaml, data: Data, key: string, os: OSType)
    requires ReadsBack(y) && IsSecretKey(data.Keys, key)
    ensures MergeAt(y, data, key, os).Ok? ==>
              var once := MergeAt(y, data, key, os).value;
              && IsSecretKey(once.data.Keys, key) && once.key == key
              && MergeAt(y, once.data, key, os) == Ok(Outcome(once.data, key, false))
              && once.data - {key} == data - {key}
              && MaybeDecodeBase64(once.data[key]).wasBase64 == MaybeDecodeBase64(data[key]).wasBase64
  {
    hide Merge, MaybeDecodeBase64, IsSecretKey, HasMarker, Encode, ParseCloudConfig;
    KeyIsThere(data, key);
    var d := MaybeDecodeBase64(data[key]);
    if Merge(y, d.text, os).Ok? && Merge(y, d.text, os).value.changed {
      var m := Merge(y, d.text, os).value;
      var stored := if d.wasBase64 then Encode(m.text) else m.text;
      ChangedIsRendered(y, d.text, os);
      MergeAgain(y, d.text, os);
      EncodedStaysEncoded(m.text);
      PlainStaysPlain(m.text);
      ReplacingKeepsKeys(data, key, stored);
      assert MaybeDecodeBase64(stored) == Decoded(m.text, d.wasBase64);
    }
  }

  lemma KeyIsThere(data: Data, key: string)
    requires IsSecretKey(data.Keys, key)
    ensures key in data
  {
  }

  lemma ReplacingKeepsKeys(data: Data, key: string, value: Bytes)
    requires key in data
    ensures data[key := value].Keys == data.Keys
    ensures data[key := value] - {key} == data - {key}
  {
  }

  lemma ChangedIsRendered(y: Yaml, text: Bytes, os: OSType)
    requires Merge(y, text, os).Ok? && Merge(y, text, os).value.changed
    ensures ParseCloudConfig(y, text).Config? && os != OtherOS
    ensures var out := Merge(y, text, os).value.text;
            out != [] && out[0] == 35 && HasMarker(out)
  {
    hide MergeDoc, ParseCloudConfig, HasMarker;
    RenderedHasMarker(y, MergeDoc(ParseCloudConfig(y, text).doc, os));
  }

  // ---------------------------------------------------------------- on the heap

  /** Secret data as the program holds it: a map of byte slices, some possibly nil. */
  type Slices = map<string, array?<byte>>

  function Arrays(data: Slices): set<array?<byte>> {
    set k | k in data :: data[k]
  }

  ghost function Contents(data: Slices): Data
    reads Arrays(data)
  {
    map k | k in data :: if data[k] == null then [] else data[k][..]
  }

  method CopyBytes(v: array<byte>) returns (buf: array<byte>)
    ensures fresh(buf) && buf[..] == v[..]
  {
    buf := new byte[v.Length];
    for i := 0 to v.Length
      invariant buf[..i] == v[..i]
    {
      buf[i] := v[i];
    }
    assert buf[..] == buf[..v.Length] && v[..] == v[..v.Length];
  }

  /** `copyByteMap`: a deep copy. */
  method CopyByteMap(data: Slices) returns (out: Slices)
    ensures out.Keys == data.Keys
    ensures Contents(out) == old(Contents(data))
    ensures forall k :: k in out && out[k] != null ==> fresh(out[k])
    ensures forall k :: k in out ==> (out[k] == null <==> data[k] == null)
  {
    out := map[];
    var rest := data.Keys;
    while rest != {}
      invariant rest <= data.Keys && out.Keys == data.Keys - rest
      invariant forall k :: k in out ==> (out[k] == null <==> data[k] == null)
      invariant forall k :: k in out && out[k] != null ==> fresh(out[k]) && out[k][..] == data[k][..]
    {
      var k :| k in rest;
      if data[k] == null {
        out := out[k := null];
      } else {
        var buf := CopyBytes(data[k]);
        out := out[k := buf];
      }
      rest := rest - {k};
    }
  }

  method NewBytes(text: Bytes) returns (buf: array<byte>)
    ensures fresh(buf) && buf[..] == text
  {
    buf := new byte[|text|](i requires 0 <= i < |text| => text[i]);
  }

  /** A copy with fresh bytes under one key. */
  method CopyWith(data: Slices, key: string, text: Bytes) returns (out: Slices)
    ensures Contents(out) == old(Contents(data))[key := text]
    ensures forall k :: k in out && out[k] != null ==> fresh(out[k])
  {
    out := CopyByteMap(data);
    var buf := NewBytes(text);
    out := out[key := buf];
  }

  /** The rest of `MergeSecretData` once the key is found. */
  method MergeUnderKey(y: Yaml, data: Slices, key: string, os: OSType) returns (out: Slices, changed: bool, ok: bool)
    requires key in data
    ensures Contents(data) == old(Contents(data))
    ensures ok <==> MergeAt(y, old(Contents(data)), key, os).Ok?
    ensures ok ==> MergeAt(y, old(Contents(data)), key, os).value == Outcome(Contents(out), key, changed)
    ensures ok && !changed ==> out == data
    ensures ok && changed ==> forall k :: k in out && out[k] != null ==> fresh(out[k])
  {
    hide MaybeDecodeBase64, Merge, Encode;
    ghost var before := Contents(data);
    var raw: Bytes := if data[key] == null then [] else data[key][..];
    assert raw == before[key];
    var d := MaybeDecodeBase64(raw);
    var merged := MergeUserData(y, d.text, os);
    if merged.Err? {
      return data, false, false;
    }
    if !merged.value.changed {
      return data, false, true;
    }
    out := CopyWith(data, key, if d.wasBase64 then Encode(merged.value.text) else merged.value.text);
    return out, true, true;
  }

  /** `MergeSecretData`.  The input map is a value and its slices are not written to: an unchanged
      result shares them, a changed one shares none. */
  method MergeSecretData(y: Yaml, data: Slices, os: OSType) returns (out: Slices, key: string, changed: bool, ok: bool)
    ensures Contents(data) == old(Contents(data))
    ensures !ok ==> forall k :: IsSecretKey(data.Keys, k) ==> MergeAt(y, old(Contents(data)), k, os).Err?
    ensures ok ==> IsSecretKey(data.Keys, key)
                   && MergeAt(y, old(Contents(data)), key, os) == Ok(Outcome(Contents(out), key, changed))
    ensures ok && !changed ==> out == data
    ensures ok && changed ==> forall k :: k in out && out[k] != null ==> fresh(out[k])
  {
    hide MaybeDecodeBase64, Merge, LooksLikeUserData, MergeAt;
    var found := FindCloudInitSecretKey(data.Keys);
    if found.None? {
      return data, "", false, false;
    }
    key := found.value;
    forall k | IsSecretKey(data.Keys, k) ensures k == key { SecretKeyUnique(data.Keys, k, key); }
    out, changed, ok := MergeUnderKey(y, data, key, os);
  }
}
