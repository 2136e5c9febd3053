/** The Sysprep answer-file merge (internal/sysprepmerge/merge.go) on the parsed document. */
module Sysprep {
  import opened Wrappers
  import opened GoStrings

  const MAX_INT := 0x7FFF_FFFF_FFFF_FFFF

  /** Go's int on 64-bit platforms. */
  type int64 = x: int | -MAX_INT - 1 <= x <= MAX_INT

  datatype Command = Command(wcmAction: string, order: int64, description: string, path: string)

  datatype Component = Component(
    name: string, architecture: string, publicKeyToken: string, language: string, versionScope: string,
    xmlnsWcm: string, xmlnsXsi: string, run: Option<seq<Command>>)

  datatype Setting = Setting(pass: string, components: seq<Component>)

  const SPECIALIZE := "specialize"
  const DEPLOYMENT := "Microsoft-Windows-Deployment"
  const MANAGED_DESCRIPTION := "KubeVirt Observability Bootstrap"
  const SCRIPT_PATH := "C:\\ProgramData\\KubeVirtObservability\\bootstrap-kubevirt-observability.ps1"

  /** The command line; only the managed description and the script's path play a part. */
  const BOOTSTRAP_COMMAND := "powershell.exe " + SCRIPT_PATH

  const NEW_COMPONENT := Component(DEPLOYMENT, "amd64", "31bf3856ad364e35", "neutral", "nonSxS",
                                   "http://schemas.microsoft.com/WMIConfig/2002/State",
                                   "http://www.w3.org/2001/XMLSchema-instance", None)

  predicate IsSpecialize(s: Setting) {
    EqualFold(TrimSpace(s.pass), SPECIALIZE)
  }

  predicate IsDeployment(c: Component) {
    EqualFold(TrimSpace(c.name), DEPLOYMENT)
  }

  predicate IsManaged(c: Command) {
    || EqualFold(TrimSpace(c.description), MANAGED_DESCRIPTION)
    || Contains(ToLower(c.path), ToLower(SCRIPT_PATH))
  }

  /** The pass, the component and the command are recognised in any case and with white space around their
      names, the command also by its path alone. */
  lemma Recognised(s: Setting, comp: Component, cmd: Command, front: char, name: string, back: char)
    requires IsSpace(front) && IsSpace(back) && name != "" && !IsSpace(name[0]) && !IsSpace(name[|name| - 1])
    ensures var padded := [front] + name + [back];
            && (IsSpecialize(s.(pass := padded)) <==> EqualFold(name, "specialize"))
            && (IsDeployment(comp.(name := padded)) <==> EqualFold(name, "Microsoft-Windows-Deployment"))
            && (IsManaged(cmd.(description := padded))
                <==> EqualFold(name, "KubeVirt Observability Bootstrap") || Contains(ToLower(cmd.path), ToLower(SCRIPT_PATH)))
  {
    TrimSpacePadded(front, name, back);
    hide TrimSpace, EqualFold, Contains, ToLower;
  }

  /** Index of the first setting for the pass, or the length. */
  function SettingIndex(settings: seq<Setting>): (i: nat)
    ensures i <= |settings|
    ensures i < |settings| ==> IsSpecialize(settings[i])
    ensures forall j :: 0 <= j < i ==> !IsSpecialize(settings[j])
  {
    if settings == [] || IsSpecialize(settings[0]) then 0 else 1 + SettingIndex(settings[1..])
  }

  function ComponentIndex(components: seq<Component>): (i: nat)
    ensures i <= |components|
    ensures i < |components| ==> IsDeployment(components[i])
    ensures forall j :: 0 <= j < i ==> !IsDeployment(components[j])
  {
    if components == [] || IsDeployment(components[0]) then 0 else 1 + ComponentIndex(components[1..])
  }

  function OrElse(value: string, default: string): string {
    if value == "" then default else value
  }

  /** `ensureComponentAttrs`. */
  function Filled(c: Component): Component {
    Component(c.name, OrElse(c.architecture, NEW_COMPONENT.architecture),
              OrElse(c.publicKeyToken, NEW_COMPONENT.publicKeyToken), OrElse(c.language, NEW_COMPONENT.language),
              OrElse(c.versionScope, NEW_COMPONENT.versionScope), OrElse(c.xmlnsWcm, NEW_COMPONENT.xmlnsWcm),
              OrElse(c.xmlnsXsi, NEW_COMPONENT.xmlnsXsi), c.run)
  }

  function MaxOrder(cmds: seq<Command>): (m: int64)
    ensures m >= 0 && forall i :: 0 <= i < |cmds| ==> cmds[i].order <= m
    ensures m == 0 || exists i :: 0 <= i < |cmds| && cmds[i].order == m
  {
    if cmds == [] then 0
    else
      var last := |cmds| - 1;
      var m := MaxOrder(cmds[..last]);
      if cmds[last].order > m then cmds[last].order else m
  }

  /** Addition of one in 64 bits. */
  function Successor(x: int64): int64 {
    if x == MAX_INT then -MAX_INT - 1 else x + 1
  }

  method NextOrder(cmds: seq<Command>) returns (order: int64)
    ensures order == Successor(MaxOrder(cmds))
  {
    var max: int64 := 0;
    for i := 0 to |cmds|
      invariant max == MaxOrder(cmds[..i])
    {
      assert cmds[..i + 1][..i] == cmds[..i];
      if cmds[i].order > max {
        max := cmds[i].order;
      }
    }
    assert cmds[..|cmds|] == cmds;
    return Successor(max);
  }

  predicate HasManaged(cmds: seq<Command>) {
    exists i :: 0 <= i < |cmds| && IsManaged(cmds[i])
  }

  function ManagedCommand(order: int64): Command {
    Command("add", order, MANAGED_DESCRIPTION, BOOTSTRAP_COMMAND)
  }

  function Commands(c: Component): seq<Command> {
    if c.run.Some? then c.run.value else []
  }

  function WithCommand(c: Component): Component {
    var cmds := Commands(c);
    c.(run := Some(if HasManaged(cmds) then cmds else cmds + [ManagedCommand(Successor(MaxOrder(cmds)))]))
  }

  function MergeComponent(c: Component): Component {
    WithCommand(Filled(c))
  }

  /** The component the merge works on, as found or as added. */
  function TargetComponent(s: Setting): Component {
    var i := ComponentIndex(s.components);
    if i < |s.components| then s.components[i] else NEW_COMPONENT
  }

  function MergeSetting(s: Setting): Setting {
    var i := ComponentIndex(s.components);
    if i < |s.components| then s.(components := s.components[i := MergeComponent(s.components[i])])
    else s.(components := s.components + [MergeComponent(NEW_COMPONENT)])
  }

  function TargetSetting(settings: seq<Setting>): Setting {
    var i := SettingIndex(settings);
    if i < |settings| then settings[i] else Setting(SPECIALIZE, [])
  }

  function Merge(settings: seq<Setting>): seq<Setting> {
    var i := SettingIndex(settings);
    if i < |settings| then settings[i := MergeSetting(settings[i])]
    else settings + [MergeSetting(Setting(SPECIALIZE, []))]
  }

  /** Whether the merge appends its command. */
  predicate Appends(settings: seq<Setting>) {
    !HasManaged(Commands(TargetComponent(TargetSetting(settings))))
  }

  /** The document with one component replaced. */
  function Put(settings: seq<Setting>, s: nat, c: nat, comp: Component): seq<Setting>
    requires s < |settings| && c < |settings[s].components|
  {
    settings[s := settings[s].(components := settings[s].components[c := comp])]
  }

  lemma PutSame(settings: seq<Setting>, s: nat, c: nat)
    requires s < |settings| && c < |settings[s].components|
    ensures Put(settings, s, c, settings[s].components[c]) == settings
  {
    assert settings[s].components[c := settings[s].components[c]] == settings[s].components;
    assert settings[s := settings[s]] == settings;
  }

  lemma PutTwice(settings: seq<Setting>, s: nat, c: nat, first: Component, second: Component)
    requires s < |settings| && c < |settings[s].components|
    ensures Put(Put(settings, s, c, first), s, c, second) == Put(settings, s, c, second)
  {
    assert settings[s].components[c := first][c := second] == settings[s].components[c := second];
  }

  /** The document while it is being merged. */
  class Unattend {
    var settings: seq<Setting>

    constructor (settings: seq<Setting>)
      ensures this.settings == settings
    {
      this.settings := settings;
    }

    method EnsureSetting() returns (idx: nat)
      modifies this
      ensures idx == SettingIndex(old(settings)) && idx < |settings|
      ensures settings == if idx < |old(settings)| then old(settings) else old(settings) + [Setting(SPECIALIZE, [])]
    {
      for i := 0 to |settings|
        invariant settings == old(settings)
        invariant forall j :: 0 <= j < i ==> !IsSpecialize(settings[j])
      {
        if EqualFold(TrimSpace(settings[i].pass), SPECIALIZE) {
          return i;
        }
      }
      settings := settings + [Setting(SPECIALIZE, [])];
      return |settings| - 1;
    }

    method EnsureDeploymentComponent(s: nat) returns (idx: nat)
      requires s < |settings|
      modifies this
      ensures var before := old(settings[s]);
              && idx == ComponentIndex(before.components)
              && settings == old(settings)[s := before.(components :=
                   if idx < |before.components| then before.components[idx := Filled(before.components[idx])]
                   else before.components + [NEW_COMPONENT])]
    {
      var components := settings[s].components;
      for i := 0 to |components|
        invariant forall j :: 0 <= j < i ==> !IsDeployment(components[j])
      {
        if EqualFold(TrimSpace(components[i].name), DEPLOYMENT) {
          components := components[i := Filled(components[i])];
          settings := settings[s := settings[s].(components := components)];
          return i;
        }
      }
      settings := settings[s := settings[s].(components := components + [NEW_COMPONENT])];
      return |components|;
    }

    /** The second half of `ensureBootstrapCommand`: look for the command, or append it. */
    method EnsureCommandIn(s: nat, c: nat) returns (changed: bool)
      requires s < |settings| && c < |settings[s].components|
      modifies this
      ensures var comp := old(settings[s].components[c]);
              && settings == Put(old(settings), s, c, WithCommand(comp))
              && (changed <==> !HasManaged(Commands(comp)))
    {
      hide IsManaged;
      var comp := settings[s].components[c];
      PutSame(settings, s, c);
      if comp.run.None? {
        comp := comp.(run := Some([]));
        settings := Put(settings, s, c, comp);
      }
      var cmds := comp.run.value;
      for i := 0 to |cmds|
        invariant settings == Put(old(settings), s, c, comp)
        invariant forall j :: 0 <= j < i ==> !IsManaged(cmds[j])
      {
        if IsManaged(cmds[i]) {
          return false;
        }
      }
      var order := NextOrder(cmds);
      PutTwice(old(settings), s, c, settings[s].components[c], comp.(run := Some(cmds + [ManagedCommand(order)])));
      comp := comp.(run := Some(cmds + [ManagedCommand(order)]));
      settings := Put(settings, s, c, comp);
      return true;
    }

    /** `ensureBootstrapCommand`. */
    method EnsureBootstrapCommand() returns (changed: bool)
      modifies this
      ensures settings == Merge(old(settings))
      ensures changed <==> Appends(old(settings))
    {
      hide IsManaged, IsSpecialize, IsDeployment, WithCommand, HasManaged;
      FilledNew();
      ghost var before, target := settings, TargetSetting(settings);
      var s := EnsureSetting();
      assert settings[s] == target;
      var c := EnsureDeploymentComponent(s);
      assert settings[s].components[c] == Filled(TargetComponent(target));
      changed := EnsureCommandIn(s, c);
      PlacedAfter(before, settings, MergeComponent(TargetComponent(target)));
    }
  }

  /** A document that differs from the original in the target component alone is the original with
      that component put in place. */
  lemma PlacedAfter(before: seq<Setting>, after: seq<Setting>, comp: Component)
    requires var s, target := SettingIndex(before), TargetSetting(before);
             var c := ComponentIndex(target.components);
             && s < |after| && |after| == (if s < |before| then |before| else |before| + 1)
             && (forall j :: 0 <= j < |before| && j != s ==> after[j] == before[j])
             && after[s].pass == target.pass && c < |after[s].components|
             && |after[s].components| == (if c < |target.components| then |target.components| else |target.components| + 1)
             && (forall j :: 0 <= j < |target.components| && j != c ==> after[s].components[j] == target.components[j])
             && after[s].components[c] == comp
    ensures after == Placed(before, SettingIndex(before), ComponentIndex(TargetSetting(before).components), comp)
  {
    hide IsSpecialize, IsDeployment;
    var s, target := SettingIndex(before), TargetSetting(before);
    var c := ComponentIndex(target.components);
    var components := if c < |target.components| then target.components[c := comp] else target.components + [comp];
    assert after[s].components == components;
    assert after[s] == target.(components := components);
  }

  lemma FilledNew()
    ensures Filled(NEW_COMPONENT) == NEW_COMPONENT
  {
  }

  /** The document with the component put where the merge works. */
  ghost function Placed(before: seq<Setting>, s: nat, c: nat, comp: Component): seq<Setting>
    requires s == SettingIndex(before) && c == ComponentIndex(TargetSetting(before).components)
  {
    var target := TargetSetting(before);
    var components := if c < |target.components| then target.components[c := comp] else target.components + [comp];
    if s < |before| then before[s := target.(components := components)] else before + [target.(components := components)]
  }

  // ---------------------------------------------------------------- properties

  lemma ManagedIsManaged(order: int64)
    ensures IsManaged(ManagedCommand(order))
  {
    assert TrimSpace(MANAGED_DESCRIPTION) == MANAGED_DESCRIPTION by {
      assert !IsSpace(MANAGED_DESCRIPTION[0]) && !IsSpace(MANAGED_DESCRIPTION[|MANAGED_DESCRIPTION| - 1]);
    }
  }

  lemma MergeComponentTwice(c: Component)
    ensures HasManaged(Commands(MergeComponent(c)))
    ensures MergeComponent(MergeComponent(c)) == MergeComponent(c)
  {
    var cmds := Commands(c);
    var after := Commands(MergeComponent(c));
    ManagedIsManaged(Successor(MaxOrder(cmds)));
    hide IsManaged;
    if !HasManaged(cmds) { assert IsManaged(after[|after| - 1]); }
  }

  lemma {:induction false} IndexAfterUpdate(settings: seq<Setting>, s: Setting)
    requires IsSpecialize(s)
    ensures var i := SettingIndex(settings);
            SettingIndex(if i < |settings| then settings[i := s] else settings + [s]) == i
  {
    hide IsSpecialize;
    var i := SettingIndex(settings);
    var after := if i < |settings| then settings[i := s] else settings + [s];
    FirstIndexUnique(after, SettingIndex(after), i);
  }

  lemma FirstIndexUnique(settings: seq<Setting>, a: nat, b: nat)
    requires a <= |settings| && b < |settings| && IsSpecialize(settings[b])
    requires (a < |settings| ==> IsSpecialize(settings[a])) && (forall j :: 0 <= j < a ==> !IsSpecialize(settings[j]))
    requires forall j :: 0 <= j < b ==> !IsSpecialize(settings[j])
    ensures a == b
  {
  }

  lemma ComponentIndexAfterUpdate(components: seq<Component>, c: Component)
    requires IsDeployment(c)
    ensures var i := ComponentIndex(components);
            ComponentIndex(if i < |components| then components[i := c] else components + [c]) == i
  {
    hide IsDeployment;
    var i := ComponentIndex(components);
    var after := if i < |components| then components[i := c] else components + [c];
    var k := ComponentIndex(after);
    assert IsDeployment(after[i]);
  }

  lemma NewNamesMatch()
    ensures IsDeployment(NEW_COMPONENT)
    ensures forall components :: IsSpecialize(Setting(SPECIALIZE, components))
  {
    assert TrimSpace(DEPLOYMENT) == DEPLOYMENT by { assert !IsSpace(DEPLOYMENT[0]) && !IsSpace(DEPLOYMENT[|DEPLOYMENT| - 1]); }
    assert TrimSpace(SPECIALIZE) == SPECIALIZE by { assert !IsSpace(SPECIALIZE[0]) && !IsSpace(SPECIALIZE[|SPECIALIZE| - 1]); }
  }

  lemma MergedComponentMatches(s: Setting)
    ensures IsDeployment(MergeComponent(TargetComponent(s)))
  {
    NewNamesMatch();
    var target := TargetComponent(s);
    assert MergeComponent(target).name == target.name;
  }

  lemma MergeSettingTwice(s: Setting)
    ensures MergeSetting(MergeSetting(s)) == MergeSetting(s)
    ensures HasManaged(Commands(TargetComponent(MergeSetting(s))))
  {
    hide IsDeployment, MergeComponent, HasManaged;
    var i, done := ComponentIndex(s.components), MergeComponent(TargetComponent(s));
    var components := if i < |s.components| then s.components[i := done] else s.components + [done];
    MergedComponentMatches(s);
    MergeComponentTwice(TargetComponent(s));
    ComponentIndexAfterUpdate(s.components, done);
    assert MergeSetting(s) == s.(components := components);
    assert components[i] == done && components[i := done] == components;
  }

  lemma MergedSettingMatches(settings: seq<Setting>)
    ensures IsSpecialize(MergeSetting(TargetSetting(settings)))
  {
    NewNamesMatch();
    var target := TargetSetting(settings);
    assert MergeSetting(target).pass == target.pass;
  }

  /** A second merge is the identity and appends nothing. */
  lemma MergeTwice(settings: seq<Setting>)
    ensures Merge(Merge(settings)) == Merge(settings)
    ensures !Appends(Merge(settings))
  {
    hide IsSpecialize, MergeSetting, HasManaged;
    var i, done := SettingIndex(settings), MergeSetting(TargetSetting(settings));
    var after := if i < |settings| then settings[i := done] else settings + [done];
    MergedSettingMatches(settings);
    MergeSettingTwice(TargetSetting(settings));
    IndexAfterUpdate(settings, done);
    assert Merge(settings) == after;
    assert after[i] == done && after[i := done] == after;
  }

  predicate OnlyBlanksFilled(before: Component, after: Component) {
    && after.name == before.name
    && (before.architecture != "" ==> after.architecture == before.architecture)
    && (before.publicKeyToken != "" ==> after.publicKeyToken == before.publicKeyToken)
    && (before.language != "" ==> after.language == before.language)
    && (before.versionScope != "" ==> after.versionScope == before.versionScope)
    && (before.xmlnsWcm != "" ==> after.xmlnsWcm == before.xmlnsWcm)
    && (before.xmlnsXsi != "" ==> after.xmlnsXsi == before.xmlnsXsi)
  }

  /** What a blank is filled with: the attributes Windows expects of the component. */
  lemma BlanksFilledWith(c: Component)
    ensures var after := Filled(c);
            && (c.architecture == "" ==> after.architecture == "amd64")
            && (c.publicKeyToken == "" ==> after.publicKeyToken == "31bf3856ad364e35")
            && (c.language == "" ==> after.language == "neutral")
            && (c.versionScope == "" ==> after.versionScope == "nonSxS")
            && (c.xmlnsWcm == "" ==> after.xmlnsWcm == "http://schemas.microsoft.com/WMIConfig/2002/State")
            && (c.xmlnsXsi == "" ==> after.xmlnsXsi == "http://www.w3.org/2001/XMLSchema-instance")
            && after.name == c.name && after.run == c.run
  {
  }

  /** The appended command adds a step of the given order that runs the script and is recognised by its
      description as well as by the script's path. */
  lemma CommandWritten(order: int64)
    ensures var c := ManagedCommand(order);
            && c.wcmAction == "add" && c.order == order && c.description == MANAGED_DESCRIPTION
            && Contains(c.path, SCRIPT_PATH) && IsManaged(c) && IsManaged(c.(description := "", order := 0))
  {
    var c := ManagedCommand(order);
    ManagedIsManaged(order);
    var shell := "powershell.exe ";
    assert c.path == shell + SCRIPT_PATH;
    assert c.path[|shell|..|shell| + |SCRIPT_PATH|] == SCRIPT_PATH;
    assert OccursAt(c.path, SCRIPT_PATH, |shell|);
    LowerContains(c.path, SCRIPT_PATH, |shell|);
  }

  lemma LowerContains(s: string, sub: string, at: nat)
    requires OccursAt(s, sub, at)
    ensures Contains(ToLower(s), ToLower(sub))
  {
    var low := ToLower(s)[at..at + |sub|];
    forall i | 0 <= i < |sub| ensures low[i] == ToLower(sub)[i] { assert s[at..at + |sub|][i] == sub[i]; }
    assert low == ToLower(sub);
    assert OccursAt(ToLower(s), ToLower(sub), at);
  }

  /** Everything but one component of one setting stays as it was; in that component only blank
      attributes are filled and its commands, if they change at all, gain one at the end. */
  lemma NothingElseTouched(settings: seq<Setting>)
    ensures var after, i := Merge(settings), SettingIndex(settings);
            && |settings| <= |after| <= |settings| + 1
            && (forall j :: 0 <= j < |settings| && j != i ==> after[j] == settings[j])
            && i < |after| && after[i].pass == TargetSetting(settings).pass
            && var before, c := TargetSetting(settings).components, ComponentIndex(TargetSetting(settings).components);
               var components := after[i].components;
            && |before| <= |components| <= |before| + 1
            && (forall j :: 0 <= j < |before| && j != c ==> components[j] == before[j])
            && c < |components| && components[c].run.Some?
            && (c < |before| ==> OnlyBlanksFilled(before[c], components[c]))
            && var cmds := Commands(TargetComponent(TargetSetting(settings)));
               components[c].run.value == if Appends(settings) then cmds + [ManagedCommand(Successor(MaxOrder(cmds)))] else cmds
  {
    hide IsDeployment, IsSpecialize, IsManaged;
  }

  predicate DistinctOrders(cmds: seq<Command>) {
    forall i, j :: 0 <= i < j < |cmds| ==> cmds[i].order != cmds[j].order
  }

  /** The appended order exceeds every existing one, and distinct orders stay distinct, exactly when
      the largest one leaves room for a successor; with the largest 64-bit order present the
      appended one wraps to the smallest. */
  lemma AppendedOrderIsLargestIff(cmds: seq<Command>)
    ensures (forall i :: 0 <= i < |cmds| ==> cmds[i].order < Successor(MaxOrder(cmds)))
            <==> (forall i :: 0 <= i < |cmds| ==> cmds[i].order != MAX_INT)
    ensures (forall i :: 0 <= i < |cmds| ==> cmds[i].order != MAX_INT) && DistinctOrders(cmds) ==>
              DistinctOrders(cmds + [ManagedCommand(Successor(MaxOrder(cmds)))])
  {
    var m := MaxOrder(cmds);
    if m == MAX_INT {
      var i :| 0 <= i < |cmds| && cmds[i].order == m;
      assert cmds[i].order > Successor(m);
    }
  }

  lemma NotAppended(settings: seq<Setting>)
    requires !Appends(settings)
    ensures var s := SettingIndex(settings);
            && s < |settings| && ComponentIndex(settings[s].components) < |settings[s].components|
            && TargetSetting(settings) == settings[s]
            && MergeComponent(TargetComponent(settings[s])) == Filled(TargetComponent(settings[s]))
  {
    hide IsManaged, IsSpecialize, IsDeployment;
  }

  /** The document comes out different exactly when the command is appended or a blank is filled. */
  lemma DiffersIff(settings: seq<Setting>)
    ensures var t := TargetComponent(TargetSetting(settings));
            Merge(settings) != settings <==> Appends(settings) || Filled(t) != t
  {
    hide IsManaged, IsSpecialize, IsDeployment, Appends, MergeComponent, Filled;
    if Appends(settings) {
      MergeTwice(settings);
    } else {
      NotAppended(settings);
      var s := SettingIndex(settings);
      var c := ComponentIndex(settings[s].components);
      var t := settings[s].components[c];
      PutSame(settings, s, c);
      assert Merge(settings) == Put(settings, s, c, Filled(t));
      assert Merge(settings)[s].components[c] == Filled(t);
    }
  }

  /** `changed` is truthful exactly when the command is appended or the component has no blank. */
  lemma ChangedTruthfulIff(settings: seq<Setting>)
    ensures var t := TargetComponent(TargetSetting(settings));
            (Appends(settings) <==> Merge(settings) != settings) <==> Appends(settings) || Filled(t) == t
  {
    hide Appends, Merge, Filled, TargetComponent, TargetSetting;
    DiffersIff(settings);
  }

  /** `changed` speaks of the command only: a document that already has it can come out different
      (a blank attribute filled) with changed = false. */
  lemma UnchangedYetDifferent()
    ensures var settings := [Setting(SPECIALIZE, [NEW_COMPONENT.(language := "", run := Some([ManagedCommand(1)]))])];
            !Appends(settings) && Merge(settings) != settings
  {
    NewNamesMatch();
    ManagedIsManaged(1);
    var blank := NEW_COMPONENT.(language := "", run := Some([ManagedCommand(1)]));
    var settings := [Setting(SPECIALIZE, [blank])];
    assert IsDeployment(blank) && IsSpecialize(settings[0]);
    hide IsDeployment, IsSpecialize, IsManaged;
    assert TargetSetting(settings) == settings[0] && TargetComponent(settings[0]) == blank;
    assert IsManaged(Commands(blank)[0]);
    assert Merge(settings)[0].components[0].language == "neutral";
  }
}
