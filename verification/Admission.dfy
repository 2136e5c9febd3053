/** What admission means beyond the webhook: what becomes of the user's inline data, and which
    annotations a new VM enters the protocol with. */
module Admission {
  import opened Wrappers
  import opened Api
  import opened OsDetect
  import opened GoBytes
  import opened CloudInitMerge
  import CloudConfig
  import opened VmPatch
  import ReconcileStep
  import StepFacts

  // ---------------------------------------------------------------- inline data

  /** The data of a source, whichever kind it is. */
  function AsSource(drive: ConfigDrive): NoCloud {
    NoCloud(drive.userData, drive.userDataBase64, None)
  }

  lemma StoredHoldsText(y: Yaml, os: CloudConfig.OSType, before: NoCloud)
    requires ReadInline(before.userData, before.userDataBase64).Ok?
    requires Merge(y, ReadInline(before.userData, before.userDataBase64).value.text, os).Ok?
    ensures var inline := ReadInline(before.userData, before.userDataBase64).value;
            var (plain, encoded) := Stored(Merge(y, inline.text, os).value.text, inline.isBase64);
            HoldsText(y, os, before, NoCloud(plain, encoded, None))
  {
    hide Merge, ReadInline, InlineText, FieldHolds, Stored;
    var inline := ReadInline(before.userData, before.userDataBase64).value;
    StoredHolds(Merge(y, inline.text, os).value.text, inline.isBase64);
  }

  lemma StoredHoldsIfReadable(y: Yaml, os: CloudConfig.OSType, before: NoCloud)
    ensures ReadInline(before.userData, before.userDataBase64).Ok?
            && Merge(y, ReadInline(before.userData, before.userDataBase64).value.text, os).Ok? ==>
              var inline := ReadInline(before.userData, before.userDataBase64).value;
              var (plain, encoded) := Stored(Merge(y, inline.text, os).value.text, inline.isBase64);
              HoldsText(y, os, before, NoCloud(plain, encoded, None))
  {
    hide Merge, ReadInline, HoldsText, Stored;
    if ReadInline(before.userData, before.userDataBase64).Ok? {
      if Merge(y, ReadInline(before.userData, before.userDataBase64).value.text, os).Ok? { StoredHoldsText(y, os, before); }
    }
  }

  /** The user's data are still what the guest will read: merged, or as they were. */
  predicate Survives(y: Yaml, os: CloudConfig.OSType, before: NoCloud, after: NoCloud) {
    HoldsText(y, os, before, after) || after == before
  }

  /** Windows data that a NoCloud volume cannot hold once merged, and that are no raw script. */
  predicate MovedOut(y: Yaml, family: Family, source: NoCloud) {
    && family == Windows
    && !IsPowershell(source.userData, source.userDataBase64)
    && TooLong(y, source.userData, source.userDataBase64, CloudConfig.OSWindows)
  }

  lemma LinuxVolume(y: Yaml, vm: Vm, idx: nat)
    requires idx < |vm.volumes| && vm.volumes[idx].noCloud.Some? && vm.volumes[idx].noCloud.value.secretRef.None?
    ensures MergeLinuxNoCloud(y, vm, idx).Ok? ==>
              var after := MergeLinuxNoCloud(y, vm, idx).value;
              && idx < |after.volumes| && after.volumes[idx].noCloud.Some?
              && Survives(y, CloudConfig.OSLinux, vm.volumes[idx].noCloud.value, after.volumes[idx].noCloud.value)
  {
    StoredHoldsIfReadable(y, CloudConfig.OSLinux, vm.volumes[idx].noCloud.value);
    hide Merge, ReadInline, Stored, HoldsText, HasSSHAccess, SSHUser, Get;
  }

  lemma WindowsVolume(y: Yaml, vm: Vm, idx: nat)
    requires idx < |vm.volumes| && vm.volumes[idx].noCloud.Some? && vm.volumes[idx].noCloud.value.secretRef.None?
    ensures MergeWindowsNoCloud(y, vm, idx).Ok? ==>
              var after, source := MergeWindowsNoCloud(y, vm, idx).value, vm.volumes[idx].noCloud.value;
              && idx < |after.volumes| && after.volumes[idx].noCloud.Some?
              && if MovedOut(y, Windows, source) then after.volumes[idx].noCloud.value == NoCloud([], [], Some(vm.name + "-cloudinit"))
                 else Survives(y, CloudConfig.OSWindows, source, after.volumes[idx].noCloud.value)
  {
    StoredHoldsIfReadable(y, CloudConfig.OSWindows, vm.volumes[idx].noCloud.value);
    hide Merge, ReadInline, Stored, HoldsText, StartsWith, Get;
  }

  /** The user's inline data survive admission exactly when they are not Windows data too long for a
      NoCloud volume.  Those are emptied out of the VM, which then refers to a Secret of its name. */
  lemma InlineSurvivesIff(y: Yaml, vm: Vm)
    requires Get(AnnOf(vm), AnnDisableMonitoring) != True && Detect(vm.labels) != Unknown
    requires DetectBootstrap(vm.volumes).OnNoCloud?
    requires vm.volumes[DetectBootstrap(vm.volumes).index].noCloud.value.secretRef.None?
    ensures Ensure(y, vm).Ok? ==>
              var family, idx, after := Detect(vm.labels), DetectBootstrap(vm.volumes).index, Ensure(y, vm).value;
              var before := vm.volumes[idx].noCloud.value;
              && idx < |after.volumes| && after.volumes[idx].noCloud.Some?
              && (Survives(y, OSFor(family), before, after.volumes[idx].noCloud.value) <==> !MovedOut(y, family, before))
              && (MovedOut(y, family, before) ==> after.volumes[idx].noCloud.value == NoCloud([], [], Some(vm.name + "-cloudinit")))
  {
    var family, b := Detect(vm.labels), DetectBootstrap(vm.volumes);
    var shared := if vm.ann.Some? then vm.(ann := Some(Stamped(AnnOf(vm), b, family))) else vm;
    LinuxVolume(y, shared, b.index);
    WindowsVolume(y, shared, b.index);
    hide MergeLinuxNoCloud, MergeWindowsNoCloud, Stamped, Detect, HasSSHAccess, Get, ReadInline, IsPowershell, TooLong, InlineText,
         FieldHolds, Merge;
  }

  /** Two VMs that differ only in the inline data of one NoCloud volume. */
  predicate SameButData(a: Vm, b: Vm, idx: nat) {
    && idx < |a.volumes| && idx < |b.volumes| && a.volumes[idx].noCloud.Some? && b.volumes[idx].noCloud.Some?
    && WithNoCloud(a, idx, b.volumes[idx].noCloud.value) == b
  }

  lemma MovedVolume(y: Yaml, vm: Vm, idx: nat)
    requires idx < |vm.volumes| && vm.volumes[idx].noCloud.Some? && vm.volumes[idx].noCloud.value.secretRef.None?
    requires MovedOut(y, Windows, vm.volumes[idx].noCloud.value)
    ensures MergeWindowsNoCloud(y, vm, idx)
            == Ok(WithMark(WithNoCloud(vm, idx, NoCloud([], [], Some(SecretName(vm)))), AnnCloudInitSecretMergeRequired))
  {
    hide Merge, ReadInline, StartsWith;
  }

  lemma SameBootstrap(a: Vm, b: Vm, idx: nat)
    requires SameButData(a, b, idx) && DetectBootstrap(a.volumes) == OnNoCloud(idx)
    ensures DetectBootstrap(b.volumes) == OnNoCloud(idx)
  {
    FirstNoCloud(b.volumes, 0, idx);
  }

  lemma {:induction false} FirstNoCloud(volumes: seq<Volume>, from: nat, idx: nat)
    requires from <= idx < |volumes| && volumes[idx].noCloud.Some?
    requires forall i :: from <= i < idx ==> !CarriesBootstrap(volumes[i])
    ensures DetectBootstrap(volumes, from) == OnNoCloud(idx)
    decreases idx - from
  {
    if from < idx {
      assert !CarriesBootstrap(volumes[from]);
      FirstNoCloud(volumes, from + 1, idx);
    }
  }

  /** Data that are moved out are forgotten: whatever they were, the admitted VM is the same one, so
      nothing that happens later, and no Secret that is made for it, can depend on them. */
  lemma MovedOutIsForgotten(y: Yaml, vm: Vm, other: Vm, idx: nat)
    requires Get(AnnOf(vm), AnnDisableMonitoring) != True && Detect(vm.labels) == Windows
    requires SameButData(vm, other, idx) && DetectBootstrap(vm.volumes) == OnNoCloud(idx)
    requires vm.volumes[idx].noCloud.value.secretRef.None? && other.volumes[idx].noCloud.value.secretRef.None?
    requires MovedOut(y, Windows, vm.volumes[idx].noCloud.value) && MovedOut(y, Windows, other.volumes[idx].noCloud.value)
    ensures Ensure(y, vm).Ok? && Ensure(y, vm) == Ensure(y, other)
  {
    SameBootstrap(vm, other, idx);
    var b := OnNoCloud(idx);
    var top := Stamped(AnnOf(vm), b, Windows);
    var shared := if vm.ann.Some? then vm.(ann := Some(top)) else vm;
    var shared' := if vm.ann.Some? then other.(ann := Some(top)) else other;
    MovedVolume(y, shared, idx);
    MovedVolume(y, shared', idx);
    var empty := NoCloud([], [], Some(SecretName(vm)));
    assert WithNoCloud(shared, idx, empty) == WithNoCloud(shared', idx, empty) by { hide Stamped, Detect, DetectBootstrap; }
    hide MergeWindowsNoCloud, Stamped, Detect, DetectBootstrap, HasSSHAccess, MovedOut, WithNoCloud, WithMark, Get;
  }

  lemma DriveVolume(y: Yaml, vm: Vm, idx: nat, family: Family)
    requires idx < |vm.volumes| && vm.volumes[idx].configDrive.Some? && family != Unknown
    ensures var merged := if family == Linux then MergeLinuxConfigDrive(y, vm, idx) else MergeWindowsConfigDrive(y, vm, idx);
            merged.Ok? ==>
              var source, after := vm.volumes[idx].configDrive.value, merged.value;
              && |after.volumes| == |vm.volumes|
              && (forall i :: 0 <= i < |vm.volumes| && i != idx ==> after.volumes[i] == vm.volumes[i])
              && after.volumes[idx].configDrive.Some?
              && if family == Windows && TooLong(y, source.userData, source.userDataBase64, CloudConfig.OSWindows)
                 then after.volumes[idx].configDrive.value == source
                 else HoldsText(y, OSFor(family), AsSource(source), AsSource(after.volumes[idx].configDrive.value))
  {
    StoredHoldsIfReadable(y, OSFor(family), AsSource(vm.volumes[idx].configDrive.value));
    hide Merge, ReadInline, Stored, HoldsText, HasSSHAccess, SSHUser, Get;
  }

  /** A config-drive holds its merged text afterwards, of whatever length for Linux, and is left as it
      was exactly where the Windows text would be too long. */
  lemma ConfigDriveHoldsMerged(y: Yaml, vm: Vm)
    requires Get(AnnOf(vm), AnnDisableMonitoring) != True && Detect(vm.labels) != Unknown
    requires DetectBootstrap(vm.volumes).OnConfigDrive?
    ensures Ensure(y, vm).Ok? ==>
              var family, idx, after := Detect(vm.labels), DetectBootstrap(vm.volumes).index, Ensure(y, vm).value;
              var source := vm.volumes[idx].configDrive.value;
              && |after.volumes| == |vm.volumes|
              && (forall i :: 0 <= i < |vm.volumes| && i != idx ==> after.volumes[i] == vm.volumes[i])
              && after.volumes[idx].configDrive.Some?
              && if family == Windows && TooLong(y, source.userData, source.userDataBase64, CloudConfig.OSWindows)
                 then after.volumes[idx].configDrive.value == source
                 else HoldsText(y, OSFor(family), AsSource(source), AsSource(after.volumes[idx].configDrive.value))
  {
    var family, b := Detect(vm.labels), DetectBootstrap(vm.volumes);
    var shared := if vm.ann.Some? then vm.(ann := Some(Stamped(AnnOf(vm), b, family))) else vm;
    DriveVolume(y, shared, b.index, family);
    hide MergeLinuxConfigDrive, MergeWindowsConfigDrive, Stamped, Detect, HasSSHAccess, Get, HoldsText, TooLong;
  }

  // ---------------------------------------------------------------- the annotations of a new VM

  /** The names the webhook writes or deletes. */
  predicate WebhookWrites(key: Key) {
    || key.AnnBootstrapManaged? || key.AnnBootstrapVersion? || key.AnnBootstrapType? || key.AnnLoggingEnabled? || key.AnnLegacyAlloy?
    || key.AnnBootstrapOS? || key.AnnExporter? || key.AnnCloudInitSecretMergeRequired? || key.AnnSysprepMergeRequired?
    || key.AnnBootstrapInlineSkipped? || key.AnnRemediationRequired? || key.AnnRemediationReason?
  }

  lemma StampedWords(ann: Annotations, b: Bootstrap, family: Family, mark: Mark)
    ensures var a := Marked(Stamped(ann, b, family), mark);
            && Get(a, AnnBootstrapManaged) == True && Get(a, AnnBootstrapVersion) == BootstrapV1
            && Get(a, AnnBootstrapOS) == (match family case Linux => LinuxOS case Windows => WindowsOS case Unknown => UnknownOS)
            && Get(a, AnnExporter) == (match family case Linux => NodeExporter case Windows => WindowsExporter case Unknown => UnknownOS)
            && Get(a, AnnBootstrapType)
               == BootstrapKind(match b case OnNoCloud(_) => 0 case OnConfigDrive(_) => 1 case OnSysprep(_) => 2 case NoBootstrap => 3)
            && Get(a, AnnLoggingEnabled) == (if AnnLoggingEnabled in ann then ann[AnnLoggingEnabled] else True)
            && AnnLegacyAlloy !in a
  {
    hide Marked;
    StampedOnly(ann, b, family);
    MarkedElsewhere(Stamped(ann, b, family), mark);
    hide Stamped;
  }

  lemma StampedOnly(ann: Annotations, b: Bootstrap, family: Family)
    ensures var a := Stamped(ann, b, family);
            && Get(a, AnnBootstrapManaged) == True && Get(a, AnnBootstrapVersion) == BootstrapV1
            && Get(a, AnnBootstrapOS) == (match family case Linux => LinuxOS case Windows => WindowsOS case Unknown => UnknownOS)
            && Get(a, AnnExporter) == (match family case Linux => NodeExporter case Windows => WindowsExporter case Unknown => UnknownOS)
            && Get(a, AnnBootstrapType)
               == BootstrapKind(match b case OnNoCloud(_) => 0 case OnConfigDrive(_) => 1 case OnSysprep(_) => 2 case NoBootstrap => 3)
            && Get(a, AnnLoggingEnabled) == (if AnnLoggingEnabled in ann then ann[AnnLoggingEnabled] else True)
            && AnnLegacyAlloy !in a
  {
  }

  lemma MarkedElsewhere(ann: Annotations, mark: Mark)
    ensures var a := Marked(ann, mark);
            && Get(a, AnnBootstrapManaged) == Get(ann, AnnBootstrapManaged) && Get(a, AnnBootstrapVersion) == Get(ann, AnnBootstrapVersion)
            && Get(a, AnnBootstrapOS) == Get(ann, AnnBootstrapOS) && Get(a, AnnExporter) == Get(ann, AnnExporter)
            && Get(a, AnnBootstrapType) == Get(ann, AnnBootstrapType) && Get(a, AnnLoggingEnabled) == Get(ann, AnnLoggingEnabled)
            && (AnnLegacyAlloy in a <==> AnnLegacyAlloy in ann)
  {
  }

  lemma OthersStay(ann: Annotations, b: Bootstrap, family: Family, mark: Mark, key: Key)
    requires !WebhookWrites(key)
    ensures StepFacts.SameAt(ann, Marked(Stamped(ann, b, family), mark), key)
  {
    StampedStays(ann, b, family, key);
    hide Stamped;
  }

  lemma StampedStays(ann: Annotations, b: Bootstrap, family: Family, key: Key)
    requires !WebhookWrites(key)
    ensures StepFacts.SameAt(ann, Stamped(ann, b, family), key)
  {
  }

  /** What the annotations of an admitted VM say: that it is managed, its OS and exporter, the kind of its
      first bootstrap volume, and that it wants logs unless its owner has said something about that.  The
      owner's other annotations stay. */
  lemma AdmittedWords(y: Yaml, vm: Vm, key: Key)
    requires Get(AnnOf(vm), AnnDisableMonitoring) != True && Detect(vm.labels) != Unknown
    ensures Ensure(y, vm).Ok? ==>
              var before, a, b := AnnOf(vm), AnnOf(Ensure(y, vm).value), DetectBootstrap(vm.volumes);
              && Get(a, AnnBootstrapManaged) == True && Get(a, AnnBootstrapVersion) == BootstrapV1
              && (Detect(vm.labels) == Linux ==> Get(a, AnnBootstrapOS) == LinuxOS && Get(a, AnnExporter) == NodeExporter)
              && (Detect(vm.labels) == Windows ==> Get(a, AnnBootstrapOS) == WindowsOS && Get(a, AnnExporter) == WindowsExporter)
              && Get(a, AnnBootstrapType)
                 == BootstrapKind(match b case OnNoCloud(_) => 0 case OnConfigDrive(_) => 1 case OnSysprep(_) => 2 case NoBootstrap => 3)
              && Get(a, AnnLoggingEnabled) == (if AnnLoggingEnabled in before then before[AnnLoggingEnabled] else True)
              && AnnLegacyAlloy !in a
              && (!WebhookWrites(key) ==> StepFacts.SameAt(before, a, key))
  {
    var family, b := Detect(vm.labels), DetectBootstrap(vm.volumes);
    var mark := if vm.ann.Some? then MarkFor(y, family, vm.volumes) else NoMark;
    AnnotationsOfAdmitted(y, vm);
    StampedWords(AnnOf(vm), b, family, mark);
    NoMarkIsNone(Stamped(AnnOf(vm), b, family));
    if !WebhookWrites(key) { OthersStay(AnnOf(vm), b, family, mark, key); }
    hide Ensure, Stamped, Marked, MarkFor, Detect, StepFacts.SameAt, Get, WebhookWrites;
  }

  // ---------------------------------------------------------------- entering the protocol

  lemma StampedKeepsProtocol(ann: Annotations, b: Bootstrap, family: Family, mark: Mark)
    ensures var s := Marked(Stamped(ann, b, family), mark);
            && ReconcileStep.Managed(s)
            && (ReconcileStep.Completed(s) <==> ReconcileStep.Completed(ann))
            && (ReconcileStep.RemediationDue(s) <==> ReconcileStep.RemediationDue(ann) || mark.RemediationMark?)
            && (AnnRemediationError in s <==> AnnRemediationError in ann)
            && (AnnAlloyConfigHash in s <==> AnnAlloyConfigHash in ann)
            && (AnnAlloyConfigHash in s ==> s[AnnAlloyConfigHash] == ann[AnnAlloyConfigHash])
  {
    StampedKeepsRecord(ann, b, family);
    hide Stamped;
  }

  lemma StampedKeepsRecord(ann: Annotations, b: Bootstrap, family: Family)
    ensures var s := Stamped(ann, b, family);
            && Get(s, AnnBootstrapManaged) == True
            && Get(s, AnnRemediationCompleted) == Get(ann, AnnRemediationCompleted)
            && Get(s, AnnRemediationRequired) == Get(ann, AnnRemediationRequired)
            && (AnnRemediationError in s <==> AnnRemediationError in ann)
            && (AnnAlloyConfigHash in s <==> AnnAlloyConfigHash in ann)
            && (AnnAlloyConfigHash in s ==> s[AnnAlloyConfigHash] == ann[AnnAlloyConfigHash])
  {
  }

  /** An admitted VM starts the protocol with the record kept, as the theorems about runs want it,
      exactly when it did not bring a completed remediation together with an error, a pending one or
      user data that earn a new one.  An Alloy hash it brings, from an exported manifest say, stays. */
  lemma AdmittedKeepsRecordIff(y: Yaml, vm: Vm)
    requires Get(AnnOf(vm), AnnDisableMonitoring) != True && Detect(vm.labels) != Unknown
    ensures Ensure(y, vm).Ok? ==>
              var before, after := AnnOf(vm), AnnOf(Ensure(y, vm).value);
              && (StepFacts.RecordKept(after)
                  <==> (ReconcileStep.Completed(before) ==>
                          && AnnRemediationError !in before && !ReconcileStep.RemediationDue(before)
                          && !MarkFor(y, Detect(vm.labels), vm.volumes).RemediationMark?))
              && (AnnAlloyConfigHash in after <==> AnnAlloyConfigHash in before)
              && (AnnAlloyConfigHash in after ==> after[AnnAlloyConfigHash] == before[AnnAlloyConfigHash])
  {
    var family, b := Detect(vm.labels), DetectBootstrap(vm.volumes);
    var mark := if vm.ann.Some? then MarkFor(y, family, vm.volumes) else NoMark;
    AnnotationsOfAdmitted(y, vm);
    StampedKeepsProtocol(AnnOf(vm), b, family, mark);
    hide Ensure, Stamped, Marked, MarkFor, Detect, ReconcileStep.Completed, ReconcileStep.RemediationDue, ReconcileStep.Managed;
    assert Ensure(y, vm).Ok? ==> AnnOf(Ensure(y, vm).value) == Marked(Stamped(AnnOf(vm), b, family), mark) by {
      NoMarkIsNone(Stamped(AnnOf(vm), b, family));
    }
    if vm.ann.None? { EmptyIsUncompleted(); }
  }

  lemma NoMarkIsNone(ann: Annotations)
    ensures Marked(ann, NoMark) == ann
  {
  }

  lemma EmptyIsUncompleted()
    ensures !ReconcileStep.Completed(map[])
  {
  }
}
