/** The webhook's changes as they are made: on a VM object whose annotation map is itself an object
    that the VM and the running function may or may not share. */
module Webhook {
  import opened Wrappers
  import opened Base64
  import opened GoBytes
  import opened Api
  import opened OsDetect
  import opened CloudInitMerge
  import opened VmPatch
  import CloudConfig

  class AnnotationMap {
    var m: Annotations

    constructor (m: Annotations)
      ensures this.m == m
    {
      this.m := m;
    }
  }

  class VirtualMachine {
    const name: string
    const labels: Labels
    const templateUser: Option<Value>
    var annotations: AnnotationMap?
    var volumes: seq<Volume>
    var disks: seq<Disk>
    var credentials: seq<Credential>

    ghost function View(): Vm
      reads this, annotations
    {
      Vm(name, labels, templateUser, if annotations == null then None else Some(annotations.m),
         volumes, disks, credentials)
    }

    constructor (vm: Vm)
      ensures View() == vm
      ensures annotations == null || fresh(annotations)
    {
      name, labels, templateUser := vm.name, vm.labels, vm.templateUser;
      volumes, disks, credentials := vm.volumes, vm.disks, vm.credentials;
      if vm.ann.Some? {
        var a := new AnnotationMap(vm.ann.value);
        annotations := a;
      } else {
        annotations := null;
      }
    }

    /** `GetAnnotations`, with a new map when there is none. */
    method MapToEdit() returns (ann: AnnotationMap)
      ensures annotations != null ==> ann == annotations
      ensures annotations == null ==> fresh(ann) && ann.m == map[]
    {
      if annotations == null {
        ann := new AnnotationMap(map[]);
      } else {
        ann := annotations;
      }
    }

    method SetMark(key: Key)
      modifies this`annotations, annotations
      ensures View() == WithMark(old(View()), key)
      ensures old(annotations) != null ==> annotations == old(annotations)
      ensures old(annotations) == null ==> fresh(annotations)
    {
      var ann := MapToEdit();
      ann.m := ann.m[key := True];
      annotations := ann;
    }

    method MarkRemediationRequired(reason: Value)
      modifies this`annotations, annotations
      ensures View() == WithRemediation(old(View()), reason)
      ensures old(annotations) != null ==> annotations == old(annotations)
      ensures old(annotations) == null ==> fresh(annotations)
    {
      var ann := MapToEdit();
      ann.m := ann.m[AnnBootstrapInlineSkipped := True];
      ann.m := ann.m[AnnRemediationRequired := True];
      ann.m := ann.m[AnnRemediationReason := reason];
      ann.m := ann.m - {AnnCloudInitSecretMergeRequired};
      annotations := ann;
    }

    /** `ensureLinuxSSHAccess` and `ensureWindowsSSHAccess`. */
    method EnsureSSHAccess(user: Value)
      modifies this`credentials
      ensures View() == WithSSHAccess(old(View()), user)
    {
      for i := 0 to |credentials|
        invariant credentials == old(credentials)
        invariant forall j :: 0 <= j < i ==> credentials[j].secretName != Some(SSH_SECRET)
      {
        if credentials[i].secretName == Some(SSH_SECRET) {
          return;
        }
      }
      credentials := credentials + [Credential(Some(SSH_SECRET), [user])];
    }

    method LinuxUser() returns (user: Value)
      ensures user == SSHUser(View())
    {
      if annotations != null && Get(annotations.m, AnnUsername) != Text("") {
        return Get(annotations.m, AnnUsername);
      }
      if templateUser.Some? && templateUser.value != Text("") {
        return templateUser.value;
      }
      return Text("ubuntu");
    }

    method EnsureLinuxSSHAccess()
      modifies this`credentials
      ensures View() == VmPatch.LinuxAccess(old(View()))
    {
      var user := LinuxUser();
      EnsureSSHAccess(user);
    }

    method MergeLinuxNoCloudVolume(y: Yaml, idx: nat) returns (ok: bool)
      requires idx < |volumes| && volumes[idx].noCloud.Some?
      modifies this, annotations
      ensures ok <==> MergeLinuxNoCloud(y, old(View()), idx).Ok?
      ensures ok ==> View() == MergeLinuxNoCloud(y, old(View()), idx).value
      ensures old(annotations) != null ==> annotations == old(annotations)
      ensures old(annotations) == null ==> annotations == null || fresh(annotations)
    {
      hide Merge, Decode, HasSSHAccess;
      var source := volumes[idx].noCloud.value;
      if source.secretRef.Some? {
        SetMark(AnnCloudInitSecretMergeRequired);
        EnsureLinuxSSHAccess();
        return true;
      }
      var inline := ReadInline(source.userData, source.userDataBase64);
      if inline.Err? {
        return false;
      }
      var merged := MergeUserData(y, inline.value.text, CloudConfig.OSLinux);
      if merged.Err? {
        return false;
      }
      if !Fits(merged.value.text) {
        MarkRemediationRequired(CloudInitSizeLimit);
        EnsureLinuxSSHAccess();
        return true;
      }
      SetNoCloudUserData(idx, merged.value.text, inline.value.isBase64);
      EnsureLinuxSSHAccess();
      return true;
    }

    /** `setNoCloudUserData`: one of the two fields is filled, the other emptied. */
    method SetNoCloudUserData(idx: nat, userData: Bytes, asBase64: bool)
      requires idx < |volumes| && volumes[idx].noCloud.Some?
      modifies this`volumes
      ensures var (plain, encoded) := Stored(userData, asBase64);
              View() == WithNoCloud(old(View()), idx, NoCloud(plain, encoded, old(volumes[idx].noCloud.value.secretRef)))
    {
      var source := volumes[idx].noCloud.value;
      if asBase64 {
        source := source.(userDataBase64 := Encode(userData), userData := []);
      } else {
        source := source.(userData := userData, userDataBase64 := []);
      }
      volumes := volumes[idx := volumes[idx].(noCloud := Some(source))];
    }

    method SetConfigDriveUserData(idx: nat, userData: Bytes, asBase64: bool)
      requires idx < |volumes| && volumes[idx].configDrive.Some?
      modifies this`volumes
      ensures var (plain, encoded) := Stored(userData, asBase64);
              View() == WithConfigDrive(old(View()), idx, ConfigDrive(plain, encoded))
    {
      var source := volumes[idx].configDrive.value;
      if asBase64 {
        source := source.(userDataBase64 := Encode(userData), userData := []);
      } else {
        source := source.(userData := userData, userDataBase64 := []);
      }
      volumes := volumes[idx := volumes[idx].(configDrive := Some(source))];
    }

    method MergeWindowsNoCloudVolume(y: Yaml, idx: nat) returns (ok: bool)
      requires idx < |volumes| && volumes[idx].noCloud.Some?
      modifies this, annotations
      ensures ok <==> MergeWindowsNoCloud(y, old(View()), idx).Ok?
      ensures ok ==> View() == MergeWindowsNoCloud(y, old(View()), idx).value
      ensures old(annotations) != null ==> annotations == old(annotations)
      ensures old(annotations) == null ==> annotations == null || fresh(annotations)
    {
      hide Merge, Decode, StartsWith;
      var source := volumes[idx].noCloud.value;
      if source.secretRef.Some? {
        SetMark(AnnCloudInitSecretMergeRequired);
        return true;
      }
      var inline := ReadInline(source.userData, source.userDataBase64);
      if inline.Err? {
        return false;
      }
      if StartsWith(inline.value.text, "#ps1") {
        MarkRemediationRequired(WindowsRawPowershell);
        return true;
      }
      var merged := MergeUserData(y, inline.value.text, CloudConfig.OSWindows);
      if merged.Err? {
        return false;
      }
      if !Fits(merged.value.text) {
        var emptied := NoCloud([], [], Some(name + "-cloudinit"));
        volumes := volumes[idx := volumes[idx].(noCloud := Some(emptied))];
        SetMark(AnnCloudInitSecretMergeRequired);
        return true;
      }
      SetNoCloudUserData(idx, merged.value.text, inline.value.isBase64);
      return true;
    }

    method MergeConfigDriveVolume(y: Yaml, idx: nat, windows: bool) returns (ok: bool)
      requires idx < |volumes| && volumes[idx].configDrive.Some?
      modifies this, annotations
      ensures var spec := if windows then MergeWindowsConfigDrive(y, old(View()), idx)
                          else MergeLinuxConfigDrive(y, old(View()), idx);
              (ok <==> spec.Ok?) && (ok ==> View() == spec.value)
      ensures old(annotations) != null ==> annotations == old(annotations)
      ensures old(annotations) == null ==> annotations == null || fresh(annotations)
    {
      hide Merge, Decode, HasSSHAccess;
      var source := volumes[idx].configDrive.value;
      var inline := ReadInline(source.userData, source.userDataBase64);
      if inline.Err? {
        return false;
      }
      var merged := MergeUserData(y, inline.value.text, if windows then CloudConfig.OSWindows else CloudConfig.OSLinux);
      if merged.Err? {
        return false;
      }
      if windows && !Fits(merged.value.text) {
        SetMark(AnnCloudInitSecretMergeRequired);
        return true;
      }
      SetConfigDriveUserData(idx, merged.value.text, inline.value.isBase64);
      if !windows {
        EnsureLinuxSSHAccess();
      }
      return true;
    }

    /** `injectLinuxNoCloud` and `injectWindowsBootstrap`, up to the SSH access. */
    method Inject(y: Yaml, os: CloudConfig.OSType, bus: string) returns (ok: bool)
      modifies this`disks, this`volumes
      ensures ok <==> InjectBootstrap(y, old(View()), os, bus).Ok?
      ensures ok ==> View() == InjectBootstrap(y, old(View()), os, bus).value
    {
      hide Merge;
      if !HasDisk(disks) {
        disks := disks + [Disk(DISK_NAME, bus)];
      }
      var merged := MergeUserData(y, [], os);
      if merged.Err? {
        return false;
      }
      if !HasVolume(volumes) {
        volumes := volumes + [Volume(VOLUME_NAME, Some(NoCloud(merged.value.text, [], None)), None, false)];
      }
      return true;
    }

    method EnsureLinuxVM(y: Yaml, b: Bootstrap) returns (ok: bool)
      requires b == DetectBootstrap(volumes)
      modifies this, annotations
      ensures ok <==> EnsureLinux(y, old(View()), b).Ok?
      ensures ok ==> View() == EnsureLinux(y, old(View()), b).value
      ensures old(annotations) != null ==> annotations == old(annotations)
      ensures old(annotations) == null ==> annotations == null || fresh(annotations)
    {
      hide MergeLinuxNoCloud, MergeLinuxConfigDrive, InjectBootstrap, HasSSHAccess;
      match b {
        case OnNoCloud(idx) => ok := MergeLinuxNoCloudVolume(y, idx);
        case OnConfigDrive(idx) => ok := MergeConfigDriveVolume(y, idx, false);
        case NoBootstrap =>
          ok := Inject(y, CloudConfig.OSLinux, "virtio");
          if ok {
            EnsureLinuxSSHAccess();
          }
        case OnSysprep(_) => ok := false;
      }
    }

    method EnsureWindowsVM(y: Yaml, b: Bootstrap) returns (ok: bool)
      requires b == DetectBootstrap(volumes)
      modifies this, annotations
      ensures ok <==> EnsureWindows(y, old(View()), b).Ok?
      ensures ok ==> View() == EnsureWindows(y, old(View()), b).value
      ensures old(annotations) != null ==> annotations == old(annotations)
      ensures old(annotations) == null ==> annotations == null || fresh(annotations)
    {
      hide MergeWindowsNoCloud, MergeWindowsConfigDrive, InjectBootstrap, HasSSHAccess;
      match b {
        case OnNoCloud(idx) => ok := MergeWindowsNoCloudVolume(y, idx);
        case OnConfigDrive(idx) => ok := MergeConfigDriveVolume(y, idx, true);
        case OnSysprep(_) =>
          SetMark(AnnSysprepMergeRequired);
          ok := true;
        case NoBootstrap => ok := Inject(y, CloudConfig.OSWindows, "sata");
      }
      if ok {
        EnsureSSHAccess(Text("Administrator"));
      }
    }

    /** `EnsureMonitoringBootstrap`. */
    method EnsureMonitoringBootstrap(y: Yaml) returns (ok: bool)
      modifies this, annotations
      ensures ok <==> Ensure(y, old(View())).Ok?
      ensures ok ==> View() == Ensure(y, old(View())).value
    {
      hide EnsureFor, Detect;
      ghost var before := View();
      var ann := MapToEdit();
      if Get(ann.m, AnnDisableMonitoring) == True {
        return true;
      }
      var family := Detect(labels);
      var b := DetectBootstrap(volumes);
      ghost var entry := ann.m;
      ann.m := ann.m[AnnBootstrapManaged := True];
      ann.m := ann.m[AnnBootstrapVersion := BootstrapV1];
      ann.m := ann.m[AnnBootstrapType := BootstrapKind(KindOf(b))];
      if AnnLoggingEnabled !in ann.m {
        ann.m := ann.m[AnnLoggingEnabled := True];
      }
      ann.m := ann.m - {AnnLegacyAlloy};
      match family {
        case Linux =>
          ann.m := ann.m[AnnBootstrapOS := LinuxOS];
          ann.m := ann.m[AnnExporter := NodeExporter];
        case Windows =>
          ann.m := ann.m[AnnBootstrapOS := WindowsOS];
          ann.m := ann.m[AnnExporter := WindowsExporter];
        case Unknown =>
          ann.m := ann.m[AnnBootstrapOS := UnknownOS];
          ann.m := ann.m[AnnExporter := UnknownOS];
          return true;
      }
      assert ann.m == Stamped(AnnOf(before), b, family);
      ghost var shared := View();
      assert shared == if before.ann.Some? then before.(ann := Some(ann.m)) else before;
      ghost var top := ann.m;
      ok := EnsureForVM(y, family, b);
      if ok {
        assert before.ann.None? ==> ann.m == top;
        annotations := ann;
      }
    }

    method EnsureForVM(y: Yaml, family: Family, b: Bootstrap) returns (ok: bool)
      requires b == DetectBootstrap(volumes)
      modifies this, annotations
      ensures ok <==> EnsureFor(y, old(View()), family, b).Ok?
      ensures ok ==> View() == EnsureFor(y, old(View()), family, b).value
      ensures old(annotations) != null ==> annotations == old(annotations)
      ensures old(annotations) == null ==> annotations == null || fresh(annotations)
    {
      hide EnsureLinux, EnsureWindows;
      if family == Linux {
        ok := EnsureLinuxVM(y, b);
      } else {
        ok := EnsureWindowsVM(y, b);
      }
    }
  }
}
