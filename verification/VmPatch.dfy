/** The admission webhook's changes to a new VM (internal/patch/vm_patch.go) on VM values. */
module VmPatch {
  import opened Wrappers
  import opened Base64
  import opened GoBytes
  import opened Api
  import opened OsDetect
  import opened CloudInitMerge
  import CloudConfig

  const MAX_INLINE := 2048
  const SSH_SECRET := "lin-vm-mon-secret"
  const VOLUME_NAME := "monitoring-cloudinit"
  const DISK_NAME := "monitoring-cloudinitdisk"

  datatype NoCloud = NoCloud(userData: Bytes, userDataBase64: Bytes, secretRef: Option<string>)

  datatype ConfigDrive = ConfigDrive(userData: Bytes, userDataBase64: Bytes)

  datatype Volume = Volume(name: string, noCloud: Option<NoCloud>, configDrive: Option<ConfigDrive>, sysprep: bool)

  datatype Disk = Disk(name: string, bus: string)

  datatype Credential = Credential(secretName: Option<string>, users: seq<Value>)

  /** A VM; absent annotations and an empty annotation map are different things. */
  datatype Vm = Vm(
    name: string, labels: Labels, templateUser: Option<Value>,
    ann: Option<Annotations>, volumes: seq<Volume>, disks: seq<Disk>, credentials: seq<Credential>)

  // ---------------------------------------------------------------- internal/bootstrapdetect

  datatype Bootstrap = OnNoCloud(index: nat) | OnConfigDrive(index: nat) | OnSysprep(index: nat) | NoBootstrap

  predicate CarriesBootstrap(v: Volume) {
    v.noCloud.Some? || v.configDrive.Some? || v.sysprep
  }

  /** The first volume that carries a bootstrap source decides. */
  function DetectBootstrap(volumes: seq<Volume>, from: nat := 0): (b: Bootstrap)
    requires from <= |volumes|
    ensures b == NoBootstrap ==> forall i :: from <= i < |volumes| ==> !CarriesBootstrap(volumes[i])
    ensures b != NoBootstrap ==>
              from <= b.index < |volumes| && (forall i :: from <= i < b.index ==> !CarriesBootstrap(volumes[i]))
    ensures b.OnNoCloud? ==> volumes[b.index].noCloud.Some?
    ensures b.OnConfigDrive? ==> volumes[b.index].noCloud.None? && volumes[b.index].configDrive.Some?
    ensures b.OnSysprep? ==> volumes[b.index].noCloud.None? && volumes[b.index].configDrive.None? && volumes[b.index].sysprep
    decreases |volumes| - from
  {
    if from == |volumes| then NoBootstrap
    else if volumes[from].noCloud.Some? then OnNoCloud(from)
    else if volumes[from].configDrive.Some? then OnConfigDrive(from)
    else if volumes[from].sysprep then OnSysprep(from)
    else DetectBootstrap(volumes, from + 1)
  }

  function KindOf(b: Bootstrap): nat {
    match b
    case OnNoCloud(_) => 0
    case OnConfigDrive(_) => 1
    case OnSysprep(_) => 2
    case NoBootstrap => 3
  }

  /** `findCloudInitNoCloudSecretVolume` of the controller. */
  function FindSecretVolume(volumes: seq<Volume>, from: nat := 0): (found: Option<nat>)
    requires from <= |volumes|
    ensures found.Some? ==> from <= found.value < |volumes|
    decreases |volumes| - from
  {
    if from == |volumes| then None
    else if volumes[from].noCloud.Some? && volumes[from].noCloud.value.secretRef.Some? then Some(from)
    else FindSecretVolume(volumes, from + 1)
  }

  // ---------------------------------------------------------------- the steps

  function AnnOf(vm: Vm): Annotations {
    if vm.ann.Some? then vm.ann.value else map[]
  }

  function WithMark(vm: Vm, key: Key): Vm {
    vm.(ann := Some(AnnOf(vm)[key := True]))
  }

  /** `markRemediationRequired`. */
  function WithRemediation(vm: Vm, reason: Value): Vm {
    vm.(ann := Some(AnnOf(vm)[AnnBootstrapInlineSkipped := True][AnnRemediationRequired := True][AnnRemediationReason := reason]
                    - {AnnCloudInitSecretMergeRequired}))
  }

  predicate HasSSHAccess(credentials: seq<Credential>) {
    exists i :: 0 <= i < |credentials| && credentials[i].secretName == Some(SSH_SECRET)
  }

  function SSHUser(vm: Vm): Value {
    if Get(AnnOf(vm), AnnUsername) != Text("") then Get(AnnOf(vm), AnnUsername)
    else if vm.templateUser.Some? && vm.templateUser.value != Text("") then vm.templateUser.value
    else Text("ubuntu")
  }

  function WithSSHAccess(vm: Vm, user: Value): Vm {
    if HasSSHAccess(vm.credentials) then vm
    else vm.(credentials := vm.credentials + [Credential(Some(SSH_SECRET), [user])])
  }

  function LinuxAccess(vm: Vm): Vm {
    WithSSHAccess(vm, SSHUser(vm))
  }

  function WindowsAccess(vm: Vm): Vm {
    WithSSHAccess(vm, Text("Administrator"))
  }

  datatype Inline = Inline(text: Bytes, isBase64: bool)

  function ReadInline(userData: Bytes, userDataBase64: Bytes): Result<Inline> {
    if userDataBase64 != [] then
      match Decode(userDataBase64)
      case Some(text) => Ok(Inline(text, true))
      case None => Err("failed to decode UserDataBase64")
    else Ok(Inline(userData, false))
  }

  /** The user data of a source with the given text, plain or encoded. */
  function Stored(text: Bytes, asBase64: bool): (Bytes, Bytes) {
    if asBase64 then ([], Encode(text)) else (text, [])
  }

  predicate Fits(text: Bytes) {
    |text| <= MAX_INLINE
  }

  function WithNoCloud(vm: Vm, idx: nat, source: NoCloud): Vm
    requires idx < |vm.volumes|
  {
    vm.(volumes := vm.volumes[idx := vm.volumes[idx].(noCloud := Some(source))])
  }

  function WithConfigDrive(vm: Vm, idx: nat, source: ConfigDrive): Vm
    requires idx < |vm.volumes|
  {
    vm.(volumes := vm.volumes[idx := vm.volumes[idx].(configDrive := Some(source))])
  }

  function MergeLinuxNoCloud(y: Yaml, vm: Vm, idx: nat): Result<Vm>
    requires idx < |vm.volumes| && vm.volumes[idx].noCloud.Some?
  {
    var source := vm.volumes[idx].noCloud.value;
    if source.secretRef.Some? then Ok(LinuxAccess(WithMark(vm, AnnCloudInitSecretMergeRequired)))
    else
      match ReadInline(source.userData, source.userDataBase64)
      case Err(e) => Err(e)
      case Ok(inline) =>
        match Merge(y, inline.text, CloudConfig.OSLinux)
        case Err(e) => Err(e)
        case Ok(merged) =>
          if !Fits(merged.text) then Ok(LinuxAccess(WithRemediation(vm, CloudInitSizeLimit)))
          else
            var (plain, encoded) := Stored(merged.text, inline.isBase64);
            Ok(LinuxAccess(WithNoCloud(vm, idx, NoCloud(plain, encoded, None))))
  }

  function SecretName(vm: Vm): string {
    vm.name + "-cloudinit"
  }

  function MergeWindowsNoCloud(y: Yaml, vm: Vm, idx: nat): Result<Vm>
    requires idx < |vm.volumes| && vm.volumes[idx].noCloud.Some?
  {
    var source := vm.volumes[idx].noCloud.value;
    if source.secretRef.Some? then Ok(WithMark(vm, AnnCloudInitSecretMergeRequired))
    else
      match ReadInline(source.userData, source.userDataBase64)
      case Err(e) => Err(e)
      case Ok(inline) =>
        if StartsWith(inline.text, "#ps1") then Ok(WithRemediation(vm, WindowsRawPowershell))
        else
          match Merge(y, inline.text, CloudConfig.OSWindows)
          case Err(e) => Err(e)
          case Ok(merged) =>
            if !Fits(merged.text) then
              Ok(WithMark(WithNoCloud(vm, idx, NoCloud([], [], Some(SecretName(vm)))), AnnCloudInitSecretMergeRequired))
            else
              var (plain, encoded) := Stored(merged.text, inline.isBase64);
              Ok(WithNoCloud(vm, idx, NoCloud(plain, encoded, None)))
  }

  function MergeLinuxConfigDrive(y: Yaml, vm: Vm, idx: nat): Result<Vm>
    requires idx < |vm.volumes| && vm.volumes[idx].configDrive.Some?
  {
    var source := vm.volumes[idx].configDrive.value;
    match ReadInline(source.userData, source.userDataBase64)
    case Err(e) => Err(e)
    case Ok(inline) =>
      match Merge(y, inline.text, CloudConfig.OSLinux)
      case Err(e) => Err(e)
      case Ok(merged) =>
        var (plain, encoded) := Stored(merged.text, inline.isBase64);
        Ok(LinuxAccess(WithConfigDrive(vm, idx, ConfigDrive(plain, encoded))))
  }

  function MergeWindowsConfigDrive(y: Yaml, vm: Vm, idx: nat): Result<Vm>
    requires idx < |vm.volumes| && vm.volumes[idx].configDrive.Some?
  {
    var source := vm.volumes[idx].configDrive.value;
    match ReadInline(source.userData, source.userDataBase64)
    case Err(e) => Err(e)
    case Ok(inline) =>
      match Merge(y, inline.text, CloudConfig.OSWindows)
      case Err(e) => Err(e)
      case Ok(merged) =>
        if !Fits(merged.text) then Ok(WithMark(vm, AnnCloudInitSecretMergeRequired))
        else
          var (plain, encoded) := Stored(merged.text, inline.isBase64);
          Ok(WithConfigDrive(vm, idx, ConfigDrive(plain, encoded)))
  }

  predicate HasDisk(disks: seq<Disk>) {
    exists i :: 0 <= i < |disks| && disks[i].name == DISK_NAME
  }

  predicate HasVolume(volumes: seq<Volume>) {
    exists i :: 0 <= i < |volumes| && volumes[i].name == VOLUME_NAME
  }

  /** Disk and volume with freshly rendered user data, unless there already. */
  function InjectBootstrap(y: Yaml, vm: Vm, os: CloudConfig.OSType, bus: string): Result<Vm> {
    match Merge(y, [], os)
    case Err(e) => Err(e)
    case Ok(merged) =>
      Ok(vm.(disks := if HasDisk(vm.disks) then vm.disks else vm.disks + [Disk(DISK_NAME, bus)],
             volumes := if HasVolume(vm.volumes) then vm.volumes
                        else vm.volumes + [Volume(VOLUME_NAME, Some(NoCloud(merged.text, [], None)), None, false)]))
  }

  function EnsureLinux(y: Yaml, vm: Vm, b: Bootstrap): Result<Vm>
    requires b == DetectBootstrap(vm.volumes)
  {
    match b
    case OnNoCloud(idx) => MergeLinuxNoCloud(y, vm, idx)
    case OnConfigDrive(idx) => MergeLinuxConfigDrive(y, vm, idx)
    case NoBootstrap =>
      (match InjectBootstrap(y, vm, CloudConfig.OSLinux, "virtio")
       case Err(e) => Err(e)
       case Ok(injected) => Ok(LinuxAccess(injected)))
    case OnSysprep(_) => Err("linux VM cannot use sysprep bootstrap")
  }

  function WindowsSource(y: Yaml, vm: Vm, b: Bootstrap): Result<Vm>
    requires b == DetectBootstrap(vm.volumes)
  {
    match b
    case OnNoCloud(idx) => MergeWindowsNoCloud(y, vm, idx)
    case OnConfigDrive(idx) => MergeWindowsConfigDrive(y, vm, idx)
    case OnSysprep(_) => Ok(WithMark(vm, AnnSysprepMergeRequired))
    case NoBootstrap => InjectBootstrap(y, vm, CloudConfig.OSWindows, "sata")
  }

  function EnsureWindows(y: Yaml, vm: Vm, b: Bootstrap): Result<Vm>
    requires b == DetectBootstrap(vm.volumes)
  {
    match WindowsSource(y, vm, b)
    case Err(e) => Err(e)
    case Ok(after) => Ok(WindowsAccess(after))
  }

  /** The annotations every managed VM gets first. */
  function Stamped(ann: Annotations, b: Bootstrap, family: Family): Annotations {
    var common := ann[AnnBootstrapManaged := True][AnnBootstrapVersion := BootstrapV1]
                     [AnnBootstrapType := BootstrapKind(KindOf(b))];
    var logging := (if AnnLoggingEnabled in common then common else common[AnnLoggingEnabled := True]) - {AnnLegacyAlloy};
    match family
    case Linux => logging[AnnBootstrapOS := LinuxOS][AnnExporter := NodeExporter]
    case Windows => logging[AnnBootstrapOS := WindowsOS][AnnExporter := WindowsExporter]
    case Unknown => logging[AnnBootstrapOS := UnknownOS][AnnExporter := UnknownOS]
  }

  function EnsureFor(y: Yaml, vm: Vm, family: Family, b: Bootstrap): Result<Vm>
    requires b == DetectBootstrap(vm.volumes)
  {
    if family == Linux then EnsureLinux(y, vm, b) else EnsureWindows(y, vm, b)
  }

  /** `EnsureMonitoringBootstrap`.  With an annotation map present, the function's own map and the
      VM's are one object, so marks set on the way survive; without one they go into a second map,
      which the final assignment throws away. */
  function Ensure(y: Yaml, vm: Vm): Result<Vm> {
    var family, b := Detect(vm.labels), DetectBootstrap(vm.volumes);
    var top := Stamped(AnnOf(vm), b, family);
    if Get(AnnOf(vm), AnnDisableMonitoring) == True then Ok(vm)
    else
      var shared := if vm.ann.Some? then vm.(ann := Some(top)) else vm;
      if family == Unknown then Ok(shared)
      else
        match EnsureFor(y, shared, family, b)
        case Err(e) => Err(e)
        case Ok(after) => Ok(if vm.ann.Some? then after else after.(ann := Some(top)))
  }

  // ---------------------------------------------------------------- what is agreed with the controller

  predicate MergeDue(vm: Vm) {
    Get(AnnOf(vm), AnnCloudInitSecretMergeRequired) == True
  }

  predicate RemediationMarked(vm: Vm) {
    Get(AnnOf(vm), AnnRemediationRequired) == True
  }

  predicate SecretBacked(vm: Vm, idx: nat) {
    idx < |vm.volumes| && vm.volumes[idx].noCloud.Some? && vm.volumes[idx].noCloud.value.secretRef.Some?
  }

  /** The text a guest reads from an inline source. */
  function InlineText(source: NoCloud): Option<Bytes> {
    match ReadInline(source.userData, source.userDataBase64)
    case Ok(inline) => Some(inline.text)
    case Err(_) => None
  }

  /** The marks the webhook can leave for the controller. */
  datatype Mark = NoMark | MergeMark | RemediationMark(reason: Value) | SysprepMark

  function Marked(ann: Annotations, mark: Mark): Annotations {
    match mark
    case NoMark => ann
    case MergeMark => ann[AnnCloudInitSecretMergeRequired := True]
    case SysprepMark => ann[AnnSysprepMergeRequired := True]
    case RemediationMark(reason) =>
      ann[AnnBootstrapInlineSkipped := True][AnnRemediationRequired := True][AnnRemediationReason := reason]
      - {AnnCloudInitSecretMergeRequired}
  }

  /** The merged user data are too long to stay inline. */
  predicate TooLong(y: Yaml, userData: Bytes, userDataBase64: Bytes, os: CloudConfig.OSType) {
    match ReadInline(userData, userDataBase64)
    case Err(_) => false
    case Ok(inline) => Merge(y, inline.text, os).Ok? && |Merge(y, inline.text, os).value.text| > 2048
  }

  predicate IsPowershell(userData: Bytes, userDataBase64: Bytes) {
    match ReadInline(userData, userDataBase64)
    case Err(_) => false
    case Ok(inline) => StartsWith(inline.text, "#ps1")
  }

  /** The mark a VM earns, told from its volumes before anything is changed. */
  function MarkFor(y: Yaml, family: Family, volumes: seq<Volume>): Mark {
    match DetectBootstrap(volumes)
    case OnNoCloud(idx) =>
      var source := volumes[idx].noCloud.value;
      if source.secretRef.Some? then MergeMark
      else if family == Linux then
        if TooLong(y, source.userData, source.userDataBase64, CloudConfig.OSLinux) then RemediationMark(CloudInitSizeLimit)
        else NoMark
      else if IsPowershell(source.userData, source.userDataBase64) then RemediationMark(WindowsRawPowershell)
      else if TooLong(y, source.userData, source.userDataBase64, CloudConfig.OSWindows) then MergeMark else NoMark
    case OnConfigDrive(idx) =>
      var source := volumes[idx].configDrive.value;
      if family == Windows && TooLong(y, source.userData, source.userDataBase64, CloudConfig.OSWindows) then MergeMark else NoMark
    case OnSysprep(_) => SysprepMark
    case NoBootstrap => NoMark
  }

  function Bare(vm: Vm): Vm {
    vm.(ann := None)
  }

  /** Two VMs that differ in their annotations alone, and not in the user those name. */
  predicate SameButMarks(a: Vm, b: Vm) {
    Bare(a) == Bare(b) && SSHUser(a) == SSHUser(b)
  }

  lemma MarkKeepsUser(vm: Vm, reason: Value)
    ensures SSHUser(WithMark(vm, AnnCloudInitSecretMergeRequired)) == SSHUser(vm)
    ensures SSHUser(WithRemediation(vm, reason)) == SSHUser(vm)
    ensures Bare(WithMark(vm, AnnCloudInitSecretMergeRequired)) == Bare(WithRemediation(vm, reason)) == Bare(vm)
  {
  }

  lemma LinuxMarks(y: Yaml, vm: Vm, b: Bootstrap)
    requires b == DetectBootstrap(vm.volumes)
    ensures EnsureLinux(y, vm, b).Ok? ==>
              AnnOf(EnsureLinux(y, vm, b).value) == Marked(AnnOf(vm), MarkFor(y, Linux, vm.volumes))
  {
    hide Merge, ReadInline, Stored, HasSSHAccess, Get, SSHUser, HasDisk, HasVolume, DetectBootstrap;
  }

  lemma WindowsMarks(y: Yaml, vm: Vm, b: Bootstrap)
    requires b == DetectBootstrap(vm.volumes)
    ensures EnsureWindows(y, vm, b).Ok? ==>
              AnnOf(EnsureWindows(y, vm, b).value) == Marked(AnnOf(vm), MarkFor(y, Windows, vm.volumes))
  {
    hide Merge, ReadInline, Stored, HasSSHAccess, Get, SSHUser, HasDisk, HasVolume, DetectBootstrap, StartsWith;
  }

  lemma AccessIgnoresMarks(a: Vm, b: Vm, user: Value)
    requires Bare(a) == Bare(b)
    ensures Bare(WithSSHAccess(a, user)) == Bare(WithSSHAccess(b, user))
  {
    hide HasSSHAccess;
    assert a.credentials == Bare(a).credentials && b.credentials == Bare(b).credentials;
  }

  lemma LinuxNoCloudIgnoresMarks(y: Yaml, vm: Vm, other: Vm, idx: nat)
    requires idx < |vm.volumes| && vm.volumes[idx].noCloud.Some? && SameButMarks(vm, other)
    ensures MergeLinuxNoCloud(y, vm, idx).Ok? <==> MergeLinuxNoCloud(y, other, idx).Ok?
    ensures MergeLinuxNoCloud(y, vm, idx).Ok? ==>
              Bare(MergeLinuxNoCloud(y, vm, idx).value) == Bare(MergeLinuxNoCloud(y, other, idx).value)
  {
    hide Merge, ReadInline, Stored, SSHUser, WithSSHAccess, WithMark, WithRemediation;
    MarkKeepsUser(vm, CloudInitSizeLimit);
    MarkKeepsUser(other, CloudInitSizeLimit);
    AccessIgnoresMarks(WithMark(vm, AnnCloudInitSecretMergeRequired), WithMark(other, AnnCloudInitSecretMergeRequired),
                       SSHUser(vm));
    AccessIgnoresMarks(WithRemediation(vm, CloudInitSizeLimit), WithRemediation(other, CloudInitSizeLimit), SSHUser(vm));
    if MergeLinuxNoCloud(y, vm, idx).Ok? && vm.volumes[idx].noCloud.value.secretRef.None? {
      var source := vm.volumes[idx].noCloud.value;
      var inline := ReadInline(source.userData, source.userDataBase64).value;
      var (plain, encoded) := Stored(Merge(y, inline.text, CloudConfig.OSLinux).value.text, inline.isBase64);
      var written := NoCloud(plain, encoded, None);
      WritingKeepsUser(vm, idx, written);
      WritingKeepsUser(other, idx, written);
      AccessIgnoresMarks(WithNoCloud(vm, idx, written), WithNoCloud(other, idx, written), SSHUser(vm));
    }
  }

  lemma WritingKeepsUser(vm: Vm, idx: nat, source: NoCloud)
    requires idx < |vm.volumes|
    ensures SSHUser(WithNoCloud(vm, idx, source)) == SSHUser(vm)
  {
  }

  lemma LinuxConfigDriveIgnoresMarks(y: Yaml, vm: Vm, other: Vm, idx: nat)
    requires idx < |vm.volumes| && vm.volumes[idx].configDrive.Some? && SameButMarks(vm, other)
    ensures MergeLinuxConfigDrive(y, vm, idx).Ok? <==> MergeLinuxConfigDrive(y, other, idx).Ok?
    ensures MergeLinuxConfigDrive(y, vm, idx).Ok? ==>
              Bare(MergeLinuxConfigDrive(y, vm, idx).value) == Bare(MergeLinuxConfigDrive(y, other, idx).value)
  {
    hide Merge, ReadInline, Stored, HasSSHAccess, Get;
  }

  lemma InjectIgnoresMarks(y: Yaml, vm: Vm, other: Vm, os: CloudConfig.OSType, bus: string)
    requires SameButMarks(vm, other)
    ensures InjectBootstrap(y, vm, os, bus).Ok? <==> InjectBootstrap(y, other, os, bus).Ok?
    ensures InjectBootstrap(y, vm, os, bus).Ok? ==>
              SameButMarks(InjectBootstrap(y, vm, os, bus).value, InjectBootstrap(y, other, os, bus).value)
  {
    hide Merge, HasDisk, HasVolume, Get;
  }

  lemma LinuxIgnoresMarks(y: Yaml, vm: Vm, other: Vm, b: Bootstrap)
    requires b == DetectBootstrap(vm.volumes) && SameButMarks(vm, other)
    ensures EnsureLinux(y, vm, b).Ok? <==> EnsureLinux(y, other, b).Ok?
    ensures EnsureLinux(y, vm, b).Ok? ==> Bare(EnsureLinux(y, vm, b).value) == Bare(EnsureLinux(y, other, b).value)
  {
    hide MergeLinuxNoCloud, MergeLinuxConfigDrive, InjectBootstrap, SSHUser, WithSSHAccess;
    match b {
      case OnNoCloud(idx) => LinuxNoCloudIgnoresMarks(y, vm, other, idx);
      case OnConfigDrive(idx) => LinuxConfigDriveIgnoresMarks(y, vm, other, idx);
      case OnSysprep(_) =>
      case NoBootstrap =>
        InjectIgnoresMarks(y, vm, other, CloudConfig.OSLinux, "virtio");
        if InjectBootstrap(y, vm, CloudConfig.OSLinux, "virtio").Ok? {
          var injected := InjectBootstrap(y, vm, CloudConfig.OSLinux, "virtio").value;
          AccessIgnoresMarks(injected, InjectBootstrap(y, other, CloudConfig.OSLinux, "virtio").value, SSHUser(injected));
        }
    }
  }

  lemma WindowsSourceIgnoresMarks(y: Yaml, vm: Vm, other: Vm, b: Bootstrap)
    requires b == DetectBootstrap(vm.volumes) && SameButMarks(vm, other)
    ensures WindowsSource(y, vm, b).Ok? <==> WindowsSource(y, other, b).Ok?
    ensures WindowsSource(y, vm, b).Ok? ==> Bare(WindowsSource(y, vm, b).value) == Bare(WindowsSource(y, other, b).value)
  {
    hide Merge, ReadInline, Stored, Get, SSHUser, HasDisk, HasVolume, DetectBootstrap, StartsWith;
  }

  lemma WindowsIgnoresMarks(y: Yaml, vm: Vm, other: Vm, b: Bootstrap)
    requires b == DetectBootstrap(vm.volumes) && SameButMarks(vm, other)
    ensures EnsureWindows(y, vm, b).Ok? <==> EnsureWindows(y, other, b).Ok?
    ensures EnsureWindows(y, vm, b).Ok? ==> Bare(EnsureWindows(y, vm, b).value) == Bare(EnsureWindows(y, other, b).value)
  {
    hide WindowsSource, WithSSHAccess, SSHUser;
    WindowsSourceIgnoresMarks(y, vm, other, b);
    if WindowsSource(y, vm, b).Ok? {
      AccessIgnoresMarks(WindowsSource(y, vm, b).value, WindowsSource(y, other, b).value, Text("Administrator"));
    }
  }

  /** The annotations of an admitted VM of a known family are exactly the ones every managed VM gets
      and, if it came with an annotation map, the mark it has earned. */
  lemma AnnotationsOfAdmitted(y: Yaml, vm: Vm)
    requires Get(AnnOf(vm), AnnDisableMonitoring) != True && Detect(vm.labels) != Unknown
    ensures Ensure(y, vm).Ok? ==>
              var family := Detect(vm.labels);
              var top := Stamped(AnnOf(vm), DetectBootstrap(vm.volumes), family);
              Ensure(y, vm).value.ann == Some(if vm.ann.Some? then Marked(top, MarkFor(y, family, vm.volumes)) else top)
  {
    hide Stamped, Detect, Marked, MarkFor, EnsureLinux, EnsureWindows;
    var family, b := Detect(vm.labels), DetectBootstrap(vm.volumes);
    var shared := if vm.ann.Some? then vm.(ann := Some(Stamped(AnnOf(vm), b, family))) else vm;
    if EnsureFor(y, shared, family, b).Ok? {
      LinuxMarks(y, shared, b);
      WindowsMarks(y, shared, b);
      MapStays(y, shared, b, family);
    }
  }

  lemma MapStays(y: Yaml, vm: Vm, b: Bootstrap, family: Family)
    requires b == DetectBootstrap(vm.volumes)
    ensures EnsureFor(y, vm, family, b).Ok? && vm.ann.Some? ==> EnsureFor(y, vm, family, b).value.ann.Some?
  {
    hide EnsureLinux, EnsureWindows;
    LinuxKeepsLists(y, vm, b);
    WindowsKeepsLists(y, vm, b);
  }

  /** If both fields are set, the encoded one is read, and it must decode. */
  lemma EncodedFieldWins(userData: Bytes, userDataBase64: Bytes)
    ensures userDataBase64 == [] ==> ReadInline(userData, userDataBase64) == Ok(Inline(userData, false))
    ensures userDataBase64 != [] ==>
              && (ReadInline(userData, userDataBase64).Ok? <==> Decode(userDataBase64).Some?)
              && (Decode(userDataBase64).Some? ==>
                    ReadInline(userData, userDataBase64) == Ok(Inline(Decode(userDataBase64).value, true)))
  {
    hide Decode;
  }

  lemma StoredReadsBack(text: Bytes, asBase64: bool)
    ensures var (plain, encoded) := Stored(text, asBase64);
            ReadInline(plain, encoded).Ok? && ReadInline(plain, encoded).value.text == text
  {
    DecodeEncode(text);
  }

  /** The field that holds an inline text: the text itself, or its base64 form, which is longer and so
      keeps to the limit only for texts of at most 1536 bytes. */
  predicate FieldHolds(source: NoCloud, text: Bytes, asBase64: bool) {
    if asBase64 then
      && source.userData == [] && |source.userDataBase64| == 4 * ((|text| + 2) / 3)
      && (|source.userDataBase64| <= MAX_INLINE <==> |text| <= 1536)
    else source.userDataBase64 == [] && |source.userData| == |text|
  }

  /** The source holds its merged text inline, in the encoding it came in. */
  predicate HoldsText(y: Yaml, os: CloudConfig.OSType, before: NoCloud, after: NoCloud) {
    && after.secretRef.None?
    && ReadInline(before.userData, before.userDataBase64).Ok?
    && var inline := ReadInline(before.userData, before.userDataBase64).value;
    && Merge(y, inline.text, os).Ok?
    && var text := Merge(y, inline.text, os).value.text;
    && InlineText(after) == Some(text) && FieldHolds(after, text, inline.isBase64)
  }

  /** ... and that fits. */
  predicate HoldsMerged(y: Yaml, os: CloudConfig.OSType, before: NoCloud, after: NoCloud) {
    HoldsText(y, os, before, after) && InlineText(after).Some? && |InlineText(after).value| <= 2048
  }

  /** What the two NoCloud merges do, seen from the volume and the marks. */
  predicate NoCloudPost(y: Yaml, os: CloudConfig.OSType, before: Vm, after: Vm, idx: nat) {
    && |after.volumes| == |before.volumes|
    && (forall i :: 0 <= i < |before.volumes| && i != idx ==> after.volumes[i] == before.volumes[i])
    && idx < |before.volumes| && before.volumes[idx].noCloud.Some? && after.volumes[idx].noCloud.Some?
    && (MergeDue(after) <==> SecretBacked(after, idx))
    && !(MergeDue(after) && RemediationMarked(after))
    && (RemediationMarked(after) ==> after.volumes == before.volumes)
    && (!MergeDue(after) && !RemediationMarked(after) ==>
          HoldsMerged(y, os, before.volumes[idx].noCloud.value, after.volumes[idx].noCloud.value))
  }

  predicate Unmarked(vm: Vm) {
    !MergeDue(vm) && !RemediationMarked(vm)
  }

  lemma AccessKeepsPost(y: Yaml, os: CloudConfig.OSType, before: Vm, after: Vm, idx: nat, user: Value)
    requires NoCloudPost(y, os, before, after, idx)
    ensures NoCloudPost(y, os, before, WithSSHAccess(after, user), idx)
  {
    hide HoldsMerged, HasSSHAccess;
  }

  lemma InlinePost(y: Yaml, os: CloudConfig.OSType, vm: Vm, idx: nat)
    requires Unmarked(vm) && idx < |vm.volumes| && vm.volumes[idx].noCloud.Some?
    requires ReadInline(vm.volumes[idx].noCloud.value.userData, vm.volumes[idx].noCloud.value.userDataBase64).Ok?
    requires var inline := ReadInline(vm.volumes[idx].noCloud.value.userData, vm.volumes[idx].noCloud.value.userDataBase64).value;
             Merge(y, inline.text, os).Ok? && Fits(Merge(y, inline.text, os).value.text)
    ensures var inline := ReadInline(vm.volumes[idx].noCloud.value.userData, vm.volumes[idx].noCloud.value.userDataBase64).value;
            var (plain, encoded) := Stored(Merge(y, inline.text, os).value.text, inline.isBase64);
            NoCloudPost(y, os, vm, WithNoCloud(vm, idx, NoCloud(plain, encoded, None)), idx)
  {
    hide Merge, ReadInline, InlineText, FieldHolds, Stored;
    var inline := ReadInline(vm.volumes[idx].noCloud.value.userData, vm.volumes[idx].noCloud.value.userDataBase64).value;
    StoredHolds(Merge(y, inline.text, os).value.text, inline.isBase64);
  }

  lemma StoredHolds(text: Bytes, asBase64: bool)
    ensures var (plain, encoded) := Stored(text, asBase64);
            InlineText(NoCloud(plain, encoded, None)) == Some(text) && FieldHolds(NoCloud(plain, encoded, None), text, asBase64)
  {
    StoredReadsBack(text, asBase64);
    EncodedLength(text);
    hide Encode, Decode;
  }

  lemma MarkPost(y: Yaml, os: CloudConfig.OSType, vm: Vm, idx: nat)
    requires Unmarked(vm) && idx < |vm.volumes| && vm.volumes[idx].noCloud.Some?
    ensures SecretBacked(vm, idx) ==> NoCloudPost(y, os, vm, WithMark(vm, AnnCloudInitSecretMergeRequired), idx)
    ensures !SecretBacked(vm, idx) ==> NoCloudPost(y, os, vm, WithRemediation(vm, CloudInitSizeLimit), idx)
    ensures !SecretBacked(vm, idx) ==> NoCloudPost(y, os, vm, WithRemediation(vm, WindowsRawPowershell), idx)
    ensures var moved := WithNoCloud(vm, idx, NoCloud([], [], Some(SecretName(vm))));
            NoCloudPost(y, os, vm, WithMark(moved, AnnCloudInitSecretMergeRequired), idx)
  {
    hide HoldsMerged;
  }

  lemma LinuxNoCloudPost(y: Yaml, vm: Vm, idx: nat)
    requires Unmarked(vm) && idx < |vm.volumes| && vm.volumes[idx].noCloud.Some?
    ensures MergeLinuxNoCloud(y, vm, idx).Ok? ==>
              NoCloudPost(y, CloudConfig.OSLinux, vm, MergeLinuxNoCloud(y, vm, idx).value, idx)
  {
    MarkPost(y, CloudConfig.OSLinux, vm, idx);
    hide Merge, ReadInline, NoCloudPost, WithSSHAccess, WithMark, WithRemediation, WithNoCloud, Stored;
    var source := vm.volumes[idx].noCloud.value;
    if source.secretRef.Some? {
      var marked := WithMark(vm, AnnCloudInitSecretMergeRequired);
      AccessKeepsPost(y, CloudConfig.OSLinux, vm, marked, idx, SSHUser(marked));
    } else if ReadInline(source.userData, source.userDataBase64).Ok? {
      var inline := ReadInline(source.userData, source.userDataBase64).value;
      if Merge(y, inline.text, CloudConfig.OSLinux).Ok? {
        var text := Merge(y, inline.text, CloudConfig.OSLinux).value.text;
        if Fits(text) {
          InlinePost(y, CloudConfig.OSLinux, vm, idx);
          var (plain, encoded) := Stored(text, inline.isBase64);
          var written := WithNoCloud(vm, idx, NoCloud(plain, encoded, None));
          AccessKeepsPost(y, CloudConfig.OSLinux, vm, written, idx, SSHUser(written));
        } else {
          var marked := WithRemediation(vm, CloudInitSizeLimit);
          AccessKeepsPost(y, CloudConfig.OSLinux, vm, marked, idx, SSHUser(marked));
        }
      }
    }
  }

  lemma WindowsNoCloudPost(y: Yaml, vm: Vm, idx: nat)
    requires Unmarked(vm) && idx < |vm.volumes| && vm.volumes[idx].noCloud.Some?
    ensures MergeWindowsNoCloud(y, vm, idx).Ok? ==>
              NoCloudPost(y, CloudConfig.OSWindows, vm, MergeWindowsNoCloud(y, vm, idx).value, idx)
  {
    MarkPost(y, CloudConfig.OSWindows, vm, idx);
    hide Merge, ReadInline, NoCloudPost, WithMark, WithRemediation, WithNoCloud, Stored, StartsWith;
    var source := vm.volumes[idx].noCloud.value;
    if source.secretRef.None? && ReadInline(source.userData, source.userDataBase64).Ok? {
      var inline := ReadInline(source.userData, source.userDataBase64).value;
      if Merge(y, inline.text, CloudConfig.OSWindows).Ok? {
        var text := Merge(y, inline.text, CloudConfig.OSWindows).value.text;
        if Fits(text) { InlinePost(y, CloudConfig.OSWindows, vm, idx); }
      }
    }
  }

  lemma {:induction false} FindSkips(volumes: seq<Volume>, from: nat, idx: nat)
    requires from <= idx < |volumes|
    requires forall i :: from <= i < idx ==> !CarriesBootstrap(volumes[i])
    requires volumes[idx].noCloud.Some? && volumes[idx].noCloud.value.secretRef.Some?
    ensures FindSecretVolume(volumes, from) == Some(idx)
    decreases idx - from
  {
    if from < idx {
      assert !CarriesBootstrap(volumes[from]);
      FindSkips(volumes, from + 1, idx);
    }
  }

  function OSFor(family: Family): CloudConfig.OSType {
    if family == Linux then CloudConfig.OSLinux else CloudConfig.OSWindows
  }

  /** An admitted VM of a known family whose bootstrap is NoCloud, with an annotation map and no
      mark at entry, has exactly the mark it has earned.  If that asks for the Secret merge, its
      bootstrap volume refers to a Secret and is the one the controller will pick; if it asks for
      remediation, the volumes are untouched; if there is none, the volume holds its merged text. */
  lemma WebhookAgreesWithController(y: Yaml, vm: Vm)
    requires vm.ann.Some? && Get(AnnOf(vm), AnnDisableMonitoring) != True && Unmarked(vm)
    requires Detect(vm.labels) != Unknown && DetectBootstrap(vm.volumes).OnNoCloud?
    ensures Ensure(y, vm).Ok? ==>
              var after, idx := Ensure(y, vm).value, DetectBootstrap(vm.volumes).index;
              var mark := MarkFor(y, Detect(vm.labels), vm.volumes);
              && NoCloudPost(y, OSFor(Detect(vm.labels)), vm, after, idx)
              && (MergeDue(after) <==> mark == MergeMark) && (RemediationMarked(after) <==> mark.RemediationMark?)
              && (MergeDue(after) ==> FindSecretVolume(after.volumes) == Some(idx))
  {
    var family, b := Detect(vm.labels), DetectBootstrap(vm.volumes);
    var shared := vm.(ann := Some(Stamped(AnnOf(vm), b, family)));
    StampedKeepsMarks(AnnOf(vm), b, family);
    NoCloudBranchPost(y, shared, family, b);
    AnnotationsOfAdmitted(y, vm);
    MarkedMeans(shared.ann.value, MarkFor(y, family, vm.volumes));
    hide HoldsMerged, EnsureFor, Stamped, Detect, MarkFor, Marked, Get;
    if Ensure(y, vm).Ok? {
      var after := Ensure(y, vm).value;
      assert NoCloudPost(y, OSFor(family), shared, after, b.index);
      if MergeDue(after) { FindSkips(after.volumes, 0, b.index); }
    }
  }

  lemma NoCloudBranchPost(y: Yaml, vm: Vm, family: Family, b: Bootstrap)
    requires Unmarked(vm) && family != Unknown && b == DetectBootstrap(vm.volumes) && b.OnNoCloud?
    ensures EnsureFor(y, vm, family, b).Ok? ==>
              NoCloudPost(y, OSFor(family), vm, EnsureFor(y, vm, family, b).value, b.index)
  {
    LinuxNoCloudPost(y, vm, b.index);
    WindowsNoCloudPost(y, vm, b.index);
    hide NoCloudPost, MergeLinuxNoCloud, MergeWindowsNoCloud, WithSSHAccess, Get;
    if MergeWindowsNoCloud(y, vm, b.index).Ok? && family == Windows {
      AccessKeepsPost(y, CloudConfig.OSWindows, vm, MergeWindowsNoCloud(y, vm, b.index).value, b.index, Text("Administrator"));
    }
  }

  lemma MarkedMeans(ann: Annotations, mark: Mark)
    requires Get(ann, AnnCloudInitSecretMergeRequired) != True && Get(ann, AnnRemediationRequired) != True
    ensures Get(Marked(ann, mark), AnnCloudInitSecretMergeRequired) == True <==> mark == MergeMark
    ensures Get(Marked(ann, mark), AnnRemediationRequired) == True <==> mark.RemediationMark?
  {
  }

  lemma StampedKeepsMarks(ann: Annotations, b: Bootstrap, family: Family)
    ensures var s := Stamped(ann, b, family);
            && Get(s, AnnCloudInitSecretMergeRequired) == Get(ann, AnnCloudInitSecretMergeRequired)
            && Get(s, AnnRemediationRequired) == Get(ann, AnnRemediationRequired)
  {
  }

  /** Without an annotation map at entry a VM is admitted as with an empty one, and comes out the same
      but for its marks, which are lost: it comes out the same altogether exactly when it earns none. */
  lemma MarksLostWithoutMap(y: Yaml, vm: Vm)
    requires vm.ann.None? && Detect(vm.labels) != Unknown
    ensures var withMap := vm.(ann := Some(map[]));
            && (Ensure(y, vm).Ok? <==> Ensure(y, withMap).Ok?)
            && (Ensure(y, vm).Ok? ==>
                  && Bare(Ensure(y, vm).value) == Bare(Ensure(y, withMap).value)
                  && (Ensure(y, vm) == Ensure(y, withMap) <==> MarkFor(y, Detect(vm.labels), vm.volumes) == NoMark))
  {
    hide Stamped, Detect, MarkFor, EnsureLinux, EnsureWindows, SSHUser;
    var withMap := vm.(ann := Some(map[]));
    var family, b := Detect(vm.labels), DetectBootstrap(vm.volumes);
    var top := Stamped(map[], b, family);
    var shared := withMap.(ann := Some(top));
    StampedKeepsUser(withMap, b, family);
    NoMapNoUser(vm);
    LinuxIgnoresMarks(y, vm, shared, b);
    WindowsIgnoresMarks(y, vm, shared, b);
    AnnotationsOfAdmitted(y, vm);
    AnnotationsOfAdmitted(y, withMap);
    MarkShows(b, family, MarkFor(y, family, vm.volumes));
  }

  lemma NoMapNoUser(vm: Vm)
    requires vm.ann.None?
    ensures SSHUser(vm.(ann := Some(map[]))) == SSHUser(vm)
  {
  }

  /** No mark can pass for none. */
  lemma MarkShows(b: Bootstrap, family: Family, mark: Mark)
    ensures Marked(Stamped(map[], b, family), mark) == Stamped(map[], b, family) <==> mark == NoMark
  {
    var top := Stamped(map[], b, family);
    assert AnnCloudInitSecretMergeRequired !in top && AnnSysprepMergeRequired !in top && AnnRemediationRequired !in top;
    hide Stamped;
    match mark {
      case NoMark =>
      case MergeMark => assert AnnCloudInitSecretMergeRequired in Marked(top, mark);
      case SysprepMark => assert AnnSysprepMergeRequired in Marked(top, mark);
      case RemediationMark(_) => assert AnnRemediationRequired in Marked(top, mark);
    }
  }

  /** A Windows config-drive is marked for the Secret merge exactly when its merged user data is too
      long.  Its volumes are then left alone, so the controller will find a Secret volume only if
      there was one already. */
  lemma ConfigDriveMarkedWithoutSecret(y: Yaml, vm: Vm)
    requires vm.ann.Some? && Get(AnnOf(vm), AnnDisableMonitoring) != True && Unmarked(vm)
    requires Detect(vm.labels) == Windows && DetectBootstrap(vm.volumes).OnConfigDrive?
    ensures Ensure(y, vm).Ok? ==>
              var after, source := Ensure(y, vm).value, vm.volumes[DetectBootstrap(vm.volumes).index].configDrive.value;
              && (MergeDue(after) <==> TooLong(y, source.userData, source.userDataBase64, CloudConfig.OSWindows))
              && (MergeDue(after) ==> FindSecretVolume(after.volumes) == FindSecretVolume(vm.volumes))
  {
    var family, b := Detect(vm.labels), DetectBootstrap(vm.volumes);
    StampedKeepsMarks(AnnOf(vm), b, family);
    AnnotationsOfAdmitted(y, vm);
    MarkedMeans(Stamped(AnnOf(vm), b, family), MarkFor(y, family, vm.volumes));
    hide Merge, ReadInline, Stamped, HasSSHAccess, Detect, Stored, FindSecretVolume, Marked, Get;
  }

  // ---------------------------------------------------------------- who is admitted

  /** The text decodes, and is a raw script or YAML that can be read. */
  predicate Readable(y: Yaml, userData: Bytes, userDataBase64: Bytes) {
    ReadInline(userData, userDataBase64).Ok?
    && ParseCloudConfig(y, ReadInline(userData, userDataBase64).value.text) != Malformed
  }

  predicate Admissible(y: Yaml, family: Family, volumes: seq<Volume>) {
    match DetectBootstrap(volumes)
    case OnNoCloud(idx) =>
      var source := volumes[idx].noCloud.value;
      || source.secretRef.Some? || Readable(y, source.userData, source.userDataBase64)
      || (family == Windows && IsPowershell(source.userData, source.userDataBase64))
    case OnConfigDrive(idx) =>
      Readable(y, volumes[idx].configDrive.value.userData, volumes[idx].configDrive.value.userDataBase64)
    case OnSysprep(_) => family == Windows
    case NoBootstrap => true
  }

  lemma MergeOkIff(y: Yaml, text: Bytes, os: CloudConfig.OSType)
    requires os != CloudConfig.OtherOS
    ensures Merge(y, text, os).Ok? <==> ParseCloudConfig(y, text) != Malformed
    ensures Merge(y, [], os).Ok?
  {
    assert ParseCloudConfig(y, []) == Config(EMPTY_DOC);
    hide ParseCloudConfig, CloudConfig.MergeDoc;
  }

  lemma ReadableIff(y: Yaml, userData: Bytes, userDataBase64: Bytes, os: CloudConfig.OSType)
    requires os != CloudConfig.OtherOS
    ensures Readable(y, userData, userDataBase64)
            <==> ReadInline(userData, userDataBase64).Ok?
                 && Merge(y, ReadInline(userData, userDataBase64).value.text, os).Ok?
  {
    hide Merge, ReadInline, ParseCloudConfig;
    if ReadInline(userData, userDataBase64).Ok? { MergeOkIff(y, ReadInline(userData, userDataBase64).value.text, os); }
  }

  lemma BranchAdmitsIff(y: Yaml, vm: Vm, family: Family, b: Bootstrap)
    requires b == DetectBootstrap(vm.volumes) && family != Unknown
    ensures EnsureFor(y, vm, family, b).Ok? <==> Admissible(y, family, vm.volumes)
  {
    match b {
      case OnNoCloud(idx) =>
        var source := vm.volumes[idx].noCloud.value;
        ReadableIff(y, source.userData, source.userDataBase64, OSFor(family));
      case OnConfigDrive(idx) =>
        var source := vm.volumes[idx].configDrive.value;
        ReadableIff(y, source.userData, source.userDataBase64, OSFor(family));
      case OnSysprep(_) =>
      case NoBootstrap => MergeOkIff(y, [], OSFor(family));
    }
    hide Merge, Readable, ReadInline, Stored, HasSSHAccess, Get, SSHUser, HasDisk, HasVolume, DetectBootstrap, StartsWith;
  }

  /** Exactly which VMs are admitted; a disabled one is let in as it is. */
  lemma AdmittedIff(y: Yaml, vm: Vm)
    ensures Get(AnnOf(vm), AnnDisableMonitoring) == True ==> Ensure(y, vm) == Ok(vm)
    ensures Ensure(y, vm).Ok? <==>
              || Get(AnnOf(vm), AnnDisableMonitoring) == True || Detect(vm.labels) == Unknown
              || Admissible(y, Detect(vm.labels), vm.volumes)
  {
    var family, b := Detect(vm.labels), DetectBootstrap(vm.volumes);
    var shared := if vm.ann.Some? then vm.(ann := Some(Stamped(AnnOf(vm), b, family))) else vm;
    if family != Unknown { BranchAdmitsIff(y, shared, family, b); }
    hide EnsureFor, Admissible, Stamped, Detect, Get;
  }

  // ---------------------------------------------------------------- what an admitted VM has

  /** The user the credential is for. */
  function UserFor(vm: Vm, family: Family): Value {
    if family == Linux then SSHUser(vm) else Text("Administrator")
  }

  /** For Windows the administrator; for Linux the annotated user, or else the one of the template, or
      else ubuntu. */
  lemma UserForIs(vm: Vm, family: Family)
    ensures family != Linux ==> UserFor(vm, family) == Text("Administrator")
    ensures var named := if vm.ann.Some? && AnnUsername in vm.ann.value then vm.ann.value[AnnUsername] else Text("");
            family == Linux ==>
              && (named != Text("") ==> UserFor(vm, family) == named)
              && (named == Text("") ==>
                    UserFor(vm, family) == if vm.templateUser.None? || vm.templateUser == Some(Text("")) then Text("ubuntu")
                                           else vm.templateUser.value)
  {
  }

  /** Every admitted VM of a known family is managed and has exactly one credential more, for the
      user its own annotation or its template names, unless it had the program's credential; what
      the user had listed stays in place and in order. */
  lemma AdmittedHasAccess(y: Yaml, vm: Vm)
    requires Get(AnnOf(vm), AnnDisableMonitoring) != True && Detect(vm.labels) != Unknown
    ensures Ensure(y, vm).Ok? ==>
              var after := Ensure(y, vm).value;
              && after.credentials == (if HasSSHAccess(vm.credentials) then vm.credentials
                                       else vm.credentials + [Credential(Some("lin-vm-mon-secret"), [UserFor(vm, Detect(vm.labels))])])
              && vm.disks <= after.disks && |vm.volumes| <= |after.volumes|
              && Get(AnnOf(after), AnnBootstrapManaged) == True
  {
    var family, b := Detect(vm.labels), DetectBootstrap(vm.volumes);
    var top := Stamped(AnnOf(vm), b, family);
    var shared := if vm.ann.Some? then vm.(ann := Some(top)) else vm;
    assert Get(top, AnnBootstrapManaged) == True;
    hide Stamped, Detect;
    if EnsureFor(y, shared, family, b).Ok? {
      var after := EnsureFor(y, shared, family, b).value;
      if family == Linux { LinuxKeepsLists(y, shared, b); } else { WindowsKeepsLists(y, shared, b); }
      StampedKeepsUser(vm, b, family);
      hide EnsureLinux, EnsureWindows, HasSSHAccess, SSHUser;
    }
  }

  /** What every branch of the webhook keeps, and the access it adds at the end. */
  predicate KeepsLists(vm: Vm, after: Vm, family: Family) {
    && after.credentials == (if HasSSHAccess(vm.credentials) then vm.credentials
                             else vm.credentials + [Credential(Some(SSH_SECRET), [UserFor(vm, family)])])
    && vm.disks <= after.disks && |vm.volumes| <= |after.volumes|
    && (vm.ann.Some? ==>
          after.ann.Some? && Get(AnnOf(after), AnnBootstrapManaged) == Get(AnnOf(vm), AnnBootstrapManaged))
  }

  lemma LinuxKeepsLists(y: Yaml, vm: Vm, b: Bootstrap)
    requires b == DetectBootstrap(vm.volumes)
    ensures EnsureLinux(y, vm, b).Ok? ==> KeepsLists(vm, EnsureLinux(y, vm, b).value, Linux)
  {
    hide Merge, ReadInline, Stored, StartsWith, HasDisk, HasVolume, DetectBootstrap, HasSSHAccess;
  }

  lemma WindowsKeepsLists(y: Yaml, vm: Vm, b: Bootstrap)
    requires b == DetectBootstrap(vm.volumes)
    ensures EnsureWindows(y, vm, b).Ok? ==> KeepsLists(vm, EnsureWindows(y, vm, b).value, Windows)
  {
    hide Merge, ReadInline, Stored, StartsWith, HasDisk, HasVolume, DetectBootstrap, HasSSHAccess, SSHUser;
  }

  lemma StampedKeepsUser(vm: Vm, b: Bootstrap, family: Family)
    ensures SSHUser(vm.(ann := Some(Stamped(AnnOf(vm), b, family)))) == SSHUser(vm)
  {
  }

  /** A VM of unknown OS is admitted with its volumes, disks and credentials as they are; it is handed
      to the controller, marked unknown, exactly when it came with an annotation map. */
  lemma UnknownMarkedIff(y: Yaml, vm: Vm)
    requires Get(AnnOf(vm), AnnDisableMonitoring) != True && Detect(vm.labels) == Unknown
    requires Get(AnnOf(vm), AnnBootstrapManaged) != True
    ensures Ensure(y, vm).Ok?
    ensures var after := Ensure(y, vm).value;
            && after.volumes == vm.volumes && after.disks == vm.disks && after.credentials == vm.credentials
            && (Get(AnnOf(after), AnnBootstrapManaged) == True && Get(AnnOf(after), AnnBootstrapOS) == UnknownOS
                && Get(AnnOf(after), AnnExporter) == UnknownOS
                <==> vm.ann.Some?)
            && (vm.ann.None? ==> after == vm)
  {
  }

  lemma FreshTextIsManaged(y: Yaml, os: CloudConfig.OSType)
    requires ReadsBack(y) && os != CloudConfig.OtherOS
    ensures Merge(y, [], os).Ok?
    ensures Reading(y, Merge(y, [], os).value.text).Some? && IsManaged(Reading(y, Merge(y, [], os).value.text).value, os)
  {
    assert ParseCloudConfig(y, []) == Config(EMPTY_DOC);
    hide ParseCloudConfig, Merge, Reading, IsManaged, ReadsBack;
    MergedTextIsComplete(y, [], os);
  }

  lemma InjectedAtEnd(y: Yaml, vm: Vm, os: CloudConfig.OSType, bus: string)
    requires !HasVolume(vm.volumes) && Merge(y, [], os).Ok?
    ensures InjectBootstrap(y, vm, os, bus).Ok?
    ensures InjectBootstrap(y, vm, os, bus).value.volumes
            == vm.volumes + [Volume(VOLUME_NAME, Some(NoCloud(Merge(y, [], os).value.text, [], None)), None, false)]
    ensures InjectBootstrap(y, vm, os, bus).value.disks == if HasDisk(vm.disks) then vm.disks else vm.disks + [Disk(DISK_NAME, bus)]
  {
    hide Merge, HasVolume, HasDisk;
  }

  /** A VM without a bootstrap source is given one, unless the name is taken: a further disk and
      volume whose text, read as YAML, holds everything the program manages and no hints.  Its length
      is not looked at. */
  lemma InjectedIsComplete(y: Yaml, vm: Vm)
    requires ReadsBack(y)
    requires Get(AnnOf(vm), AnnDisableMonitoring) != True && Detect(vm.labels) != Unknown
    requires DetectBootstrap(vm.volumes) == NoBootstrap && !HasVolume(vm.volumes)
    ensures Ensure(y, vm).Ok?
    ensures var after, last := Ensure(y, vm).value, |vm.volumes|;
            && DetectBootstrap(after.volumes) == OnNoCloud(last)
            && after.volumes[..last] == vm.volumes && |after.volumes| == last + 1
            && after.disks == (if HasDisk(vm.disks) then vm.disks
                               else vm.disks + [Disk("monitoring-cloudinitdisk",
                                                     if Detect(vm.labels) == Windows then "sata" else "virtio")])
            && after.volumes[last].name == "monitoring-cloudinit"
            && var read := Reading(y, after.volumes[last].noCloud.value.userData);
               read.Some? && IsManaged(read.value, OSFor(Detect(vm.labels)))
  {
    hide Merge, Stamped, HasSSHAccess, HasDisk, HasVolume, Detect, InjectBootstrap, Get, Reading, IsManaged,
         ReadsBack, SSHUser;
    var family := Detect(vm.labels);
    var os := OSFor(family);
    var bus := if family == Windows then "sata" else "virtio";
    var shared := if vm.ann.Some? then vm.(ann := Some(Stamped(AnnOf(vm), NoBootstrap, family))) else vm;
    FreshTextIsManaged(y, os);
    InjectedAtEnd(y, shared, os, bus);
    var volumes := InjectBootstrap(y, shared, os, bus).value.volumes;
    DetectAppended(volumes, 0);
    assert Ensure(y, vm).value.volumes == volumes && Ensure(y, vm).value.disks == InjectBootstrap(y, shared, os, bus).value.disks;
    assert volumes[..|vm.volumes|] == vm.volumes;
  }

  lemma {:induction false} DetectAppended(volumes: seq<Volume>, from: nat)
    requires from < |volumes| && volumes[|volumes| - 1].noCloud.Some?
    requires forall i :: from <= i < |volumes| - 1 ==> !CarriesBootstrap(volumes[i])
    ensures DetectBootstrap(volumes, from) == OnNoCloud(|volumes| - 1)
    decreases |volumes| - from
  {
    if from < |volumes| - 1 {
      assert !CarriesBootstrap(volumes[from]);
      DetectAppended(volumes, from + 1);
    }
  }
}
