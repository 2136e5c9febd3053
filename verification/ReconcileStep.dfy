/** One `Reconcile` call as a function of the VM's stored state and of everything the call finds
    in its environment.  The imperative controller in VMReconciler.dfy is proved to do this. */
module ReconcileStep {
  import opened Wrappers
  import opened Api
  import opened OsDetect

  /** Every API call of `Reconcile` that can fail. */
  datatype Call =
    | EnsureWindowsSecret | LabelNamespace | ReconcileAlerting | EnsureMonitoringSecret | EnsureLokiRBAC
    | GetVMI | EnsureServiceAndEndpoints | EnsureServiceMonitor
    | PatchCleared | PatchMark | PatchStartedAt | PatchRemediation | PatchBootstrapDone
    | PatchSysprep | PatchCloudInit | PatchBootstrapReady | PatchAlloy | PatchAlloyError | PatchReady

  datatype Lookup = Found | NotFound | Unreadable

  /** What the marker files on a Windows guest say. */
  datatype GuestState = Succeeded | Failed | NotStarted | Odd(text: string)

  /** The wall clock: the time now in seconds, its text, and the reader of such texts. */
  datatype Clock = Clock(now: int, stamp: Value, parse: Value -> Option<int>)

  datatype Env = Env(
    lookup: Lookup,                 // reading the VM itself
    fails: set<Call>,               // the API calls that fail in this step
    message: string,                // the text of the error the step runs into, if any
    clock: Clock,
    vmi: Option<seq<string>>,       // the instance's interface addresses, if it exists
    sshUp: bool,                    // port 22 answers (remediation)
    key: Option<string>,            // private key readable, with the default user name
    state: Option<GuestState>,      // first query of the guest state; None if it fails
    scriptSucceeds: bool,           // remediation script
    sysprepMerges: bool,
    cloudInitMerges: bool,
    exporterUp: bool,               // TCP probe of the exporter
    token: Option<string>,          // Loki token, already trimmed
    config: Option<string>,         // rendered Alloy configuration; None if the route is unusable
    alloyKey: Option<string>,       // the private key as read for the Alloy step
    alloySshUp: bool,
    alloyState: Option<GuestState>, // second query of the guest state
    installSucceeds: bool,
    hash: string -> string)         // hexadecimal SHA-256

  datatype Outcome = Done | RequeueAfter(seconds: nat) | Error

  /** What happened to Alloy: nothing, a (config, token) pair found already installed, or an
      install script that succeeded. */
  datatype Alloy = Untouched | Reused(pair: Desired) | Ran(pair: Desired)

  datatype Desired = Desired(config: string, token: string)

  /** The stored VM: labels and annotations. */
  datatype VM = VM(labels: Labels, ann: Annotations)

  /** Result of a step: the stored annotations afterwards, what the work queue is told, whether a
      remediation script was started, whether a success was recorded, and what Alloy saw. */
  datatype Step = Step(ann: Annotations, outcome: Outcome, started: bool, recorded: bool, alloy: Alloy)

  function Quiet(ann: Annotations, outcome: Outcome): Step {
    Step(ann, outcome, false, false, Untouched)
  }

  predicate OK(call: Call, env: Env) {
    call !in env.fails
  }

  /** `firstIP`: the first non-empty address. */
  function FirstIP(addresses: seq<string>): string {
    if addresses == [] then ""
    else if addresses[0] != "" then addresses[0]
    else FirstIP(addresses[1..])
  }

  function BootstrapTimeout(): int {
    10 * 60
  }

  /** `bootstrapTimedOut`: a readable start time more than ten minutes ago. */
  predicate TimedOut(ann: Annotations, clock: Clock) {
    && Get(ann, AnnBootstrapStartedAt) != Text("")
    && clock.parse(Get(ann, AnnBootstrapStartedAt)).Some?
    && clock.now - clock.parse(Get(ann, AnnBootstrapStartedAt)).value > BootstrapTimeout()
  }

  predicate Settled(status: Value) {
    status == Ready || status == Skipped
  }

  function Mark(ann: Annotations, status: Value, why: Why, env: Env): Step {
    var outcome := if Settled(status) then Done else RequeueAfter(30);
    if Get(ann, AnnStatus) == status && Get(ann, AnnReason) == Because(why) then Quiet(ann, outcome)
    else if !OK(PatchMark, env) then Quiet(ann, Error)
    else Quiet(ann[AnnStatus := status][AnnReason := Because(why)], outcome)
  }

  predicate Managed(ann: Annotations) {
    Get(ann, AnnBootstrapManaged) == True
  }

  /** Left by the webhook on a VM whose OS it could not tell. */
  predicate MarkedUnknown(ann: Annotations) {
    Get(ann, AnnBootstrapOS) == UnknownOS || Get(ann, AnnExporter) == UnknownOS
  }

  predicate RemediationDue(ann: Annotations) {
    Get(ann, AnnRemediationRequired) == True
  }

  predicate Completed(ann: Annotations) {
    Get(ann, AnnRemediationCompleted) == True
  }

  predicate SysprepDue(ann: Annotations) {
    Get(ann, AnnSysprepMergeRequired) == True && Get(ann, AnnSysprepMerged) != True
  }

  predicate CloudInitDue(ann: Annotations) {
    Get(ann, AnnCloudInitSecretMergeRequired) == True && Get(ann, AnnCloudInitSecretMerged) != True
  }

  function ClearUnknown(ann: Annotations, env: Env): Step {
    if OK(PatchCleared, env)
    then Quiet(ann - {AnnBootstrapOS, AnnExporter, AnnReason, AnnStatus}, RequeueAfter(1))
    else Quiet(ann, Error)
  }

  /** The namespace-wide preparations; the first that fails decides. */
  function Prepare(family: Family, ann: Annotations, env: Env): Option<Step> {
    if family == Windows && !OK(EnsureWindowsSecret, env) then Some(Quiet(ann, Error))
    else if !OK(LabelNamespace, env) then Some(Quiet(ann, Error))
    else if !OK(ReconcileAlerting, env) then Some(Quiet(ann, Error))
    else if !OK(EnsureMonitoringSecret, env) then Some(Mark(ann, Pending, MonitoringSecretError, env))
    else if !OK(EnsureLokiRBAC, env) then Some(Quiet(ann, Error))
    else None
  }

  function RecordFailure(ann: Annotations, env: Env, started: bool): Step {
    if OK(PatchRemediation, env)
    then Step(ann[AnnRemediationError := Text(env.message)], RequeueAfter(30), started, false, Untouched)
    else Step(ann, Error, started, false, Untouched)
  }

  function RunRemediation(ann: Annotations, env: Env): Step {
    if !env.scriptSucceeds then RecordFailure(ann, env, true)
    else if OK(PatchRemediation, env) then
      Step(ann[AnnRemediationCompleted := True] - {AnnRemediationError, AnnRemediationRequired},
           RequeueAfter(5), true, true, Untouched)
    else Step(ann, Error, true, false, Untouched)
  }

  predicate UserKnown(ann: Annotations, defaultUser: string) {
    Get(ann, AnnLinuxSSHUser) != Text("") || defaultUser != ""
  }

  function RemediateLinux(ann: Annotations, env: Env): Step {
    if !env.sshUp then Mark(ann, Pending, WaitingForSSHForLinuxRemediation, env)
    else if env.key.None? then RecordFailure(ann, env, false)
    else if !UserKnown(ann, env.key.value) then Mark(ann, Pending, LinuxSSHUserMissing, env)
    else RunRemediation(ann, env)
  }

  function RemediateWindows(ann: Annotations, env: Env): Step {
    if env.key.None? then RecordFailure(ann, env, false)
    else if env.state.None? then Mark(ann, Pending, WaitingForBootstrapState, env)
    else if env.state.value == Succeeded then
      if OK(PatchBootstrapDone, env)
      then Quiet(ann[AnnRemediationRequired := False] - {AnnAlloyError}, RequeueAfter(5))
      else Quiet(ann, Error)
    else if && env.state.value == NotStarted
            && Get(ann, AnnSSHBootstrapComplete) != True
            && !TimedOut(ann, env.clock)
    then Mark(ann, Pending, BootstrapInProgress, env)
    else RunRemediation(ann, env)
  }

  function Remediate(family: Family, ann: Annotations, env: Env): Step {
    if !OK(GetVMI, env) then Quiet(ann, Error)
    else if env.vmi.None? then
      Mark(ann, Pending, if family == Linux then WaitingForVMIForLinuxRemediation else WaitingForVMIForWindowsRemediation, env)
    else if FirstIP(env.vmi.value) == "" then
      Mark(ann, Pending, if family == Linux then WaitingForIPForLinuxRemediation else WaitingForIPForWindowsRemediation, env)
    else
      var first := Get(ann, AnnBootstrapStartedAt) == Text("");
      if first && !OK(PatchStartedAt, env) then Quiet(ann, Error)
      else
        var stamped := if first then ann[AnnBootstrapStartedAt := env.clock.stamp] else ann;
        if family == Linux then RemediateLinux(stamped, env) else RemediateWindows(stamped, env)
  }

  function MergeSysprep(ann: Annotations, env: Env): Step {
    if !OK(PatchSysprep, env) then Quiet(ann, Error)
    else if env.sysprepMerges then Quiet(ann[AnnSysprepMerged := True] - {AnnSysprepMergeError}, RequeueAfter(5))
    else Quiet(ann[AnnSysprepMergeError := Text(env.message)], RequeueAfter(30))
  }

  function MergeCloudInit(ann: Annotations, env: Env): Step {
    if !OK(PatchCloudInit, env) then Quiet(ann, Error)
    else if env.cloudInitMerges
    then Quiet(ann[AnnCloudInitSecretMerged := True] - {AnnCloudInitSecretMergeError}, RequeueAfter(5))
    else Quiet(ann[AnnCloudInitSecretMergeError := Text(env.message)], RequeueAfter(30))
  }

  /** `hashStrings`: each value followed by a NUL. */
  function Frame(values: seq<string>): string {
    if values == [] then "" else values[0] + "\0" + Frame(values[1..])
  }

  function HashOf(pair: Desired, env: Env): Value {
    Text(env.hash(Frame([pair.config, pair.token])))
  }

  /** Result of the Alloy part: annotations, success, and what ran. */
  datatype AlloyStep = AlloyStep(ann: Annotations, ok: bool, alloy: Alloy)

  predicate AlloyCurrent(ann: Annotations, pair: Desired, env: Env) {
    Get(ann, AnnAlloyConfigHash) == HashOf(pair, env) && Get(ann, AnnAlloyInstalled) == True
  }

  /** Everything the install needs beyond the token and the configuration. */
  predicate CanInstall(family: Family, ann: Annotations, env: Env) {
    if family == Linux then env.alloySshUp
    else
      && env.alloyKey.Some?
      && env.alloyState.Some?
      && (env.alloyState.value == Succeeded || Get(ann, AnnRemediationCompleted) == True)
  }

  function InstallAlloy(family: Family, ann: Annotations, pair: Desired, env: Env): AlloyStep {
    if AlloyCurrent(ann, pair, env) then AlloyStep(ann, true, Reused(pair))
    else if !CanInstall(family, ann, env) || !env.installSucceeds then AlloyStep(ann, false, Untouched)
    else if !OK(PatchAlloy, env) then AlloyStep(ann, false, Ran(pair))
    else AlloyStep(ann[AnnAlloyInstalled := True][AnnAlloyConfigHash := HashOf(pair, env)] - {AnnAlloyError},
                   true, Ran(pair))
  }

  predicate LinuxAccess(ann: Annotations, env: Env) {
    env.alloyKey.Some? && UserKnown(ann, env.alloyKey.value)
  }

  function AlloyIfEnabled(family: Family, ann: Annotations, env: Env): AlloyStep {
    if Get(ann, AnnLoggingEnabled) != True then AlloyStep(ann, true, Untouched)
    else if family == Linux && !LinuxAccess(ann, env) then AlloyStep(ann, false, Untouched)
    else if env.token.None? || env.config.None? then AlloyStep(ann, false, Untouched)
    else InstallAlloy(family, ann, Desired(env.config.value, env.token.value), env)
  }

  /** The guest state the sync step goes by. */
  function SyncState(family: Family, env: Env): GuestState {
    if family == Windows && env.key.Some? && env.state.Some? then env.state.value else NotStarted
  }

  /** Reasons to wait although the exporter does not answer; None when the step goes on. */
  function ProbeVerdict(ann: Annotations, state: GuestState, env: Env): Option<Why> {
    if env.exporterUp then None
    else
      match state
      case Succeeded => None
      case Failed => None
      case NotStarted => if TimedOut(ann, env.clock) then None else Some(BootstrapInProgress)
      case Odd(_) => Some(ExporterNotReady)
  }

  function FinishSync(family: Family, ann: Annotations, env: Env): Step {
    var a := AlloyIfEnabled(family, ann, env);
    if !a.ok then
      if !OK(PatchAlloyError, env) then Step(a.ann, Error, false, false, a.alloy)
      else Mark(a.ann[AnnAlloyError := Text(env.message)], Pending, AlloyInstallFailed, env).(alloy := a.alloy)
    else if !OK(PatchReady, env) then Step(a.ann, Error, false, false, a.alloy)
    else
      Mark((a.ann - {AnnAlloyError, AnnReason})[AnnRemediationRequired := False], Ready, Verified, env)
        .(alloy := a.alloy)
  }

  /** `syncMetricsScrapeResources`. */
  function Sync(family: Family, ann: Annotations, addresses: seq<string>, env: Env): Step {
    if FirstIP(addresses) == "" then Mark(ann, Pending, WaitingForIP, env)
    else if !OK(EnsureServiceAndEndpoints, env) || !OK(EnsureServiceMonitor, env) then Quiet(ann, Error)
    else
      var state := SyncState(family, env);
      match ProbeVerdict(ann, state, env)
      case Some(why) => Mark(ann, Pending, why, env)
      case None =>
        if family == Windows && state == Succeeded then
          if !OK(PatchBootstrapReady, env) then Quiet(ann, Error)
          else
            FinishSync(family, (ann - {AnnAlloyError, AnnReason})[AnnRemediationRequired := False][AnnBootstrapReady := True], env)
        else FinishSync(family, ann, env)
  }

  function Monitor(family: Family, ann: Annotations, env: Env): Step {
    if RemediationDue(ann) then Remediate(family, ann, env)
    else if SysprepDue(ann) then MergeSysprep(ann, env)
    else if CloudInitDue(ann) then MergeCloudInit(ann, env)
    else if !OK(GetVMI, env) then Quiet(ann, Error)
    else if env.vmi.None? then Mark(ann, Pending, WaitingForVMI, env)
    else Sync(family, ann, env.vmi.value, env)
  }

  /** `Reconcile`. */
  function Reconcile(vm: VM, env: Env): Step {
    var ann, family := vm.ann, Detect(vm.labels);
    if env.lookup == NotFound then Quiet(ann, Done)
    else if env.lookup == Unreadable then Quiet(ann, Error)
    else if !Managed(ann) then Quiet(ann, Done)
    else if family != Unknown && MarkedUnknown(ann) then ClearUnknown(ann, env)
    else if family == Unknown then Mark(ann, Skipped, MissingOSLabel, env)
    else
      match Prepare(family, ann, env)
      case Some(step) => step
      case None => Monitor(family, ann, env)
  }
}
