/** The other ways a step on a known VM can come back: progress, an error written down, the marks of an
    unknown OS wiped, or a failure of a call; with exactly what it leaves on the VM. */
module StepProgress {
  import opened Wrappers
  import opened Api
  import opened OsDetect
  import opened ReconcileStep
  import opened StepFacts
  import opened ReadyGate
  import opened RemediationGate
  import opened StepOutcomes

  /** The remediation script has run and its success is recorded. */
  predicate ScriptDone(vm: VM, env: Env) {
    MayStart(vm, env) && env.scriptSucceeds && PatchRemediation !in env.fails
  }

  /** A Windows guest has reported success of its own, so that no remediation is needed. */
  predicate GuestDone(vm: VM, env: Env) {
    && MayRemediate(vm, env) && Detect(vm.labels) == Windows && env.key.Some? && env.state == Some(Succeeded)
    && PatchBootstrapDone !in env.fails
  }

  predicate SysprepDone(vm: VM, env: Env) {
    Proceeds(vm, env) && SysprepWaits(vm.ann) && env.sysprepMerges && PatchSysprep !in env.fails
  }

  predicate CloudInitDone(vm: VM, env: Env) {
    Proceeds(vm, env) && CloudInitWaits(vm.ann) && env.cloudInitMerges && PatchCloudInit !in env.fails
  }

  /** A remediation that could not be carried out: no key to be had, or the script failed. */
  predicate RemediationNoted(vm: VM, env: Env) {
    && PatchRemediation !in env.fails
    && (|| (MayRemediate(vm, env) && env.key.None? && (Detect(vm.labels) == Linux ==> env.sshUp))
        || (MayStart(vm, env) && !env.scriptSucceeds))
  }

  predicate SysprepNoted(vm: VM, env: Env) {
    Proceeds(vm, env) && SysprepWaits(vm.ann) && !env.sysprepMerges && PatchSysprep !in env.fails
  }

  predicate CloudInitNoted(vm: VM, env: Env) {
    Proceeds(vm, env) && CloudInitWaits(vm.ann) && !env.cloudInitMerges && PatchCloudInit !in env.fails
  }

  predicate Cleared(vm: VM, env: Env) {
    (Get(vm.ann, AnnBootstrapOS) == UnknownOS || Get(vm.ann, AnnExporter) == UnknownOS) && PatchCleared !in env.fails
  }

  predicate Note(ann: Annotations, step: Step, key: Key, env: Env) {
    step.ann == ann[key := Text(env.message)] && step.outcome == RequeueAfter(30)
  }

  /** A step that only waits: it comes back in half a minute pending for a reason, or fails. */
  predicate OnlyWaits(step: Step) {
    step.outcome == Error || (step.outcome == RequeueAfter(30) && Get(step.ann, AnnStatus) == Pending && Get(step.ann, AnnReason).Because?)
  }

  lemma MarkOnlyWaits(ann: Annotations, why: Why, env: Env)
    ensures OnlyWaits(Mark(ann, Pending, why, env))
  {
    var marked := ann[AnnStatus := Pending][AnnReason := Because(why)];
    assert Get(marked, AnnStatus) == Pending && Get(marked, AnnReason) == Because(why);
    hide Get;
  }

  lemma LinuxProgress(ann: Annotations, env: Env)
    ensures var step := RemediateLinux(ann, env);
            var reachable := env.key.Some? && env.sshUp && (Get(ann, AnnLinuxSSHUser) != Text("") || env.key.value != "");
            if reachable && env.scriptSucceeds && PatchRemediation !in env.fails then
              step.outcome == RequeueAfter(5) && step.ann == ann[AnnRemediationCompleted := True] - {AnnRemediationError, AnnRemediationRequired}
            else if PatchRemediation !in env.fails && ((env.sshUp && env.key.None?) || (reachable && !env.scriptSucceeds)) then
              Note(ann, step, AnnRemediationError, env)
            else OnlyWaits(step)
  {
    MarkOnlyWaits(ann, WaitingForSSHForLinuxRemediation, env);
    MarkOnlyWaits(ann, LinuxSSHUserMissing, env);
    hide Mark;
  }

  lemma WindowsProgress(ann: Annotations, env: Env)
    ensures var step := RemediateWindows(ann, env);
            var reachable := && env.key.Some? && env.state.Some? && env.state.value != Succeeded
                             && (env.state.value == NotStarted ==>
                                   Get(ann, AnnSSHBootstrapComplete) == True || LongAgo(Get(ann, AnnBootstrapStartedAt), env.clock));
            if reachable && env.scriptSucceeds && PatchRemediation !in env.fails then
              step.outcome == RequeueAfter(5) && step.ann == ann[AnnRemediationCompleted := True] - {AnnRemediationError, AnnRemediationRequired}
            else if env.key.Some? && env.state == Some(Succeeded) && PatchBootstrapDone !in env.fails then
              step.outcome == RequeueAfter(5) && step.ann == ann[AnnRemediationRequired := False] - {AnnAlloyError}
            else if PatchRemediation !in env.fails && (env.key.None? || (reachable && !env.scriptSucceeds)) then
              Note(ann, step, AnnRemediationError, env)
            else OnlyWaits(step)
  {
    TimedOutIffLongAgo(ann, env.clock);
    MarkOnlyWaits(ann, WaitingForBootstrapState, env);
    MarkOnlyWaits(ann, BootstrapInProgress, env);
    hide Mark, TimedOut, LongAgo;
  }

  /** The remediation of a VM, once its namespace is prepared. */
  lemma RemediateProgress(vm: VM, env: Env)
    requires Known(vm, env) && Proceeds(vm, env) && Due(vm.ann)
    ensures var step, start := Remediate(Detect(vm.labels), vm.ann, env), Stamped(vm.ann, env);
            if ScriptDone(vm, env) then
              step.outcome == RequeueAfter(5) && step.ann == start[AnnRemediationCompleted := True] - {AnnRemediationError, AnnRemediationRequired}
            else if GuestDone(vm, env) then
              step.outcome == RequeueAfter(5) && step.ann == start[AnnRemediationRequired := False] - {AnnAlloyError}
            else if RemediationNoted(vm, env) then Note(start, step, AnnRemediationError, env)
            else OnlyWaits(step)
  {
    var ann, start := vm.ann, Stamped(vm.ann, env);
    StampKeeps(ann, env);
    RemediateShape(Detect(vm.labels), ann, env);
    if !ReachesGuest(ann, env) { RemediateOnlyWaits(Detect(vm.labels), ann, env); }
    LinuxProgress(start, env);
    WindowsProgress(start, env);
    hide Remediate, HasAddress, RemediateLinux, RemediateWindows, OnlyWaits, Note, LongAgo, Detect, PreparationSucceeds, Get,
         Stamped;
  }

  lemma NotStampedFails(ann: Annotations)
    ensures OnlyWaits(Quiet(ann, Error))
  {
  }

  lemma RemediateOnlyWaits(family: Family, ann: Annotations, env: Env)
    requires family != Unknown && !ReachesGuest(ann, env)
    ensures OnlyWaits(Remediate(family, ann, env))
  {
    NotStampedFails(ann);
    RemediateShape(family, ann, env);
    MarkOnlyWaits(ann, WaitingForVMIForLinuxRemediation, env);
    MarkOnlyWaits(ann, WaitingForVMIForWindowsRemediation, env);
    MarkOnlyWaits(ann, WaitingForIPForLinuxRemediation, env);
    MarkOnlyWaits(ann, WaitingForIPForWindowsRemediation, env);
    hide Mark, Remediate, HasAddress, OnlyWaits, Get;
  }

  lemma MergesProgress(ann: Annotations, env: Env)
    ensures var step := MergeSysprep(ann, env);
            if PatchSysprep in env.fails then step.outcome == Error
            else if env.sysprepMerges then
              step.outcome == RequeueAfter(5) && step.ann == ann[AnnSysprepMerged := True] - {AnnSysprepMergeError}
            else Note(ann, step, AnnSysprepMergeError, env)
    ensures var step := MergeCloudInit(ann, env);
            if PatchCloudInit in env.fails then step.outcome == Error
            else if env.cloudInitMerges then
              step.outcome == RequeueAfter(5) && step.ann == ann[AnnCloudInitSecretMerged := True] - {AnnCloudInitSecretMergeError}
            else Note(ann, step, AnnCloudInitSecretMergeError, env)
  {
  }

  lemma FinishOnlyWaits(family: Family, ann: Annotations, env: Env)
    ensures FinishSync(family, ann, env).outcome == Done || OnlyWaits(FinishSync(family, ann, env))
  {
    var a := AlloyIfEnabled(family, ann, env);
    MarkOnlyWaits(a.ann[AnnAlloyError := Text(env.message)], AlloyInstallFailed, env);
    hide AlloyIfEnabled;
  }

  lemma SyncOnlyWaits(family: Family, ann: Annotations, addresses: seq<string>, env: Env)
    ensures Sync(family, ann, addresses, env).outcome == Done || OnlyWaits(Sync(family, ann, addresses, env))
  {
    MarkOnlyWaits(ann, WaitingForIP, env);
    MarkOnlyWaits(ann, BootstrapInProgress, env);
    MarkOnlyWaits(ann, ExporterNotReady, env);
    FinishOnlyWaits(family, ann, env);
    FinishOnlyWaits(family, Cleaned(ann), env);
    FinishIgnoresForm(family, ann, env);
    hide FinishSync, Mark, FirstIP, TimedOut, OnlyWaits, Get;
  }

  lemma FinishIgnoresForm(family: Family, ann: Annotations, env: Env)
    ensures OnlyWaits(Quiet(ann, Error))
    ensures (ann - {AnnAlloyError, AnnReason})[AnnRemediationRequired := False][AnnBootstrapReady := True] == Cleaned(ann)
  {
  }

  /** Every outcome of a step on a known VM, and what it leaves on the VM: nothing is done, written down
      or wiped under other conditions, and nothing else is written then. */
  lemma OutcomeIs(vm: VM, env: Env)
    requires Known(vm, env)
    ensures var step, start := Reconcile(vm, env), Stamped(vm.ann, env);
            if Cleared(vm, env) then
              step.outcome == RequeueAfter(1) && step.ann == vm.ann - {AnnBootstrapOS, AnnExporter, AnnReason, AnnStatus}
            else if ScriptDone(vm, env) then
              step.outcome == RequeueAfter(5) && step.ann == start[AnnRemediationCompleted := True] - {AnnRemediationError, AnnRemediationRequired}
            else if GuestDone(vm, env) then
              step.outcome == RequeueAfter(5) && step.ann == start[AnnRemediationRequired := False] - {AnnAlloyError}
            else if SysprepDone(vm, env) then
              step.outcome == RequeueAfter(5) && step.ann == vm.ann[AnnSysprepMerged := True] - {AnnSysprepMergeError}
            else if CloudInitDone(vm, env) then
              step.outcome == RequeueAfter(5) && step.ann == vm.ann[AnnCloudInitSecretMerged := True] - {AnnCloudInitSecretMergeError}
            else if RemediationNoted(vm, env) then Note(start, step, AnnRemediationError, env)
            else if SysprepNoted(vm, env) then Note(vm.ann, step, AnnSysprepMergeError, env)
            else if CloudInitNoted(vm, env) then Note(vm.ann, step, AnnCloudInitSecretMergeError, env)
            else if Gate(vm, env) then step.outcome == Done
            else OnlyWaits(step)
  {
    NotStampedFails(vm.ann);
    MarkOnlyWaits(vm.ann, MonitoringSecretError, env);
    PrepareGate(Detect(vm.labels), vm.ann, env);
    ReadyIff(vm, env);
    if Proceeds(vm, env) { MonitorOutcomeIs(vm, env); }
    hide Monitor, Mark, Detect, Note, OnlyWaits, HasAddress, Reachable, LoggingSettled, ProbeSettled, CallsSucceed, LongAgo,
         PreparationSucceeds, Stamped, Get;
  }

  lemma MonitorOutcomeIs(vm: VM, env: Env)
    requires Known(vm, env) && Proceeds(vm, env)
    ensures var step, start := Monitor(Detect(vm.labels), vm.ann, env), Stamped(vm.ann, env);
            if ScriptDone(vm, env) then
              step.outcome == RequeueAfter(5) && step.ann == start[AnnRemediationCompleted := True] - {AnnRemediationError, AnnRemediationRequired}
            else if GuestDone(vm, env) then
              step.outcome == RequeueAfter(5) && step.ann == start[AnnRemediationRequired := False] - {AnnAlloyError}
            else if SysprepDone(vm, env) then
              step.outcome == RequeueAfter(5) && step.ann == vm.ann[AnnSysprepMerged := True] - {AnnSysprepMergeError}
            else if CloudInitDone(vm, env) then
              step.outcome == RequeueAfter(5) && step.ann == vm.ann[AnnCloudInitSecretMerged := True] - {AnnCloudInitSecretMergeError}
            else if RemediationNoted(vm, env) then Note(start, step, AnnRemediationError, env)
            else if SysprepNoted(vm, env) then Note(vm.ann, step, AnnSysprepMergeError, env)
            else if CloudInitNoted(vm, env) then Note(vm.ann, step, AnnCloudInitSecretMergeError, env)
            else step.outcome == Done || OnlyWaits(step)
  {
    var family, ann := Detect(vm.labels), vm.ann;
    NotStampedFails(ann);
    MarkOnlyWaits(ann, WaitingForVMI, env);
    MergesProgress(ann, env);
    if Due(ann) { RemediateProgress(vm, env); }
    if env.vmi.Some? { SyncOnlyWaits(family, ann, env.vmi.value, env); }
    hide Remediate, MergeSysprep, MergeCloudInit, Sync, Mark, Detect, Note, HasAddress, Reachable, LongAgo, Stamped, Get;
  }
}
