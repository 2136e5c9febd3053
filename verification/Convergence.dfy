/** Convergence: in a cooperative environment a managed VM with a known OS becomes ready, after one
    step more than it has obligations, whatever state its annotations start in. */
module Convergence {
  import opened Wrappers
  import opened Api
  import opened OsDetect
  import opened ReconcileStep
  import opened StepFacts
  import opened ReadyGate

  /** Nothing is left for the remediation script to do that logging would need. */
  predicate Prepared(ann: Annotations) {
    Get(ann, AnnLoggingEnabled) == True ==>
      Get(ann, AnnRemediationRequired) == True || Get(ann, AnnRemediationCompleted) == True
  }

  /** The bootstrap of a Windows guest reports success, both times it is asked. */
  predicate GuestFinished(env: Env) {
    env.state == Some(Succeeded) && env.alloyState == Some(Succeeded)
  }

  /** It answers, but has no success to report, as on a VM that existed before the program: the
      remediation script does the work, at once if kvoctl prepared the guest or it reports failure. */
  predicate GuestTakenOver(ann: Annotations, env: Env) {
    && env.state.Some? && env.state.value != Succeeded && env.alloyState.Some?
    && (env.state.value == NotStarted ==> Get(ann, AnnSSHBootstrapComplete) == True)
    && Prepared(ann)
  }

  /** API calls, merges and scripts succeed, the instance has an address, the exporter answers, and
      the user of a Linux guest is known. */
  predicate WorldHelps(vm: VM, env: Env) {
    && env.lookup == Found && env.fails == {}
    && env.vmi.Some? && HasAddress(env.vmi.value) && env.exporterUp
    && env.key.Some? && env.sshUp && env.scriptSucceeds && env.sysprepMerges && env.cloudInitMerges
    && env.token.Some? && env.config.Some? && env.alloyKey.Some? && env.alloySshUp && env.installSucceeds
    && (Detect(vm.labels) == Linux ==>
          Get(vm.ann, AnnLinuxSSHUser) != Text("") || (env.key.value != "" && env.alloyKey.value != ""))
  }

  /** The world helps, and a Windows guest has finished or can be taken over. */
  predicate Cooperative(vm: VM, env: Env) {
    WorldHelps(vm, env) && (Detect(vm.labels) == Windows ==> GuestFinished(env) || GuestTakenOver(vm.ann, env))
  }

  function Count(b: bool): nat {
    if b then 1 else 0
  }

  /** The obligations a VM still has before it can be declared ready. */
  function Obligations(ann: Annotations): nat {
    Count(Get(ann, AnnBootstrapOS) == UnknownOS || Get(ann, AnnExporter) == UnknownOS)
    + Count(Get(ann, AnnRemediationRequired) == True)
    + Count(Get(ann, AnnSysprepMergeRequired) == True && Get(ann, AnnSysprepMerged) != True)
    + Count(Get(ann, AnnCloudInitSecretMergeRequired) == True && Get(ann, AnnCloudInitSecretMerged) != True)
  }

  lemma ClearLowers(ann: Annotations, env: Env)
    requires MarkedUnknown(ann) && OK(PatchCleared, env)
    ensures Obligations(ClearUnknown(ann, env).ann) == Obligations(ann) - 1
  {
  }

  lemma RemediateSucceeds(vm: VM, env: Env)
    requires Cooperative(vm, env) && Detect(vm.labels) != Unknown
    ensures var stamped := Stamped(vm.ann, env);
            Remediate(Detect(vm.labels), vm.ann, env).ann ==
              if Detect(vm.labels) == Linux || env.state != Some(Succeeded)
              then stamped[AnnRemediationCompleted := True] - {AnnRemediationError, AnnRemediationRequired}
              else stamped[AnnRemediationRequired := False] - {AnnAlloyError}
  {
    FirstIPIsFirst(env.vmi.value);
    hide Detect, FirstIP, HasAddress, Mark, TimedOut;
    assert UserKnown(Stamped(vm.ann, env), env.key.value) == UserKnown(vm.ann, env.key.value);
    assert Get(Stamped(vm.ann, env), AnnSSHBootstrapComplete) == Get(vm.ann, AnnSSHBootstrapComplete);
  }

  lemma StampKeepsObligations(ann: Annotations, env: Env)
    ensures Obligations(Stamped(ann, env)) == Obligations(ann)
    ensures RemediationDue(Stamped(ann, env)) == RemediationDue(ann)
  {
  }

  lemma LiftingLowers(ann: Annotations)
    requires RemediationDue(ann)
    ensures Obligations(ann[AnnRemediationCompleted := True] - {AnnRemediationError, AnnRemediationRequired})
            == Obligations(ann) - 1
    ensures Obligations(ann[AnnRemediationRequired := False] - {AnnAlloyError}) == Obligations(ann) - 1
  {
  }

  lemma RemediateLowers(vm: VM, env: Env)
    requires Cooperative(vm, env) && Detect(vm.labels) != Unknown && RemediationDue(vm.ann)
    ensures Obligations(Remediate(Detect(vm.labels), vm.ann, env).ann) == Obligations(vm.ann) - 1
  {
    hide Detect, Remediate, Cooperative, Obligations, Stamped, RemediationDue;
    RemediateSucceeds(vm, env);
    StampKeepsObligations(vm.ann, env);
    LiftingLowers(Stamped(vm.ann, env));
  }

  lemma MergeSysprepLowers(ann: Annotations, env: Env)
    requires env.fails == {} && env.sysprepMerges && SysprepDue(ann)
    ensures Obligations(MergeSysprep(ann, env).ann) == Obligations(ann) - 1
  {
  }

  lemma MergeCloudInitLowers(ann: Annotations, env: Env)
    requires env.fails == {} && env.cloudInitMerges && CloudInitDue(ann)
    ensures Obligations(MergeCloudInit(ann, env).ann) == Obligations(ann) - 1
  {
  }

  lemma CooperativePrepares(vm: VM, env: Env)
    requires Cooperative(vm, env)
    ensures Prepare(Detect(vm.labels), vm.ann, env) == None
  {
    hide Detect, HasAddress, Mark;
  }

  /** With an obligation left, the step discharges exactly one. */
  lemma StepLowers(vm: VM, env: Env)
    requires Managed(vm.ann) && Detect(vm.labels) != Unknown && Cooperative(vm, env)
    requires Obligations(vm.ann) > 0
    ensures Obligations(Reconcile(vm, env).ann) == Obligations(vm.ann) - 1
  {
    CooperativePrepares(vm, env);
    if SysprepDue(vm.ann) { MergeSysprepLowers(vm.ann, env); }
    if CloudInitDue(vm.ann) { MergeCloudInitLowers(vm.ann, env); }
    if MarkedUnknown(vm.ann) { ClearLowers(vm.ann, env); }
    else if RemediationDue(vm.ann) { RemediateLowers(vm, env); }
    hide Prepare, ClearUnknown, Remediate, MergeSysprep, MergeCloudInit, Sync, Mark, Detect,
         MarkedUnknown, RemediationDue, SysprepDue, CloudInitDue;
  }

  /** With none left, the step declares the VM ready, and no obligation comes back. */
  lemma StepReady(vm: VM, env: Env)
    requires Managed(vm.ann) && Detect(vm.labels) != Unknown && Cooperative(vm, env)
    requires Obligations(vm.ann) == 0
    ensures var step := Reconcile(vm, env);
            && step.outcome == Done && ReadyState(step.ann) && LoggingCurrent(step.ann, env)
            && Obligations(step.ann) == 0
  {
    ReadyIff(vm, env);
    ObligationsNeverRise(vm, env);
    hide Reconcile, Detect, Frame;
  }

  /** What the sync step does to the names behind the obligations. */
  predicate NoNewObligation(a: Annotations, b: Annotations) {
    && Get(a, AnnBootstrapOS) == Get(b, AnnBootstrapOS) && Get(a, AnnExporter) == Get(b, AnnExporter)
    && Get(a, AnnSysprepMerged) == Get(b, AnnSysprepMerged)
    && Get(a, AnnCloudInitSecretMerged) == Get(b, AnnCloudInitSecretMerged)
    && (RemediationDue(b) ==> RemediationDue(a))
  }

  lemma SettingAddsNone(ann: Annotations, now: Annotations, key: Key, value: Value)
    requires key == AnnStatus || key == AnnReason
    ensures NoNewObligation(ann, ann)
    ensures NoNewObligation(ann, now) ==> NoNewObligation(ann, now[key := value])
  {
  }

  lemma MarkAddsNone(ann: Annotations, status: Value, why: Why, env: Env)
    ensures NoNewObligation(ann, Mark(ann, status, why, env).ann)
  {
    hide Get, NoNewObligation;
    SettingAddsNone(ann, ann, AnnStatus, status);
    SettingAddsNone(ann, ann[AnnStatus := status], AnnReason, Because(why));
  }

  lemma AlloyAddsNone(family: Family, ann: Annotations, env: Env)
    ensures NoNewObligation(ann, AlloyIfEnabled(family, ann, env).ann)
  {
    hide HashOf, CanInstall, LinuxAccess, AlloyCurrent;
  }

  lemma FinishAddsNone(family: Family, ann: Annotations, env: Env)
    ensures NoNewObligation(ann, FinishSync(family, ann, env).ann)
  {
    var a := AlloyIfEnabled(family, ann, env);
    AlloyAddsNone(family, ann, env);
    hide AlloyIfEnabled, Mark;
    MarkAddsNone(a.ann[AnnAlloyError := Text(env.message)], Pending, AlloyInstallFailed, env);
    MarkAddsNone((a.ann - {AnnAlloyError, AnnReason})[AnnRemediationRequired := False], Ready, Verified, env);
  }

  lemma SyncAddsNone(family: Family, ann: Annotations, addresses: seq<string>, env: Env)
    ensures NoNewObligation(ann, Sync(family, ann, addresses, env).ann)
  {
    hide FinishSync, Mark, FirstIP, TimedOut;
    MarkAddsNone(ann, Pending, WaitingForIP, env);
    MarkAddsNone(ann, Pending, BootstrapInProgress, env);
    MarkAddsNone(ann, Pending, ExporterNotReady, env);
    FinishAddsNone(family, ann, env);
    FinishAddsNone(family, Cleaned(ann), env);
  }

  lemma RemediateAddsNone(family: Family, ann: Annotations, env: Env)
    ensures NoNewObligation(ann, Remediate(family, ann, env).ann)
  {
    hide Mark, FirstIP, RemediateLinux, RemediateWindows, NoNewObligation, Get;
    var stamped := ann[AnnBootstrapStartedAt := env.clock.stamp];
    StampAddsNone(ann, env);
    MarkAddsNone(ann, Pending, WaitingForVMIForLinuxRemediation, env);
    MarkAddsNone(ann, Pending, WaitingForVMIForWindowsRemediation, env);
    MarkAddsNone(ann, Pending, WaitingForIPForLinuxRemediation, env);
    MarkAddsNone(ann, Pending, WaitingForIPForWindowsRemediation, env);
    LinuxAddsNone(ann, env);
    WindowsAddsNone(ann, env);
    LinuxAddsNone(stamped, env);
    WindowsAddsNone(stamped, env);
    AddsNoneTwice(ann, stamped, RemediateLinux(stamped, env).ann);
    AddsNoneTwice(ann, stamped, RemediateWindows(stamped, env).ann);
  }

  lemma StampAddsNone(ann: Annotations, env: Env)
    ensures NoNewObligation(ann, ann) && NoNewObligation(ann, ann[AnnBootstrapStartedAt := env.clock.stamp])
  {
  }

  lemma AddsNoneTwice(a: Annotations, b: Annotations, c: Annotations)
    ensures NoNewObligation(a, b) && NoNewObligation(b, c) ==> NoNewObligation(a, c)
  {
    hide Get;
  }

  lemma ScriptAddsNone(ann: Annotations, env: Env, started: bool)
    ensures NoNewObligation(ann, RunRemediation(ann, env).ann)
    ensures NoNewObligation(ann, RecordFailure(ann, env, started).ann)
  {
  }

  lemma LinuxAddsNone(ann: Annotations, env: Env)
    ensures NoNewObligation(ann, RemediateLinux(ann, env).ann)
  {
    hide Mark, RunRemediation, RecordFailure, UserKnown, NoNewObligation, Get;
    MarkAddsNone(ann, Pending, WaitingForSSHForLinuxRemediation, env);
    MarkAddsNone(ann, Pending, LinuxSSHUserMissing, env);
    ScriptAddsNone(ann, env, false);
  }

  lemma WindowsAddsNone(ann: Annotations, env: Env)
    ensures NoNewObligation(ann, RemediateWindows(ann, env).ann)
  {
    assert NoNewObligation(ann, ann[AnnRemediationRequired := False] - {AnnAlloyError}) && NoNewObligation(ann, ann);
    hide Mark, RunRemediation, RecordFailure, TimedOut, NoNewObligation, Get;
    MarkAddsNone(ann, Pending, WaitingForBootstrapState, env);
    MarkAddsNone(ann, Pending, BootstrapInProgress, env);
    ScriptAddsNone(ann, env, false);
  }

  /** A merge never makes another merge due. */
  predicate NoMoreDue(a: Annotations, b: Annotations) {
    && (MarkedUnknown(b) ==> MarkedUnknown(a)) && (RemediationDue(b) ==> RemediationDue(a))
    && (SysprepDue(b) ==> SysprepDue(a)) && (CloudInitDue(b) ==> CloudInitDue(a))
  }

  lemma SysprepAddsNone(ann: Annotations, env: Env)
    ensures NoMoreDue(ann, MergeSysprep(ann, env).ann)
  {
  }

  lemma CloudInitAddsNone(ann: Annotations, env: Env)
    ensures NoMoreDue(ann, MergeCloudInit(ann, env).ann)
  {
  }

  lemma ClearAddsNone(ann: Annotations, env: Env)
    ensures NoMoreDue(ann, ClearUnknown(ann, env).ann)
  {
  }

  lemma MonitorAddsNone(family: Family, ann: Annotations, env: Env)
    ensures NoNewObligation(ann, Monitor(family, ann, env).ann) || NoMoreDue(ann, Monitor(family, ann, env).ann)
  {
    hide Remediate, MergeSysprep, MergeCloudInit, Mark, Sync, NoNewObligation, NoMoreDue, Get;
    StampAddsNone(ann, env);
    RemediateAddsNone(family, ann, env);
    SysprepAddsNone(ann, env);
    CloudInitAddsNone(ann, env);
    MarkAddsNone(ann, Pending, WaitingForVMI, env);
    if env.vmi.Some? { SyncAddsNone(family, ann, env.vmi.value, env); }
  }

  lemma SameNamesSameDue(a: Annotations, b: Annotations)
    requires NoNewObligation(a, b)
    requires Get(a, AnnSysprepMergeRequired) == Get(b, AnnSysprepMergeRequired)
    requires Get(a, AnnCloudInitSecretMergeRequired) == Get(b, AnnCloudInitSecretMergeRequired)
    ensures NoMoreDue(a, b)
  {
    hide Get;
  }

  /** No step, in whatever environment and however it ends, adds an obligation. */
  lemma ObligationsNeverRise(vm: VM, env: Env)
    ensures Obligations(Reconcile(vm, env).ann) <= Obligations(vm.ann)
  {
    var after := Reconcile(vm, env).ann;
    StepAddsNone(vm, env);
    if NoNewObligation(vm.ann, after) {
      ReconcileFacts(vm, env);
      hide Reconcile, RecordFacts, AlloyFacts, NoNewObligation, NoMoreDue, Get;
      SameNamesSameDue(vm.ann, after);
    }
    hide Reconcile, MarkedUnknown, RemediationDue, SysprepDue, CloudInitDue, NoNewObligation;
  }

  lemma StepAddsNone(vm: VM, env: Env)
    ensures NoNewObligation(vm.ann, Reconcile(vm, env).ann) || NoMoreDue(vm.ann, Reconcile(vm, env).ann)
  {
    hide Monitor, Mark, Detect, ClearUnknown, NoNewObligation, NoMoreDue, Get, MarkedUnknown;
    StampAddsNone(vm.ann, env);
    MonitorAddsNone(Detect(vm.labels), vm.ann, env);
    ClearAddsNone(vm.ann, env);
    MarkAddsNone(vm.ann, Pending, MonitoringSecretError, env);
    MarkAddsNone(vm.ann, Skipped, MissingOSLabel, env);
  }

  /** Due or completed stays due or completed, unless the guest reports success. */
  predicate StillDue(a: Annotations, b: Annotations) {
    RemediationDue(a) ==> RemediationDue(b) || Completed(b)
  }

  lemma MarkKeepsDue(ann: Annotations, status: Value, why: Why, env: Env)
    ensures StillDue(ann, Mark(ann, status, why, env).ann)
  {
  }

  lemma ScriptKeepsDue(ann: Annotations, env: Env, started: bool)
    ensures StillDue(ann, RunRemediation(ann, env).ann) && StillDue(ann, RecordFailure(ann, env, started).ann)
  {
  }

  lemma RemediateKeepsDue(ann: Annotations, env: Env)
    requires env.state != Some(Succeeded)
    ensures StillDue(ann, Remediate(Windows, ann, env).ann)
  {
    hide Mark, FirstIP, TimedOut, RunRemediation, RecordFailure, Get, StillDue;
    var stamped := ann[AnnBootstrapStartedAt := env.clock.stamp];
    StampKeepsDue(ann, env);
    MarkKeepsDue(ann, Pending, WaitingForVMIForWindowsRemediation, env);
    MarkKeepsDue(ann, Pending, WaitingForIPForWindowsRemediation, env);
    MarkKeepsDue(ann, Pending, WaitingForBootstrapState, env);
    MarkKeepsDue(ann, Pending, BootstrapInProgress, env);
    ScriptKeepsDue(ann, env, false);
    MarkKeepsDue(stamped, Pending, WaitingForBootstrapState, env);
    MarkKeepsDue(stamped, Pending, BootstrapInProgress, env);
    ScriptKeepsDue(stamped, env, false);
    SameDue(ann, env, RemediateWindows(stamped, env).ann);
  }

  lemma StampKeepsDue(ann: Annotations, env: Env)
    ensures StillDue(ann, ann) && StillDue(ann, ann[AnnBootstrapStartedAt := env.clock.stamp])
  {
  }

  lemma SameDue(ann: Annotations, env: Env, after: Annotations)
    ensures StillDue(ann[AnnBootstrapStartedAt := env.clock.stamp], after) <==> StillDue(ann, after)
  {
  }

  lemma StepKeepsDue(vm: VM, env: Env)
    requires Detect(vm.labels) == Windows && RemediationDue(vm.ann) && env.state != Some(Succeeded)
    ensures StillDue(vm.ann, Reconcile(vm, env).ann)
  {
    hide Remediate, Mark, Detect, MarkedUnknown, RemediationDue, StillDue, ClearUnknown;
    ClearKeepsDue(vm.ann, env);
    StampKeepsDue(vm.ann, env);
    RemediateKeepsDue(vm.ann, env);
    MarkKeepsDue(vm.ann, Pending, MonitoringSecretError, env);
  }

  lemma ClearKeepsDue(ann: Annotations, env: Env)
    ensures StillDue(ann, ClearUnknown(ann, env).ann)
  {
  }

  lemma StepKeepsPrepared(vm: VM, env: Env)
    requires Detect(vm.labels) == Windows && env.state != Some(Succeeded) && Prepared(vm.ann)
    ensures Prepared(Reconcile(vm, env).ann)
  {
    ReconcileFacts(vm, env);
    if RemediationDue(vm.ann) { StepKeepsDue(vm, env); }
    hide Reconcile, Detect, AlloyFacts;
  }

  /** A step does not spoil later cooperation: it writes neither the managed mark nor the SSH user,
      and it leaves a guest that can be taken over in that state unless the guest reports success. */
  lemma StepStaysCooperative(vm: VM, env: Env, later: Env)
    requires Cooperative(vm, later)
    requires Detect(vm.labels) == Windows && env.state == Some(Succeeded) ==> later.state == Some(Succeeded)
    ensures Cooperative(VM(vm.labels, Reconcile(vm, env).ann), later)
    ensures Managed(vm.ann) ==> Managed(Reconcile(vm, env).ann)
  {
    ReconcileFacts(vm, env);
    if Detect(vm.labels) == Windows && env.state != Some(Succeeded) && Prepared(vm.ann) { StepKeepsPrepared(vm, env); }
    hide Reconcile, RecordFacts, AlloyFacts, Detect, HasAddress, Prepared;
  }

  /** A run of controller steps alone. */
  function Steps(vm: VM, envs: seq<Env>): VM
    decreases |envs|
  {
    if envs == [] then vm else Steps(VM(vm.labels, Reconcile(vm, envs[0]).ann), envs[1..])
  }

  /** A success that a Windows guest has once reported it does not take back. */
  predicate SuccessLasts(envs: seq<Env>) {
    forall i, j :: 0 <= i < j < |envs| && envs[i].state == Some(Succeeded) ==> envs[j].state == Some(Succeeded)
  }

  /** Each step discharges one obligation until none is left; the step after that makes the VM
      ready, and it stays ready.  There are at most four obligations, so five steps suffice. */
  lemma {:induction false} Converges(vm: VM, envs: seq<Env>)
    requires Managed(vm.ann) && Detect(vm.labels) != Unknown
    requires forall i :: 0 <= i < |envs| ==> Cooperative(vm, envs[i])
    requires Detect(vm.labels) == Windows ==> SuccessLasts(envs)
    ensures Obligations(vm.ann) <= 4
    ensures var after := Steps(vm, envs).ann;
            if |envs| <= Obligations(vm.ann) then Obligations(after) == Obligations(vm.ann) - |envs|
            else Obligations(after) == 0 && ReadyState(after) && LoggingCurrent(after, envs[|envs| - 1])
    decreases |envs|
  {
    hide Reconcile, Cooperative, Obligations, ReadyState, LoggingCurrent, Detect, Managed;
    AtMostFour(vm.ann);
    if envs != [] {
      var next := VM(vm.labels, Reconcile(vm, envs[0]).ann);
      assert Cooperative(vm, envs[0]);
      if Obligations(vm.ann) > 0 { StepLowers(vm, envs[0]); } else { StepReady(vm, envs[0]); }
      forall i | 0 <= i < |envs| - 1 ensures Cooperative(next, envs[1..][i]) {
        StepStaysCooperative(vm, envs[0], envs[i + 1]);
      }
      StepStaysCooperative(vm, envs[0], envs[0]);
      Converges(next, envs[1..]);
    }
  }

  lemma AtMostFour(ann: Annotations)
    ensures Obligations(ann) <= 4
  {
  }

  /** How many steps of a run were cooperative when they were taken. */
  function Helpful(vm: VM, envs: seq<Env>): nat
    decreases |envs|
  {
    if envs == [] then 0
    else Count(Cooperative(vm, envs[0])) + Helpful(VM(vm.labels, Reconcile(vm, envs[0]).ann), envs[1..])
  }

  /** Failing steps in between cost nothing but time: each cooperative step of any run discharges an
      obligation, and no other step adds one. */
  lemma {:induction false} ProgressDespiteFailures(vm: VM, envs: seq<Env>)
    requires Managed(vm.ann) && Detect(vm.labels) != Unknown
    ensures var after := Steps(vm, envs);
            && after.labels == vm.labels && Managed(after.ann)
            && (Helpful(vm, envs) < Obligations(vm.ann) ==> Obligations(after.ann) <= Obligations(vm.ann) - Helpful(vm, envs))
            && (Helpful(vm, envs) >= Obligations(vm.ann) ==> Obligations(after.ann) == 0)
    decreases |envs|
  {
    hide Reconcile, Cooperative, Obligations, Detect, Managed;
    if envs != [] {
      var next := VM(vm.labels, Reconcile(vm, envs[0]).ann);
      StaysManaged(vm, envs[0]);
      ObligationsNeverRise(vm, envs[0]);
      if Cooperative(vm, envs[0]) && Obligations(vm.ann) > 0 { StepLowers(vm, envs[0]); }
      ProgressDespiteFailures(next, envs[1..]);
    }
  }

  lemma StaysManaged(vm: VM, env: Env)
    requires Managed(vm.ann)
    ensures Managed(Reconcile(vm, env).ann)
  {
    ReconcileFacts(vm, env);
    hide Reconcile, RecordFacts, AlloyFacts;
  }

  /** So a VM is ready after any run that ends in a cooperative step and holds as many others as the
      VM had obligations, which are at most four. */
  lemma ReadyDespiteFailures(vm: VM, envs: seq<Env>, last: Env)
    requires Managed(vm.ann) && Detect(vm.labels) != Unknown
    requires Helpful(vm, envs) >= Obligations(vm.ann) && Cooperative(Steps(vm, envs), last)
    ensures var step := Reconcile(Steps(vm, envs), last);
            step.outcome == Done && ReadyState(step.ann) && LoggingCurrent(step.ann, last)
  {
    hide Reconcile, Cooperative, Obligations, Detect, Managed, ReadyState, LoggingCurrent, Steps, Helpful;
    ProgressDespiteFailures(vm, envs);
    StepReady(Steps(vm, envs), last);
  }
}
