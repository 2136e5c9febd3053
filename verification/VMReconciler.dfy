/** The controller itself.  It works on a copy of the VM that it edits in place and sends back as
    difference patches; the API server keeps its own object.  Each method is proved to leave on the
    server exactly what ReconcileStep says. */
module VMReconciler {
  import opened MergePatch
  import opened Api
  import opened OsDetect
  import opened ReconcileStep
  import opened StepFacts

  /** The in-memory copy, as `Get` returned it and as patches refresh it. */
  class VirtualMachine {
    var annotations: Annotations

    constructor (ann: Annotations)
      ensures annotations == ann
    {
      annotations := ann;
    }
  }

  /** Marking through a difference patch, decided on the copy, has the effect of marking on the
      server, as long as the two agree on status and reason. */
  lemma MarkByPatch(server: Annotations, copy: Annotations, status: Value, why: Why, env: Env)
    requires AgreeAt(copy, server, AnnStatus) && AgreeAt(copy, server, AnnReason)
    ensures var quiet := if Settled(status) then Done else RequeueAfter(30);
            Mark(server, status, why, env) ==
              if Get(copy, AnnStatus) == status && Get(copy, AnnReason) == Because(why) then Quiet(server, quiet)
              else if !OK(PatchMark, env) then Quiet(server, Error)
              else Quiet(Apply(server, Diff(copy, copy[AnnStatus := status][AnnReason := Because(why)])), quiet)
  {
    hide Apply, Diff;
    UpdatesReachServer(server, copy, AnnStatus, status, AnnReason, Because(why));
  }

  class Reconciler {
    /** The VM object in the API server. */
    const labels: Labels
    var stored: Annotations

    /** What the current call has done, besides the annotations. */
    var started: bool
    var recorded: bool
    var alloy: Alloy

    constructor (vm: VM)
      ensures labels == vm.labels && stored == vm.ann
    {
      labels, stored := vm.labels, vm.ann;
      started, recorded, alloy := false, false, Untouched;
    }

    /** The step so far, were it to end with the given outcome. */
    function SoFar(outcome: Outcome): Step
      reads this
    {
      Step(stored, outcome, started, recorded, alloy)
    }

    /** `r.Patch(ctx, vm, client.MergeFrom(base))`.  The server applies the difference to its own
        object; its answer is decoded over the copy, which keeps the names the answer lacks. */
    method Patch(vm: VirtualMachine, base: Annotations, call: Call, env: Env) returns (ok: bool)
      modifies this`stored, vm
      ensures ok <==> OK(call, env)
      ensures ok ==> stored == Apply(old(stored), Diff(base, old(vm.annotations)))
                     && vm.annotations == old(vm.annotations) + stored
      ensures !ok ==> stored == old(stored) && vm.annotations == old(vm.annotations)
    {
      ok := call !in env.fails;
      if ok {
        stored := Apply(stored, Diff(base, vm.annotations));
        vm.annotations := vm.annotations + stored;
      }
    }

    /** A patch against an up-to-date copy installs that copy. */
    method PatchInSync(vm: VirtualMachine, base: Annotations, call: Call, env: Env) returns (ok: bool)
      requires base == stored
      modifies this`stored, vm
      ensures ok <==> OK(call, env)
      ensures ok ==> stored == vm.annotations == old(vm.annotations)
      ensures !ok ==> stored == old(stored) && vm.annotations == old(vm.annotations)
    {
      ApplyDiff(base, vm.annotations);
      ok := Patch(vm, base, call, env);
      if ok {
        assert vm.annotations == old(vm.annotations);
      }
    }

    /** `mark`.  It may run on a copy that is ahead of the server, as long as status and reason agree. */
    method MarkVM(vm: VirtualMachine, status: Value, why: Why, env: Env) returns (outcome: Outcome)
      requires AgreeAt(vm.annotations, stored, AnnStatus) && AgreeAt(vm.annotations, stored, AnnReason)
      modifies this`stored, vm
      ensures Quiet(stored, outcome) == Mark(old(stored), status, why, env)
    {
      MarkByPatch(stored, vm.annotations, status, why, env);
      hide Apply, Diff, Mark, Get, AgreeAt;
      var quiet := if Settled(status) then Done else RequeueAfter(30);
      if Get(vm.annotations, AnnStatus) == status && Get(vm.annotations, AnnReason) == Because(why) {
        return quiet;
      }
      var base := vm.annotations;
      vm.annotations := vm.annotations[AnnStatus := status];
      vm.annotations := vm.annotations[AnnReason := Because(why)];
      var ok := Patch(vm, base, PatchMark, env);
      return if ok then quiet else Error;
    }

    /** `markRemediation`, and the requeue its callers choose. */
    method MarkRemediation(vm: VirtualMachine, completed: bool, env: Env) returns (outcome: Outcome)
      requires vm.annotations == stored
      modifies this`stored, this`recorded, vm
      ensures completed && OK(PatchRemediation, env) ==>
                outcome == RequeueAfter(5) && recorded
                && stored == old(stored)[AnnRemediationCompleted := True] - {AnnRemediationError, AnnRemediationRequired}
      ensures !completed && OK(PatchRemediation, env) ==>
                outcome == RequeueAfter(30) && recorded == old(recorded)
                && stored == old(stored)[AnnRemediationError := Text(env.message)]
      ensures !OK(PatchRemediation, env) ==> outcome == Error && stored == old(stored) && recorded == old(recorded)
    {
      var base := vm.annotations;
      if completed {
        vm.annotations := vm.annotations[AnnRemediationCompleted := True];
        vm.annotations := vm.annotations - {AnnRemediationError};
        vm.annotations := vm.annotations - {AnnRemediationRequired};
      } else {
        vm.annotations := vm.annotations[AnnRemediationError := Text(env.message)];
      }
      var ok := PatchInSync(vm, base, PatchRemediation, env);
      if !ok {
        return Error;
      }
      recorded := recorded || completed;
      return RequeueAfter(if completed then 5 else 30);
    }

    /** The remediation script over SSH, and the record of how it went. */
    method RunScript(vm: VirtualMachine, env: Env) returns (outcome: Outcome)
      requires vm.annotations == stored && !started && !recorded && alloy == Untouched
      modifies this, vm
      ensures SoFar(outcome) == old(RunRemediation(stored, env))
    {
      started := true;
      outcome := MarkRemediation(vm, env.scriptSucceeds, env);
    }

    method RemediateLinuxVM(vm: VirtualMachine, env: Env) returns (outcome: Outcome)
      requires vm.annotations == stored && !started && !recorded && alloy == Untouched
      modifies this, vm
      ensures SoFar(outcome) == old(RemediateLinux(stored, env))
    {
      hide RunRemediation, Mark;
      if !env.sshUp {
        outcome := MarkVM(vm, Pending, WaitingForSSHForLinuxRemediation, env);
        return;
      }
      if env.key.None? {
        outcome := MarkRemediation(vm, false, env);
        return;
      }
      if Get(vm.annotations, AnnLinuxSSHUser) == Text("") && env.key.value == "" {
        outcome := MarkVM(vm, Pending, LinuxSSHUserMissing, env);
        return;
      }
      outcome := RunScript(vm, env);
    }

    method RemediateWindowsVM(vm: VirtualMachine, env: Env) returns (outcome: Outcome)
      requires vm.annotations == stored && !started && !recorded && alloy == Untouched
      modifies this, vm
      ensures SoFar(outcome) == old(RemediateWindows(stored, env))
    {
      hide RunRemediation, Mark, TimedOut;
      if env.key.None? {
        outcome := MarkRemediation(vm, false, env);
        return;
      }
      if env.state.None? {
        outcome := MarkVM(vm, Pending, WaitingForBootstrapState, env);
        return;
      }
      match env.state.value {
        case Succeeded =>
          var base := vm.annotations;
          vm.annotations := vm.annotations[AnnRemediationRequired := False];
          vm.annotations := vm.annotations - {AnnAlloyError};
          var ok := PatchInSync(vm, base, PatchBootstrapDone, env);
          return if ok then RequeueAfter(5) else Error;
        case NotStarted =>
          var sshBootstrapComplete := Get(vm.annotations, AnnSSHBootstrapComplete) == True;
          if !sshBootstrapComplete && !TimedOut(vm.annotations, env.clock) {
            outcome := MarkVM(vm, Pending, BootstrapInProgress, env);
            return;
          }
        case _ =>
      }
      outcome := RunScript(vm, env);
    }

    method RemediateVM(family: Family, vm: VirtualMachine, env: Env) returns (outcome: Outcome)
      requires vm.annotations == stored && !started && !recorded && alloy == Untouched
      requires family != Unknown
      modifies this, vm
      ensures SoFar(outcome) == old(Remediate(family, stored, env))
    {
      hide RemediateLinux, RemediateWindows, Mark, FirstIP;
      if GetVMI in env.fails {
        return Error;
      }
      if env.vmi.None? {
        outcome := MarkVM(vm, Pending,
                          if family == Linux then WaitingForVMIForLinuxRemediation else WaitingForVMIForWindowsRemediation,
                          env);
        return;
      }
      var ip := FirstIP(env.vmi.value);
      if ip == "" {
        outcome := MarkVM(vm, Pending,
                          if family == Linux then WaitingForIPForLinuxRemediation else WaitingForIPForWindowsRemediation,
                          env);
        return;
      }
      if Get(vm.annotations, AnnBootstrapStartedAt) == Text("") {
        var base := vm.annotations;
        vm.annotations := vm.annotations[AnnBootstrapStartedAt := env.clock.stamp];
        var ok := PatchInSync(vm, base, PatchStartedAt, env);
        if !ok {
          return Error;
        }
      }
      if family == Linux {
        outcome := RemediateLinuxVM(vm, env);
      } else {
        outcome := RemediateWindowsVM(vm, env);
      }
    }

    /** The Sysprep source and `markSysprep`. */
    method MergeSysprepVM(vm: VirtualMachine, env: Env) returns (outcome: Outcome)
      requires vm.annotations == stored
      modifies this`stored, vm
      ensures Quiet(stored, outcome) == old(MergeSysprep(stored, env))
    {
      var base := vm.annotations;
      if env.sysprepMerges {
        vm.annotations := vm.annotations[AnnSysprepMerged := True];
        vm.annotations := vm.annotations - {AnnSysprepMergeError};
      } else {
        vm.annotations := vm.annotations[AnnSysprepMergeError := Text(env.message)];
      }
      var ok := PatchInSync(vm, base, PatchSysprep, env);
      return if !ok then Error else if env.sysprepMerges then RequeueAfter(5) else RequeueAfter(30);
    }

    /** The cloud-init Secret and `markCloudInitSecret`. */
    method MergeCloudInitVM(vm: VirtualMachine, env: Env) returns (outcome: Outcome)
      requires vm.annotations == stored
      modifies this`stored, vm
      ensures Quiet(stored, outcome) == old(MergeCloudInit(stored, env))
    {
      var base := vm.annotations;
      if env.cloudInitMerges {
        vm.annotations := vm.annotations[AnnCloudInitSecretMerged := True];
        vm.annotations := vm.annotations - {AnnCloudInitSecretMergeError};
      } else {
        vm.annotations := vm.annotations[AnnCloudInitSecretMergeError := Text(env.message)];
      }
      var ok := PatchInSync(vm, base, PatchCloudInit, env);
      return if !ok then Error else if env.cloudInitMerges then RequeueAfter(5) else RequeueAfter(30);
    }

    /** After a script has succeeded: note the hash.  If the patch fails, the copy stays ahead of
        the server. */
    method RecordAlloy(vm: VirtualMachine, pair: Desired, env: Env) returns (ok: bool)
      requires vm.annotations == stored
      modifies this`stored, this`alloy, vm
      ensures ok <==> OK(PatchAlloy, env)
      ensures alloy == Ran(pair)
      ensures var hashed := old(stored)[AnnAlloyInstalled := True][AnnAlloyConfigHash := HashOf(pair, env)] - {AnnAlloyError};
              && vm.annotations == hashed
              && stored == if ok then hashed else old(stored)
    {
      alloy := Ran(pair);
      var base := vm.annotations;
      vm.annotations := vm.annotations[AnnAlloyInstalled := True];
      vm.annotations := vm.annotations[AnnAlloyConfigHash := HashOf(pair, env)];
      vm.annotations := vm.annotations - {AnnAlloyError};
      ok := PatchInSync(vm, base, PatchAlloy, env);
    }

    method ReconcileLinuxAlloy(vm: VirtualMachine, env: Env) returns (ok: bool)
      requires vm.annotations == stored && alloy == Untouched
      requires Get(stored, AnnLoggingEnabled) == True && LinuxAccess(stored, env)
      modifies this`stored, this`alloy, vm
      ensures AlloyStep(stored, ok, alloy) == old(AlloyIfEnabled(Linux, stored, env))
      ensures Ahead(vm.annotations, stored) && (ok ==> vm.annotations == stored)
    {
      hide HashOf;
      if env.token.None? || env.config.None? {
        return false;
      }
      var pair := Desired(env.config.value, env.token.value);
      if Get(vm.annotations, AnnAlloyConfigHash) == HashOf(pair, env) && Get(vm.annotations, AnnAlloyInstalled) == True {
        alloy := Reused(pair);
        return true;
      }
      if !env.alloySshUp || !env.installSucceeds {
        return false;
      }
      ok := RecordAlloy(vm, pair, env);
    }

    method ReconcileWindowsAlloy(vm: VirtualMachine, env: Env) returns (ok: bool)
      requires vm.annotations == stored && alloy == Untouched
      requires Get(stored, AnnLoggingEnabled) == True
      modifies this`stored, this`alloy, vm
      ensures AlloyStep(stored, ok, alloy) == old(AlloyIfEnabled(Windows, stored, env))
      ensures Ahead(vm.annotations, stored) && (ok ==> vm.annotations == stored)
    {
      hide HashOf;
      if env.token.None? || env.config.None? {
        return false;
      }
      var pair := Desired(env.config.value, env.token.value);
      if Get(vm.annotations, AnnAlloyConfigHash) == HashOf(pair, env) && Get(vm.annotations, AnnAlloyInstalled) == True {
        alloy := Reused(pair);
        return true;
      }
      if env.alloyKey.None? || env.alloyState.None? {
        return false;
      }
      if env.alloyState.value != Succeeded && Get(vm.annotations, AnnRemediationCompleted) != True {
        return false;
      }
      if !env.installSucceeds {
        return false;
      }
      ok := RecordAlloy(vm, pair, env);
    }

    method ReconcileAlloyIfEnabled(family: Family, vm: VirtualMachine, env: Env) returns (ok: bool)
      requires vm.annotations == stored && alloy == Untouched && family != Unknown
      modifies this`stored, this`alloy, vm
      ensures AlloyStep(stored, ok, alloy) == old(AlloyIfEnabled(family, stored, env))
      ensures Ahead(vm.annotations, stored) && (ok ==> vm.annotations == stored)
    {
      hide InstallAlloy;
      if Get(vm.annotations, AnnLoggingEnabled) != True {
        return true;
      }
      if family == Linux {
        if !LinuxAccess(vm.annotations, env) {
          return false;
        }
        ok := ReconcileLinuxAlloy(vm, env);
      } else {
        ok := ReconcileWindowsAlloy(vm, env);
      }
    }

    /** From the Alloy step to the final mark. */
    method FinishSyncVM(family: Family, vm: VirtualMachine, env: Env) returns (outcome: Outcome)
      requires vm.annotations == stored && !started && !recorded && alloy == Untouched && family != Unknown
      modifies this, vm
      ensures SoFar(outcome) == old(FinishSync(family, stored, env))
    {
      hide AlloyIfEnabled, Mark, Apply, Diff;
      var installed := ReconcileAlloyIfEnabled(family, vm, env);
      if !installed {
        assert AgreeAt(vm.annotations, stored, AnnStatus) && AgreeAt(vm.annotations, stored, AnnReason);
        var base := vm.annotations;
        vm.annotations := vm.annotations[AnnAlloyError := Text(env.message)];
        UpdateReachesServer(stored, base, AnnAlloyError, Text(env.message));
        var noted := Patch(vm, base, PatchAlloyError, env);
        if !noted {
          return Error;
        }
        outcome := MarkVM(vm, Pending, AlloyInstallFailed, env);
        return;
      }
      var base := vm.annotations;
      vm.annotations := vm.annotations - {AnnAlloyError};
      vm.annotations := vm.annotations - {AnnReason};
      vm.annotations := vm.annotations[AnnRemediationRequired := False];
      assert vm.annotations == (stored - {AnnAlloyError, AnnReason})[AnnRemediationRequired := False];
      var cleared := PatchInSync(vm, base, PatchReady, env);
      if !cleared {
        return Error;
      }
      outcome := MarkVM(vm, Ready, Verified, env);
    }

    /** `syncMetricsScrapeResources`. */
    method SyncMetricsScrapeResources(family: Family, vm: VirtualMachine, addresses: seq<string>, env: Env)
      returns (outcome: Outcome)
      requires vm.annotations == stored && !started && !recorded && alloy == Untouched && family != Unknown
      modifies this, vm
      ensures SoFar(outcome) == old(Sync(family, stored, addresses, env))
    {
      hide FinishSync, Mark, TimedOut, FirstIP;
      var ip := FirstIP(addresses);
      if ip == "" {
        outcome := MarkVM(vm, Pending, WaitingForIP, env);
        return;
      }
      if EnsureServiceAndEndpoints in env.fails || EnsureServiceMonitor in env.fails {
        return Error;
      }
      var bootstrapState := NotStarted;
      if family == Windows && env.key.Some? && env.state.Some? {
        bootstrapState := env.state.value;
      }
      if !env.exporterUp {
        match bootstrapState {
          case Succeeded =>
          case Failed =>
          case NotStarted =>
            if !TimedOut(vm.annotations, env.clock) {
              outcome := MarkVM(vm, Pending, BootstrapInProgress, env);
              return;
            }
          case Odd(_) =>
            outcome := MarkVM(vm, Pending, ExporterNotReady, env);
            return;
        }
      }
      if family == Windows && bootstrapState == Succeeded {
        var base := vm.annotations;
        vm.annotations := vm.annotations - {AnnAlloyError};
        vm.annotations := vm.annotations - {AnnReason};
        vm.annotations := vm.annotations[AnnRemediationRequired := False];
        vm.annotations := vm.annotations[AnnBootstrapReady := True];
        assert vm.annotations == Cleaned(stored);
        var ok := PatchInSync(vm, base, PatchBootstrapReady, env);
        if !ok {
          return Error;
        }
      }
      outcome := FinishSyncVM(family, vm, env);
    }

    /** The namespace-wide preparations; true when the step goes on. */
    method PrepareNamespace(family: Family, vm: VirtualMachine, env: Env) returns (ready: bool, outcome: Outcome)
      requires vm.annotations == stored
      modifies this`stored, vm
      ensures ready <==> old(Prepare(family, stored, env)).None?
      ensures ready ==> stored == old(stored) && vm.annotations == stored
      ensures !ready ==> Quiet(stored, outcome) == old(Prepare(family, stored, env)).value
    {
      hide Mark;
      if family == Windows && EnsureWindowsSecret in env.fails {
        return false, Error;
      }
      if LabelNamespace in env.fails || ReconcileAlerting in env.fails {
        return false, Error;
      }
      if EnsureMonitoringSecret in env.fails {
        outcome := MarkVM(vm, Pending, MonitoringSecretError, env);
        return false, outcome;
      }
      if EnsureLokiRBAC in env.fails {
        return false, Error;
      }
      return true, Done;
    }

    /** `Reconcile`: one call against the API server's current object. */
    method ReconcileVM(env: Env) returns (outcome: Outcome)
      modifies this
      ensures SoFar(outcome) == ReconcileStep.Reconcile(VM(labels, old(stored)), env)
    {
      hide Monitor, Mark, Prepare, Detect;
      started, recorded, alloy := false, false, Untouched;
      if env.lookup == NotFound {
        return Done;
      }
      if env.lookup == Unreadable {
        return Error;
      }
      var vm := new VirtualMachine(stored);
      if Get(vm.annotations, AnnBootstrapManaged) != True {
        return Done;
      }
      var family := Detect(labels);
      if family != Unknown && (Get(vm.annotations, AnnBootstrapOS) == UnknownOS || Get(vm.annotations, AnnExporter) == UnknownOS) {
        var base := vm.annotations;
        vm.annotations := vm.annotations - {AnnBootstrapOS};
        vm.annotations := vm.annotations - {AnnExporter};
        vm.annotations := vm.annotations - {AnnReason};
        vm.annotations := vm.annotations - {AnnStatus};
        assert vm.annotations == stored - {AnnBootstrapOS, AnnExporter, AnnReason, AnnStatus};
        var ok := PatchInSync(vm, base, PatchCleared, env);
        return if ok then RequeueAfter(1) else Error;
      }
      if family == Unknown {
        outcome := MarkVM(vm, Skipped, MissingOSLabel, env);
        return;
      }
      var ready, early := PrepareNamespace(family, vm, env);
      if !ready {
        return early;
      }
      outcome := MonitorVM(family, vm, env);
    }

    /** The part of `Reconcile` that looks at the VM's obligations in order. */
    method MonitorVM(family: Family, vm: VirtualMachine, env: Env) returns (outcome: Outcome)
      requires vm.annotations == stored && !started && !recorded && alloy == Untouched && family != Unknown
      modifies this, vm
      ensures SoFar(outcome) == old(Monitor(family, stored, env))
    {
      hide Remediate, MergeSysprep, MergeCloudInit, Sync, Mark;
      if Get(vm.annotations, AnnRemediationRequired) == True {
        outcome := RemediateVM(family, vm, env);
        return;
      }
      if Get(vm.annotations, AnnSysprepMergeRequired) == True && Get(vm.annotations, AnnSysprepMerged) != True {
        outcome := MergeSysprepVM(vm, env);
        return;
      }
      if Get(vm.annotations, AnnCloudInitSecretMergeRequired) == True && Get(vm.annotations, AnnCloudInitSecretMerged) != True {
        outcome := MergeCloudInitVM(vm, env);
        return;
      }
      if GetVMI in env.fails {
        return Error;
      }
      if env.vmi.None? {
        outcome := MarkVM(vm, Pending, WaitingForVMI, env);
        return;
      }
      outcome := SyncMetricsScrapeResources(family, vm, env.vmi.value, env);
    }
  }

  /** A copy that may be ahead of the server, but only in what a failed Alloy patch would have
      changed. */
  ghost predicate Ahead(copy: Annotations, server: Annotations) {
    && (forall k :: k !in {AnnAlloyInstalled, AnnAlloyConfigHash, AnnAlloyError} ==> AgreeAt(copy, server, k))
    && (AnnAlloyError in copy ==> AgreeAt(copy, server, AnnAlloyError))
  }
}
