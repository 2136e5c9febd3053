/** How the status of a VM comes to be: only by a mark that ends the step, and ready only through the
    ready gate, in every step and in every run. */
module StatusGate {
  import opened Wrappers
  import opened Api
  import opened OsDetect
  import opened ReconcileStep
  import opened Onboarding
  import opened Protocol
  import opened StepFacts
  import opened ReadyGate

  predicate SameStatus(a: Annotations, b: Annotations) {
    Get(a, AnnStatus) == Get(b, AnnStatus)
  }

  /** A step keeps the status, or ends for good with ready or skipped, or comes back in half a minute
      with pending, or has wiped the marks of an unknown OS. */
  predicate StatusFacts(ann: Annotations, step: Step) {
    || SameStatus(ann, step.ann)
    || (step.outcome == Done && Settled(Get(step.ann, AnnStatus)))
    || (step.outcome == RequeueAfter(30) && Get(step.ann, AnnStatus) == Pending)
    || (step.outcome == RequeueAfter(1) && AnnStatus !in step.ann && AnnReason !in step.ann)
  }

  lemma MarkStatus(ann: Annotations, status: Value, why: Why, env: Env)
    requires status == Pending || Settled(status)
    ensures StatusFacts(ann, Mark(ann, status, why, env))
  {
  }

  /** A step from a copy of the same status, whatever else is noted of the step. */
  lemma StatusFrom(ann: Annotations, copy: Annotations, step: Step, alloy: Alloy)
    requires SameStatus(ann, copy) && StatusFacts(copy, step)
    ensures StatusFacts(ann, step) && StatusFacts(ann, step.(alloy := alloy))
  {
    hide Get;
  }

  lemma SettingKeepsStatus(ann: Annotations, key: Key, value: Value)
    requires key != AnnStatus
    ensures SameStatus(ann, ann[key := value])
  {
  }

  lemma DroppingKeepsStatus(ann: Annotations, keys: set<Key>)
    requires AnnStatus !in keys
    ensures SameStatus(ann, ann - keys)
  {
  }

  lemma ScriptStatus(ann: Annotations, env: Env, started: bool)
    ensures StatusFacts(ann, RunRemediation(ann, env)) && StatusFacts(ann, RecordFailure(ann, env, started))
  {
    var done := ann[AnnRemediationCompleted := True];
    SettingKeepsStatus(ann, AnnRemediationCompleted, True);
    DroppingKeepsStatus(done, {AnnRemediationError, AnnRemediationRequired});
    SettingKeepsStatus(ann, AnnRemediationError, Text(env.message));
    hide Get;
  }

  lemma LinuxStatus(ann: Annotations, env: Env)
    ensures StatusFacts(ann, RemediateLinux(ann, env))
  {
    hide Mark, RunRemediation, RecordFailure, UserKnown, StatusFacts;
    MarkStatus(ann, Pending, WaitingForSSHForLinuxRemediation, env);
    MarkStatus(ann, Pending, LinuxSSHUserMissing, env);
    ScriptStatus(ann, env, false);
  }

  lemma WindowsStatus(ann: Annotations, env: Env)
    ensures StatusFacts(ann, RemediateWindows(ann, env))
  {
    hide Mark, RunRemediation, RecordFailure, TimedOut, Get;
    MarkStatus(ann, Pending, WaitingForBootstrapState, env);
    MarkStatus(ann, Pending, BootstrapInProgress, env);
    ScriptStatus(ann, env, false);
    SettingKeepsStatus(ann, AnnRemediationRequired, False);
    DroppingKeepsStatus(ann[AnnRemediationRequired := False], {AnnAlloyError});
  }

  lemma RemediateStatus(family: Family, ann: Annotations, env: Env)
    ensures StatusFacts(ann, Remediate(family, ann, env))
  {
    hide Mark, FirstIP, RemediateLinux, RemediateWindows, StatusFacts, Get;
    var stamped := ann[AnnBootstrapStartedAt := env.clock.stamp];
    SettingKeepsStatus(ann, AnnBootstrapStartedAt, env.clock.stamp);
    QuietStatus(ann, ann, Error);
    MarkStatus(ann, Pending, WaitingForVMIForLinuxRemediation, env);
    MarkStatus(ann, Pending, WaitingForVMIForWindowsRemediation, env);
    MarkStatus(ann, Pending, WaitingForIPForLinuxRemediation, env);
    MarkStatus(ann, Pending, WaitingForIPForWindowsRemediation, env);
    LinuxStatus(ann, env);
    WindowsStatus(ann, env);
    LinuxStatus(stamped, env);
    WindowsStatus(stamped, env);
    StatusFrom(ann, stamped, RemediateLinux(stamped, env), Untouched);
    StatusFrom(ann, stamped, RemediateWindows(stamped, env), Untouched);
  }

  lemma QuietStatus(ann: Annotations, after: Annotations, outcome: ReconcileStep.Outcome)
    requires SameStatus(ann, after)
    ensures StatusFacts(ann, Quiet(after, outcome))
  {
  }

  lemma MergeStatus(ann: Annotations, env: Env, merged: Key, error: Key)
    requires merged != AnnStatus && error != AnnStatus
    ensures SameStatus(ann, ann[merged := True] - {error}) && SameStatus(ann, ann[error := Text(env.message)])
  {
  }

  lemma MergesStatus(ann: Annotations, env: Env)
    ensures StatusFacts(ann, MergeSysprep(ann, env)) && StatusFacts(ann, MergeCloudInit(ann, env))
  {
    hide Get;
    MergeStatus(ann, env, AnnSysprepMerged, AnnSysprepMergeError);
    MergeStatus(ann, env, AnnCloudInitSecretMerged, AnnCloudInitSecretMergeError);
  }

  lemma AlloyStatus(family: Family, ann: Annotations, env: Env)
    ensures SameStatus(ann, AlloyIfEnabled(family, ann, env).ann)
  {
    hide HashOf, CanInstall, LinuxAccess, AlloyCurrent;
  }

  lemma FinishStatus(family: Family, ann: Annotations, env: Env)
    ensures StatusFacts(ann, FinishSync(family, ann, env))
  {
    var a := AlloyIfEnabled(family, ann, env);
    var noted := a.ann[AnnAlloyError := Text(env.message)];
    var final := (a.ann - {AnnAlloyError, AnnReason})[AnnRemediationRequired := False];
    AlloyStatus(family, ann, env);
    SettingKeepsStatus(a.ann, AnnAlloyError, Text(env.message));
    DroppingKeepsStatus(a.ann, {AnnAlloyError, AnnReason});
    SettingKeepsStatus(a.ann - {AnnAlloyError, AnnReason}, AnnRemediationRequired, False);
    hide AlloyIfEnabled, Mark, Get;
    MarkStatus(noted, Pending, AlloyInstallFailed, env);
    MarkStatus(final, Ready, Verified, env);
    StatusFrom(ann, noted, Mark(noted, Pending, AlloyInstallFailed, env), a.alloy);
    StatusFrom(ann, final, Mark(final, Ready, Verified, env), a.alloy);
  }

  lemma SyncStatus(family: Family, ann: Annotations, addresses: seq<string>, env: Env)
    ensures StatusFacts(ann, Sync(family, ann, addresses, env))
  {
    assert SameStatus(ann, Cleaned(ann));
    hide FinishSync, Mark, FirstIP, TimedOut, StatusFacts, Get;
    QuietStatus(ann, ann, Error);
    MarkStatus(ann, Pending, WaitingForIP, env);
    MarkStatus(ann, Pending, BootstrapInProgress, env);
    MarkStatus(ann, Pending, ExporterNotReady, env);
    FinishStatus(family, ann, env);
    FinishStatus(family, Cleaned(ann), env);
    StatusFrom(ann, Cleaned(ann), FinishSync(family, Cleaned(ann), env), FinishSync(family, Cleaned(ann), env).alloy);
  }

  lemma MonitorStatus(family: Family, ann: Annotations, env: Env)
    ensures StatusFacts(ann, Monitor(family, ann, env))
  {
    hide Remediate, MergeSysprep, MergeCloudInit, Mark, Sync, StatusFacts, Get;
    QuietStatus(ann, ann, Error);
    RemediateStatus(family, ann, env);
    MergesStatus(ann, env);
    MarkStatus(ann, Pending, WaitingForVMI, env);
    if env.vmi.Some? { SyncStatus(family, ann, env.vmi.value, env); }
  }

  lemma ClearStatus(ann: Annotations, env: Env)
    ensures StatusFacts(ann, ClearUnknown(ann, env))
  {
  }

  /** Every step writes the status as stated, in whatever environment. */
  lemma StepStatus(vm: VM, env: Env)
    ensures StatusFacts(vm.ann, Reconcile(vm, env))
  {
    hide Monitor, Mark, Detect, ClearUnknown, MarkedUnknown, StatusFacts, Get;
    ClearStatus(vm.ann, env);
    QuietStatus(vm.ann, vm.ann, Done);
    QuietStatus(vm.ann, vm.ann, Error);
    MonitorStatus(Detect(vm.labels), vm.ann, env);
    MarkStatus(vm.ann, Pending, MonitoringSecretError, env);
    MarkStatus(vm.ann, Skipped, MissingOSLabel, env);
  }

  /** A VM that is not ready becomes ready in a step exactly when the step goes through the gate. */
  lemma BecomesReadyIff(vm: VM, env: Env)
    requires Get(vm.ann, AnnStatus) != Ready
    ensures Get(Reconcile(vm, env).ann, AnnStatus) == Ready <==> Known(vm, env) && Gate(vm, env)
  {
    StepStatus(vm, env);
    hide Reconcile, Gate, Detect;
    if Known(vm, env) {
      ReadyIff(vm, env);
    } else {
      UnknownNeverReady(vm, env);
    }
  }

  lemma UnknownNeverReady(vm: VM, env: Env)
    requires !Known(vm, env) && Get(vm.ann, AnnStatus) != Ready
    ensures Get(Reconcile(vm, env).ann, AnnStatus) != Ready
  {
    hide Detect, Prepare, Monitor, ClearUnknown;
  }

  predicate PassesGate(vm: VM, event: Event) {
    event.Controller? && Known(vm, event.env) && Gate(vm, event.env)
  }

  lemma NextReadyIff(vm: VM, event: Event)
    requires Get(vm.ann, AnnStatus) != Ready
    ensures Get(Next(vm, event).ann, AnnStatus) == Ready <==> PassesGate(vm, event)
  {
    hide Reconcile, Onboard, Gate, Known;
    match event {
      case Controller(env) => BecomesReadyIff(vm, env);
      case Kvoctl(input) => OnboardKeepsStatus(vm, input);
    }
  }

  lemma OnboardKeepsStatus(vm: VM, i: Input)
    ensures SameStatus(vm.ann, Onboard(vm, i).ann)
  {
    hide ChooseOS, Succeeds;
  }

  /** A VM that was not ready and is ready at the end of a run, kvoctl's steps included, has gone through
      the gate in some step of that run. */
  lemma {:induction false} ReadyRunPassedGate(vm: VM, events: seq<Event>)
    requires Get(vm.ann, AnnStatus) != Ready && Get(Run(vm, events).ann, AnnStatus) == Ready
    ensures exists n :: 0 <= n < |events| && PassesGate(Run(vm, events[..n]), events[n])
    decreases |events|
  {
    hide Next, PassesGate, Get;
    var next := Next(vm, events[0]);
    NextReadyIff(vm, events[0]);
    if Get(next.ann, AnnStatus) == Ready {
      assert events[..0] == [];
      assert PassesGate(Run(vm, events[..0]), events[0]);
    } else {
      ReadyRunPassedGate(next, events[1..]);
      var m :| 0 <= m < |events[1..]| && PassesGate(Run(next, events[1..][..m]), events[1..][m]);
      assert events[..m + 1][0] == events[0] && events[..m + 1][1..] == events[1..][..m];
      assert PassesGate(Run(vm, events[..m + 1]), events[m + 1]);
    }
  }
}
