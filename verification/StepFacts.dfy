/** What every `Reconcile` step keeps, proved function by function. */
module StepFacts {
  import opened Wrappers
  import opened Api
  import opened OsDetect
  import opened ReconcileStep

  /** The names the controller reads but never writes keep their values. */
  predicate SameForeign(a: Annotations, b: Annotations) {
    && Get(a, AnnBootstrapManaged) == Get(b, AnnBootstrapManaged)
    && Get(a, AnnLoggingEnabled) == Get(b, AnnLoggingEnabled)
    && Get(a, AnnLinuxSSHUser) == Get(b, AnnLinuxSSHUser)
    && Get(a, AnnSSHBootstrapComplete) == Get(b, AnnSSHBootstrapComplete)
    && Get(a, AnnDisableMonitoring) == Get(b, AnnDisableMonitoring)
    && Get(a, AnnSysprepMergeRequired) == Get(b, AnnSysprepMergeRequired)
    && Get(a, AnnCloudInitSecretMergeRequired) == Get(b, AnnCloudInitSecretMergeRequired)
  }

  /** A recorded remediation is not pending and has no error. */
  predicate RecordKept(ann: Annotations) {
    Completed(ann) ==> Managed(ann) && !RemediationDue(ann) && AnnRemediationError !in ann
  }

  predicate RecordFacts(ann: Annotations, step: Step) {
    && (Managed(ann) && RecordKept(ann) ==> RecordKept(step.ann))
    && (Completed(ann) ==> Completed(step.ann))
    && (step.started ==> RemediationDue(ann))
    && (step.recorded ==> step.started && Completed(step.ann))
    && (!Completed(ann) && Completed(step.ann) ==> step.recorded)
  }

  /** The hash annotation changes only to that of a pair whose script has just succeeded, and an
      install is skipped only on a matching hash. */
  predicate AlloyFacts(ann: Annotations, env: Env, after: Annotations, alloy: Alloy) {
    && (alloy.Reused? ==> Get(ann, AnnAlloyConfigHash) == HashOf(alloy.pair, env))
    && (alloy != Untouched ==>
          env.config == Some(alloy.pair.config) && env.token == Some(alloy.pair.token))
    && (AnnAlloyConfigHash in after ==>
          || (AnnAlloyConfigHash in ann && after[AnnAlloyConfigHash] == ann[AnnAlloyConfigHash])
          || (alloy.Ran? && after[AnnAlloyConfigHash] == HashOf(alloy.pair, env)))
  }

  predicate Facts(ann: Annotations, env: Env, step: Step) {
    && SameForeign(ann, step.ann)
    && RecordFacts(ann, step)
    && AlloyFacts(ann, env, step.ann, step.alloy)
    && (step.outcome == Done ==> Settled(Get(step.ann, AnnStatus)))
    && (step.outcome.RequeueAfter? ==> step.outcome.seconds > 0)
  }

  /** The names the facts are about. */
  predicate Watched(key: Key) {
    key in {AnnBootstrapManaged, AnnLoggingEnabled, AnnLinuxSSHUser, AnnSSHBootstrapComplete, AnnDisableMonitoring,
            AnnSysprepMergeRequired, AnnCloudInitSecretMergeRequired, AnnAlloyConfigHash,
            AnnRemediationCompleted, AnnRemediationRequired, AnnRemediationError}
  }

  predicate SameAt(a: Annotations, b: Annotations, key: Key) {
    (key in a <==> key in b) && Get(a, key) == Get(b, key)
  }

  /** A change that touches none of the watched names, except perhaps to lift the remediation. */
  ghost predicate Benign(a: Annotations, b: Annotations) {
    && (forall key :: Watched(key) && key != AnnRemediationRequired ==> SameAt(a, b, key))
    && (RemediationDue(b) ==> RemediationDue(a))
  }

  lemma SetIsBenign(ann: Annotations, key: Key, value: Value)
    requires !Watched(key)
    ensures Benign(ann, ann[key := value])
  {
  }

  lemma LiftIsBenign(ann: Annotations)
    ensures Benign(ann, ann[AnnRemediationRequired := False])
  {
  }

  lemma DropIsBenign(ann: Annotations, keys: set<Key>)
    requires forall key :: key in keys ==> !Watched(key)
    ensures Benign(ann, ann - keys)
  {
  }

  lemma BenignThenBenign(a: Annotations, b: Annotations, c: Annotations)
    requires Benign(a, b) && Benign(b, c)
    ensures Benign(a, c)
  {
    hide Watched, Get;
    forall key | Watched(key) && key != AnnRemediationRequired ensures SameAt(a, c, key) {
      assert SameAt(a, b, key) && SameAt(b, c, key);
    }
  }

  lemma BenignKeepsForeign(a: Annotations, b: Annotations)
    requires Benign(a, b)
    ensures SameForeign(a, b)
    ensures SameAt(a, b, AnnAlloyConfigHash) && SameAt(a, b, AnnRemediationError)
    ensures Completed(a) <==> Completed(b)
  {
    hide Get;
    assert SameAt(a, b, AnnBootstrapManaged) && SameAt(a, b, AnnLoggingEnabled) && SameAt(a, b, AnnLinuxSSHUser);
    assert SameAt(a, b, AnnSSHBootstrapComplete) && SameAt(a, b, AnnDisableMonitoring);
    assert SameAt(a, b, AnnSysprepMergeRequired) && SameAt(a, b, AnnCloudInitSecretMergeRequired);
    assert SameAt(a, b, AnnAlloyConfigHash) && SameAt(a, b, AnnRemediationCompleted) && SameAt(a, b, AnnRemediationError);
  }

  /** A step that makes a benign change and runs nothing. */
  lemma BenignFacts(ann: Annotations, env: Env, after: Annotations, outcome: Outcome)
    requires Benign(ann, after)
    requires outcome == Done ==> Settled(Get(after, AnnStatus))
    requires outcome.RequeueAfter? ==> outcome.seconds > 0
    ensures Facts(ann, env, Quiet(after, outcome))
  {
    BenignKeepsForeign(ann, after);
    hide Benign, HashOf, SameForeign, Settled;
  }

  lemma MarkIsBenign(ann: Annotations, status: Value, why: Why, env: Env)
    ensures var step := Mark(ann, status, why, env);
            && step == Quiet(step.ann, step.outcome) && Benign(ann, step.ann)
            && (step.outcome == Done ==> Settled(Get(step.ann, AnnStatus)))
            && (step.outcome.RequeueAfter? ==> step.outcome.seconds > 0)
  {
    SetIsBenign(ann, AnnStatus, status);
    SetIsBenign(ann[AnnStatus := status], AnnReason, Because(why));
    BenignThenBenign(ann, ann[AnnStatus := status], ann[AnnStatus := status][AnnReason := Because(why)]);
    DropIsBenign(ann, {});
    assert ann - {} == ann;
    hide Benign;
  }

  lemma MarkFacts(ann: Annotations, status: Value, why: Why, env: Env)
    ensures Facts(ann, env, Mark(ann, status, why, env))
  {
    hide Mark, Benign, Facts, Get;
    var step := Mark(ann, status, why, env);
    MarkIsBenign(ann, status, why, env);
    BenignFacts(ann, env, step.ann, step.outcome);
  }

  lemma QuietErrorFacts(ann: Annotations, env: Env)
    ensures Facts(ann, env, Quiet(ann, Error))
  {
    hide Benign, Facts, Get;
    DropIsBenign(ann, {});
    assert ann - {} == ann;
    BenignFacts(ann, env, ann, Error);
  }

  lemma PrepareFacts(family: Family, ann: Annotations, env: Env)
    ensures Prepare(family, ann, env).Some? ==> Facts(ann, env, Prepare(family, ann, env).value)
  {
    hide Mark, Facts;
    MarkFacts(ann, Pending, MonitoringSecretError, env);
    QuietErrorFacts(ann, env);
  }

  lemma RunRemediationFacts(ann: Annotations, env: Env)
    requires RemediationDue(ann)
    ensures Facts(ann, env, RunRemediation(ann, env))
  {
    RecordFailureFacts(ann, env, true);
    hide RecordFailure;
  }

  lemma RecordFailureFacts(ann: Annotations, env: Env, started: bool)
    requires RemediationDue(ann)
    ensures Facts(ann, env, RecordFailure(ann, env, started))
  {
  }

  /** Facts about a step from a copy with a benign change carry over. */
  lemma FactsAfterBenign(ann: Annotations, copy: Annotations, env: Env, step: Step)
    requires Benign(ann, copy) && Facts(copy, env, step)
    ensures Facts(ann, env, step)
  {
    BenignKeepsForeign(ann, copy);
    hide Benign, HashOf, Settled, Get;
  }

  lemma RemediateLinuxFacts(ann: Annotations, env: Env)
    requires RemediationDue(ann)
    ensures Facts(ann, env, RemediateLinux(ann, env))
  {
    hide Mark, RunRemediation, RecordFailure, Facts;
    MarkFacts(ann, Pending, WaitingForSSHForLinuxRemediation, env);
    MarkFacts(ann, Pending, LinuxSSHUserMissing, env);
    RunRemediationFacts(ann, env);
    RecordFailureFacts(ann, env, false);
  }

  lemma BootstrapDoneFacts(ann: Annotations, env: Env)
    ensures Facts(ann, env, Quiet(ann[AnnRemediationRequired := False] - {AnnAlloyError}, RequeueAfter(5)))
  {
    hide Benign, Facts, Get;
    var lifted := ann[AnnRemediationRequired := False];
    LiftIsBenign(ann);
    DropIsBenign(lifted, {AnnAlloyError});
    BenignThenBenign(ann, lifted, lifted - {AnnAlloyError});
    BenignFacts(ann, env, lifted - {AnnAlloyError}, RequeueAfter(5));
  }

  lemma RemediateWindowsFacts(ann: Annotations, env: Env)
    requires RemediationDue(ann)
    ensures Facts(ann, env, RemediateWindows(ann, env))
  {
    hide Mark, RunRemediation, RecordFailure, TimedOut, Facts;
    BootstrapDoneFacts(ann, env);
    QuietErrorFacts(ann, env);
    MarkFacts(ann, Pending, WaitingForBootstrapState, env);
    MarkFacts(ann, Pending, BootstrapInProgress, env);
    RunRemediationFacts(ann, env);
    RecordFailureFacts(ann, env, false);
  }

  lemma RemediateFacts(family: Family, ann: Annotations, env: Env)
    requires RemediationDue(ann)
    ensures Facts(ann, env, Remediate(family, ann, env))
  {
    hide Mark, RemediateLinux, RemediateWindows, Facts, Benign;
    QuietErrorFacts(ann, env);
    var stamped := ann[AnnBootstrapStartedAt := env.clock.stamp];
    MarkFacts(ann, Pending, WaitingForVMIForLinuxRemediation, env);
    MarkFacts(ann, Pending, WaitingForVMIForWindowsRemediation, env);
    MarkFacts(ann, Pending, WaitingForIPForLinuxRemediation, env);
    MarkFacts(ann, Pending, WaitingForIPForWindowsRemediation, env);
    RemediateLinuxFacts(ann, env);
    RemediateWindowsFacts(ann, env);
    RemediateLinuxFacts(stamped, env);
    RemediateWindowsFacts(stamped, env);
    SetIsBenign(ann, AnnBootstrapStartedAt, env.clock.stamp);
    FactsAfterBenign(ann, stamped, env, RemediateLinux(stamped, env));
    FactsAfterBenign(ann, stamped, env, RemediateWindows(stamped, env));
  }

  lemma MergeSysprepFacts(ann: Annotations, env: Env)
    ensures Facts(ann, env, MergeSysprep(ann, env))
  {
    hide Facts;
    QuietErrorFacts(ann, env);
    BookkeepingFacts(ann, env, AnnSysprepMerged, AnnSysprepMergeError);
  }

  lemma MergeCloudInitFacts(ann: Annotations, env: Env)
    ensures Facts(ann, env, MergeCloudInit(ann, env))
  {
    hide Facts;
    QuietErrorFacts(ann, env);
    BookkeepingFacts(ann, env, AnnCloudInitSecretMerged, AnnCloudInitSecretMergeError);
  }

  /** Recording the outcome of a merge under two names of its own. */
  lemma BookkeepingFacts(ann: Annotations, env: Env, merged: Key, error: Key)
    requires !Watched(merged) && !Watched(error)
    ensures Facts(ann, env, Quiet(ann[merged := True] - {error}, RequeueAfter(5)))
    ensures Facts(ann, env, Quiet(ann[error := Text(env.message)], RequeueAfter(30)))
  {
    hide Benign, Facts, Get, Watched;
    var noted := ann[merged := True];
    SetIsBenign(ann, merged, True);
    DropIsBenign(noted, {error});
    BenignThenBenign(ann, noted, noted - {error});
    BenignFacts(ann, env, noted - {error}, RequeueAfter(5));
    SetIsBenign(ann, error, Text(env.message));
    BenignFacts(ann, env, ann[error := Text(env.message)], RequeueAfter(30));
  }

  /** The part of the facts that the Alloy step alone has to keep. */
  predicate AlloyStepFacts(ann: Annotations, env: Env, a: AlloyStep) {
    && SameForeign(ann, a.ann)
    && AlloyFacts(ann, env, a.ann, a.alloy)
    && (Completed(a.ann) <==> Completed(ann))
    && (RemediationDue(a.ann) <==> RemediationDue(ann))
    && (AnnRemediationError in a.ann <==> AnnRemediationError in ann)
  }

  lemma NoAlloyFacts(ann: Annotations, env: Env, ok: bool)
    ensures AlloyStepFacts(ann, env, AlloyStep(ann, ok, Untouched))
  {
  }

  lemma RanAlloyFacts(ann: Annotations, env: Env, pair: Desired, ok: bool)
    requires env.config == Some(pair.config) && env.token == Some(pair.token)
    ensures AlloyStepFacts(ann, env, AlloyStep(ann, ok, Ran(pair)))
    ensures AlloyStepFacts(ann, env,
              AlloyStep(ann[AnnAlloyInstalled := True][AnnAlloyConfigHash := HashOf(pair, env)] - {AnnAlloyError}, ok, Ran(pair)))
  {
    hide HashOf;
  }

  lemma AlloyIfEnabledFacts(family: Family, ann: Annotations, env: Env)
    ensures AlloyStepFacts(ann, env, AlloyIfEnabled(family, ann, env))
  {
    if env.token.Some? && env.config.Some? {
      var pair := Desired(env.config.value, env.token.value);
      RanAlloyFacts(ann, env, pair, true);
      RanAlloyFacts(ann, env, pair, false);
      if AlloyCurrent(ann, pair, env) { ReusedAlloyFacts(ann, env, pair); }
    }
    NoAlloyFacts(ann, env, true);
    NoAlloyFacts(ann, env, false);
    hide CanInstall, LinuxAccess, HashOf, AlloyStepFacts, AlloyCurrent, Get;
  }

  lemma ReusedAlloyFacts(ann: Annotations, env: Env, pair: Desired)
    requires env.config == Some(pair.config) && env.token == Some(pair.token) && AlloyCurrent(ann, pair, env)
    ensures AlloyStepFacts(ann, env, AlloyStep(ann, true, Reused(pair)))
  {
    hide HashOf;
  }

  lemma FinishSyncFacts(family: Family, ann: Annotations, env: Env)
    ensures Facts(ann, env, FinishSync(family, ann, env))
  {
    hide AlloyIfEnabled, Mark, HashOf, AlloyStepFacts, Facts;
    var a := AlloyIfEnabled(family, ann, env);
    AlloyIfEnabledFacts(family, ann, env);
    FailedAlloyFacts(ann, a, env);
    FinalMarkFacts(ann, a, env);
  }

  /** After the Alloy step only benign changes follow. */
  lemma AfterAlloyFacts(ann: Annotations, a: AlloyStep, env: Env, after: Annotations, outcome: Outcome)
    requires AlloyStepFacts(ann, env, a) && Benign(a.ann, after)
    requires outcome == Done ==> Settled(Get(after, AnnStatus))
    requires outcome.RequeueAfter? ==> outcome.seconds > 0
    ensures Facts(ann, env, Step(after, outcome, false, false, a.alloy))
  {
    BenignKeepsForeign(a.ann, after);
    hide HashOf, Benign, Settled;
  }

  lemma FailedAlloyFacts(ann: Annotations, a: AlloyStep, env: Env)
    requires AlloyStepFacts(ann, env, a)
    ensures Facts(ann, env, Step(a.ann, Error, false, false, a.alloy))
    ensures Facts(ann, env, Mark(a.ann[AnnAlloyError := Text(env.message)], Pending, AlloyInstallFailed, env).(alloy := a.alloy))
  {
    var failed := a.ann[AnnAlloyError := Text(env.message)];
    hide Mark, AlloyStepFacts, Facts, Benign, Get;
    SetIsBenign(a.ann, AnnAlloyError, Text(env.message));
    var marked := Mark(failed, Pending, AlloyInstallFailed, env);
    MarkIsBenign(failed, Pending, AlloyInstallFailed, env);
    BenignThenBenign(a.ann, failed, marked.ann);
    AfterAlloyFacts(ann, a, env, marked.ann, marked.outcome);
    DropIsBenign(a.ann, {});
    assert a.ann - {} == a.ann;
    AfterAlloyFacts(ann, a, env, a.ann, Error);
  }

  lemma FinalMarkFacts(ann: Annotations, a: AlloyStep, env: Env)
    requires AlloyStepFacts(ann, env, a)
    ensures Facts(ann, env,
              Mark((a.ann - {AnnAlloyError, AnnReason})[AnnRemediationRequired := False], Ready, Verified, env).(alloy := a.alloy))
  {
    hide Mark, AlloyStepFacts, Facts, Benign, Get;
    var dropped := a.ann - {AnnAlloyError, AnnReason};
    var final := dropped[AnnRemediationRequired := False];
    DropIsBenign(a.ann, {AnnAlloyError, AnnReason});
    LiftIsBenign(dropped);
    BenignThenBenign(a.ann, dropped, final);
    var marked := Mark(final, Ready, Verified, env);
    MarkIsBenign(final, Ready, Verified, env);
    BenignThenBenign(a.ann, final, marked.ann);
    AfterAlloyFacts(ann, a, env, marked.ann, marked.outcome);
  }

  /** The annotations once the start time is on them. */
  function Stamped(ann: Annotations, env: Env): Annotations {
    if Get(ann, AnnBootstrapStartedAt) == Text("") then ann[AnnBootstrapStartedAt := env.clock.stamp] else ann
  }

  /** What the Windows branch clears before Alloy is looked at. */
  function Cleaned(ann: Annotations): Annotations {
    (ann - {AnnAlloyError, AnnReason})[AnnRemediationRequired := False][AnnBootstrapReady := True]
  }

  lemma CleanedIsBenign(ann: Annotations)
    ensures Benign(ann, Cleaned(ann))
  {
    hide Benign, Get;
    var dropped := ann - {AnnAlloyError, AnnReason};
    var lifted := dropped[AnnRemediationRequired := False];
    DropIsBenign(ann, {AnnAlloyError, AnnReason});
    LiftIsBenign(dropped);
    BenignThenBenign(ann, dropped, lifted);
    SetIsBenign(lifted, AnnBootstrapReady, True);
    BenignThenBenign(ann, lifted, Cleaned(ann));
  }

  lemma SyncFacts(family: Family, ann: Annotations, addresses: seq<string>, env: Env)
    ensures Facts(ann, env, Sync(family, ann, addresses, env))
  {
    hide FinishSync, Mark, Facts, TimedOut, Benign, Get;
    MarkFacts(ann, Pending, WaitingForIP, env);
    MarkFacts(ann, Pending, BootstrapInProgress, env);
    MarkFacts(ann, Pending, ExporterNotReady, env);
    FinishSyncFacts(family, ann, env);
    FinishSyncFacts(family, Cleaned(ann), env);
    CleanedIsBenign(ann);
    FactsAfterBenign(ann, Cleaned(ann), env, FinishSync(family, Cleaned(ann), env));
    QuietErrorFacts(ann, env);
  }

  lemma MonitorFacts(family: Family, ann: Annotations, env: Env)
    ensures Facts(ann, env, Monitor(family, ann, env))
  {
    hide Remediate, MergeSysprep, MergeCloudInit, Mark, Sync, Facts;
    if RemediationDue(ann) { RemediateFacts(family, ann, env); }
    MergeSysprepFacts(ann, env);
    MergeCloudInitFacts(ann, env);
    MarkFacts(ann, Pending, WaitingForVMI, env);
    if env.vmi.Some? { SyncFacts(family, ann, env.vmi.value, env); }
    QuietErrorFacts(ann, env);
  }

  lemma ClearUnknownFacts(ann: Annotations, env: Env)
    ensures Facts(ann, env, ClearUnknown(ann, env))
  {
    hide Benign, Facts, Get;
    var stale := {AnnBootstrapOS, AnnExporter, AnnReason, AnnStatus};
    DropIsBenign(ann, stale);
    BenignFacts(ann, env, ann - stale, RequeueAfter(1));
    QuietErrorFacts(ann, env);
  }

  /** Every step on a managed VM that was found obeys the facts; any other step changes nothing. */
  lemma ReconcileFacts(vm: VM, env: Env)
    ensures if env.lookup == Found && Managed(vm.ann) then Facts(vm.ann, env, Reconcile(vm, env))
            else Reconcile(vm, env) == Quiet(vm.ann, if env.lookup == Unreadable then Error else Done)
  {
    hide Prepare, Monitor, Mark, Detect, ClearUnknown, Facts;
    ClearUnknownFacts(vm.ann, env);
    var family := Detect(vm.labels);
    PrepareFacts(family, vm.ann, env);
    MonitorFacts(family, vm.ann, env);
    MarkFacts(vm.ann, Skipped, MissingOSLabel, env);
  }
}
