/** Every way a step on a known VM can come back, told from the annotations it found and from what it
    met: when it waits and for what, when it has made progress, and what it leaves behind. */
module StepOutcomes {
  import opened Wrappers
  import opened Api
  import opened OsDetect
  import opened ReconcileStep
  import opened StepFacts
  import opened ReadyGate
  import opened RemediationGate

  // ---------------------------------------------------------------- conditions

  /** The step gets past the marks of an unknown OS and the preparation of the namespace. */
  predicate Proceeds(vm: VM, env: Env) {
    && Get(vm.ann, AnnBootstrapOS) != UnknownOS && Get(vm.ann, AnnExporter) != UnknownOS
    && PreparationSucceeds(Detect(vm.labels), env)
  }

  predicate Due(ann: Annotations) {
    Get(ann, AnnRemediationRequired) == True
  }

  predicate SysprepWaits(ann: Annotations) {
    !Due(ann) && Get(ann, AnnSysprepMergeRequired) == True && Get(ann, AnnSysprepMerged) != True
  }

  predicate CloudInitWaits(ann: Annotations) {
    && !Due(ann) && !(Get(ann, AnnSysprepMergeRequired) == True && Get(ann, AnnSysprepMerged) != True)
    && Get(ann, AnnCloudInitSecretMergeRequired) == True && Get(ann, AnnCloudInitSecretMerged) != True
  }

  predicate Looks(vm: VM, env: Env) {
    Proceeds(vm, env) && NothingDue(vm.ann) && GetVMI !in env.fails
  }

  /** The step reaches the probe of the exporter. */
  predicate Probes(vm: VM, env: Env) {
    && Looks(vm, env) && env.vmi.Some? && HasAddress(env.vmi.value)
    && EnsureServiceAndEndpoints !in env.fails && EnsureServiceMonitor !in env.fails
  }

  predicate SSHUserKnown(ann: Annotations, env: Env) {
    Get(ann, AnnLinuxSSHUser) != Text("") || (env.key.Some? && env.key.value != "")
  }

  /** What is missing, for each reason a step can give for waiting. */
  predicate Waits(why: Why, vm: VM, env: Env) {
    var family := Detect(vm.labels);
    match why
    case MonitoringSecretError =>
      && Get(vm.ann, AnnBootstrapOS) != UnknownOS && Get(vm.ann, AnnExporter) != UnknownOS
      && (family == Windows ==> EnsureWindowsSecret !in env.fails)
      && LabelNamespace !in env.fails && ReconcileAlerting !in env.fails && EnsureMonitoringSecret in env.fails
    case WaitingForVMIForLinuxRemediation =>
      Proceeds(vm, env) && Due(vm.ann) && family == Linux && GetVMI !in env.fails && env.vmi.None?
    case WaitingForVMIForWindowsRemediation =>
      Proceeds(vm, env) && Due(vm.ann) && family == Windows && GetVMI !in env.fails && env.vmi.None?
    case WaitingForIPForLinuxRemediation =>
      Proceeds(vm, env) && Due(vm.ann) && family == Linux && GetVMI !in env.fails && env.vmi.Some? && !HasAddress(env.vmi.value)
    case WaitingForIPForWindowsRemediation =>
      Proceeds(vm, env) && Due(vm.ann) && family == Windows && GetVMI !in env.fails && env.vmi.Some? && !HasAddress(env.vmi.value)
    case WaitingForSSHForLinuxRemediation => MayRemediate(vm, env) && family == Linux && !env.sshUp
    case LinuxSSHUserMissing =>
      MayRemediate(vm, env) && family == Linux && env.sshUp && env.key.Some? && !SSHUserKnown(vm.ann, env)
    case WaitingForBootstrapState => MayRemediate(vm, env) && family == Windows && env.key.Some? && env.state.None?
    case BootstrapInProgress =>
      || (&& MayRemediate(vm, env) && family == Windows && env.key.Some? && env.state == Some(NotStarted)
          && Get(vm.ann, AnnSSHBootstrapComplete) != True && !LongAgo(StartOf(vm.ann, env), env.clock))
      || (&& Probes(vm, env) && !env.exporterUp && GuestReport(family, env) in {None, Some(NotStarted)}
          && !LongAgo(Get(vm.ann, AnnBootstrapStartedAt), env.clock))
    case WaitingForVMI => Looks(vm, env) && env.vmi.None?
    case WaitingForIP => Looks(vm, env) && env.vmi.Some? && !HasAddress(env.vmi.value)
    case ExporterNotReady =>
      Probes(vm, env) && !env.exporterUp && GuestReport(family, env).Some? && GuestReport(family, env).value.Odd?
    case AlloyInstallFailed =>
      && Probes(vm, env) && ProbeSettled(family, vm.ann, env)
      && (GuestReport(family, env) == Some(Succeeded) ==> PatchBootstrapReady !in env.fails)
      && !LoggingSettled(family, vm.ann, env) && PatchAlloyError !in env.fails
    case _ => false
  }

  // ---------------------------------------------------------------- waiting

  predicate Has(ann: Annotations, why: Why) {
    Get(ann, AnnStatus) == Pending && Get(ann, AnnReason) == Because(why)
  }

  /** The VM is pending for this reason afterwards and comes back in half a minute, if the patch goes
      through or is not needed. */
  predicate PendingFor(step: Step, why: Why, settled: bool) {
    if settled then step.outcome == RequeueAfter(30) && Has(step.ann, why) else step.outcome == Error
  }

  /** The reason is not newly given. */
  predicate GivesNot(ann: Annotations, step: Step, why: Why) {
    Has(step.ann, why) ==> Has(ann, why)
  }

  predicate Judged(ann: Annotations, step: Step, why: Why, waits: bool, env: Env) {
    if waits then PendingFor(step, why, PatchMark !in env.fails || Has(ann, why)) else GivesNot(ann, step, why)
  }

  predicate SameMark(a: Annotations, b: Annotations) {
    Get(a, AnnStatus) == Get(b, AnnStatus) && Get(a, AnnReason) == Get(b, AnnReason)
  }

  lemma MarkJudged(ann: Annotations, copy: Annotations, given: Why, why: Why, env: Env)
    requires SameMark(ann, copy)
    ensures Judged(ann, Mark(copy, Pending, given, env), why, given == why, env)
  {
    var marked := copy[AnnStatus := Pending][AnnReason := Because(given)];
    assert Get(marked, AnnStatus) == Pending && Get(marked, AnnReason) == Because(given);
    hide Get;
  }

  lemma SettledJudged(ann: Annotations, status: Value, given: Why, why: Why, env: Env)
    requires Settled(status)
    ensures GivesNot(ann, Mark(ann, status, given, env), why)
  {
  }

  lemma QuietJudged(ann: Annotations, after: Annotations, outcome: Outcome, why: Why)
    requires SameMark(ann, after)
    ensures GivesNot(ann, Quiet(after, outcome), why)
  {
  }

  lemma StampKeepsMark(ann: Annotations, env: Env)
    ensures SameMark(ann, Stamped(ann, env))
  {
  }

  /** Recording a remediation leaves status and reason alone, whatever start time it stands on. */
  lemma RecordJudged(ann: Annotations, copy: Annotations, env: Env, started: bool, why: Why)
    requires SameMark(ann, copy)
    ensures GivesNot(ann, RunRemediation(copy, env), why) && GivesNot(ann, RecordFailure(copy, env, started), why)
  {
  }

  lemma LinuxJudged(ann: Annotations, copy: Annotations, env: Env, why: Why)
    requires SameMark(ann, copy)
    ensures Judged(ann, RemediateLinux(copy, env), why,
                   || (why == WaitingForSSHForLinuxRemediation && !env.sshUp)
                   || (why == LinuxSSHUserMissing && env.sshUp && env.key.Some? && !SSHUserKnown(copy, env)), env)
  {
    hide Mark, RunRemediation, RecordFailure, Judged, GivesNot, SameMark;
    MarkJudged(ann, copy, WaitingForSSHForLinuxRemediation, why, env);
    MarkJudged(ann, copy, LinuxSSHUserMissing, why, env);
    RecordJudged(ann, copy, env, false, why);
    NotJudged(ann, RunRemediation(copy, env), why, env);
    NotJudged(ann, RecordFailure(copy, env, false), why, env);
  }

  lemma NotJudged(ann: Annotations, step: Step, why: Why, env: Env)
    ensures Judged(ann, step, why, false, env) <==> GivesNot(ann, step, why)
  {
  }

  lemma WindowsJudged(ann: Annotations, copy: Annotations, env: Env, why: Why)
    requires SameMark(ann, copy)
    ensures Judged(ann, RemediateWindows(copy, env), why,
                   && env.key.Some?
                   && ((why == WaitingForBootstrapState && env.state.None?)
                       || (&& why == BootstrapInProgress && env.state == Some(NotStarted)
                           && Get(copy, AnnSSHBootstrapComplete) != True && !LongAgo(Get(copy, AnnBootstrapStartedAt), env.clock))),
                   env)
  {
    var lifted := copy[AnnRemediationRequired := False] - {AnnAlloyError};
    assert SameMark(ann, lifted);
    TimedOutIffLongAgo(copy, env.clock);
    QuietJudged(ann, lifted, RequeueAfter(5), why);
    QuietJudged(ann, copy, Error, why);
    hide Mark, RunRemediation, RecordFailure, Judged, GivesNot, SameMark, TimedOut, LongAgo, Get;
    MarkJudged(ann, copy, WaitingForBootstrapState, why, env);
    MarkJudged(ann, copy, BootstrapInProgress, why, env);
    RecordJudged(ann, copy, env, false, why);
    NotJudged(ann, RunRemediation(copy, env), why, env);
    NotJudged(ann, RecordFailure(copy, env, false), why, env);
    NotJudged(ann, Quiet(lifted, RequeueAfter(5)), why, env);
    NotJudged(ann, Quiet(copy, Error), why, env);
  }

  /** What is missing for a remediation, once the step gets to it. */
  predicate RemediationWaits(why: Why, family: Family, ann: Annotations, env: Env) {
    var reached := env.vmi.Some? && HasAddress(env.vmi.value) && (Get(ann, AnnBootstrapStartedAt) == Text("") ==> PatchStartedAt !in env.fails);
    && GetVMI !in env.fails
    && match why
       case WaitingForVMIForLinuxRemediation => family == Linux && env.vmi.None?
       case WaitingForVMIForWindowsRemediation => family == Windows && env.vmi.None?
       case WaitingForIPForLinuxRemediation => family == Linux && env.vmi.Some? && !HasAddress(env.vmi.value)
       case WaitingForIPForWindowsRemediation => family == Windows && env.vmi.Some? && !HasAddress(env.vmi.value)
       case WaitingForSSHForLinuxRemediation => family == Linux && reached && !env.sshUp
       case LinuxSSHUserMissing => family == Linux && reached && env.sshUp && env.key.Some? && !SSHUserKnown(ann, env)
       case WaitingForBootstrapState => family == Windows && reached && env.key.Some? && env.state.None?
       case BootstrapInProgress =>
         && family == Windows && reached && env.key.Some? && env.state == Some(NotStarted)
         && Get(ann, AnnSSHBootstrapComplete) != True && !LongAgo(StartOf(ann, env), env.clock)
       case _ => false
  }

  predicate ReachesGuest(ann: Annotations, env: Env) {
    && GetVMI !in env.fails && env.vmi.Some? && HasAddress(env.vmi.value)
    && (Get(ann, AnnBootstrapStartedAt) == Text("") ==> PatchStartedAt !in env.fails)
  }

  lemma RemediateShape(family: Family, ann: Annotations, env: Env)
    requires family != Unknown
    ensures var step, start := Remediate(family, ann, env), Stamped(ann, env);
            if ReachesGuest(ann, env) then step == if family == Linux then RemediateLinux(start, env) else RemediateWindows(start, env)
            else if GetVMI in env.fails then step == Quiet(ann, Error)
            else if env.vmi.None? then
              step == Mark(ann, Pending, if family == Linux then WaitingForVMIForLinuxRemediation else WaitingForVMIForWindowsRemediation, env)
            else if !HasAddress(env.vmi.value) then
              step == Mark(ann, Pending, if family == Linux then WaitingForIPForLinuxRemediation else WaitingForIPForWindowsRemediation, env)
            else step == Quiet(ann, Error)
  {
    if env.vmi.Some? { FirstIPIsFirst(env.vmi.value); }
    hide Mark, FirstIP, HasAddress, RemediateLinux, RemediateWindows, Get;
  }

  lemma RemediateEarlyJudged(family: Family, ann: Annotations, env: Env, why: Why)
    requires family != Unknown && !ReachesGuest(ann, env)
    ensures Judged(ann, Remediate(family, ann, env), why, RemediationWaits(why, family, ann, env), env)
  {
    RemediateShape(family, ann, env);
    SameMarkItself(ann);
    QuietJudged(ann, ann, Error, why);
    NotJudged(ann, Quiet(ann, Error), why, env);
    hide Mark, Remediate, HasAddress, Judged, GivesNot, SameMark, LongAgo, SSHUserKnown, Get;
    if GetVMI !in env.fails && (env.vmi.None? || !HasAddress(env.vmi.value)) {
      var given := if env.vmi.None?
                   then (if family == Linux then WaitingForVMIForLinuxRemediation else WaitingForVMIForWindowsRemediation)
                   else (if family == Linux then WaitingForIPForLinuxRemediation else WaitingForIPForWindowsRemediation);
      MarkJudged(ann, ann, given, why, env);
    }
  }

  lemma RemediateJudged(family: Family, ann: Annotations, env: Env, why: Why)
    requires family != Unknown
    ensures Judged(ann, Remediate(family, ann, env), why, RemediationWaits(why, family, ann, env), env)
  {
    hide Remediate, HasAddress, RemediateLinux, RemediateWindows, Judged, SameMark, LongAgo, Stamped, Get;
    if ReachesGuest(ann, env) {
      RemediateShape(family, ann, env);
      StampKeeps(ann, env);
      StampKeepsMark(ann, env);
      LinuxJudged(ann, Stamped(ann, env), env, why);
      WindowsJudged(ann, Stamped(ann, env), env, why);
    } else {
      RemediateEarlyJudged(family, ann, env, why);
    }
  }

  lemma MergesJudged(ann: Annotations, env: Env, why: Why)
    ensures GivesNot(ann, MergeSysprep(ann, env), why) && GivesNot(ann, MergeCloudInit(ann, env), why)
  {
    MergeKeepsMark(ann, env, AnnSysprepMerged, AnnSysprepMergeError);
    MergeKeepsMark(ann, env, AnnCloudInitSecretMerged, AnnCloudInitSecretMergeError);
    hide Get;
  }

  lemma MergeKeepsMark(ann: Annotations, env: Env, merged: Key, error: Key)
    requires merged != AnnStatus && merged != AnnReason && error != AnnStatus && error != AnnReason
    ensures SameMark(ann, ann[merged := True] - {error}) && SameMark(ann, ann[error := Text(env.message)])
  {
  }

  predicate SyncWaits(why: Why, family: Family, ann: Annotations, addresses: seq<string>, env: Env) {
    var probes := HasAddress(addresses) && EnsureServiceAndEndpoints !in env.fails && EnsureServiceMonitor !in env.fails;
    match why
    case WaitingForIP => !HasAddress(addresses)
    case BootstrapInProgress =>
      && probes && !env.exporterUp && GuestReport(family, env) in {None, Some(NotStarted)}
      && !LongAgo(Get(ann, AnnBootstrapStartedAt), env.clock)
    case ExporterNotReady => probes && !env.exporterUp && GuestReport(family, env).Some? && GuestReport(family, env).value.Odd?
    case AlloyInstallFailed =>
      && probes && ProbeSettled(family, ann, env)
      && (GuestReport(family, env) == Some(Succeeded) ==> PatchBootstrapReady !in env.fails)
      && !LoggingSettled(family, ann, env) && PatchAlloyError !in env.fails
    case _ => false
  }

  lemma FinishJudged(family: Family, ann: Annotations, env: Env, why: Why)
    requires family != Unknown
    ensures Judged(ann, FinishSync(family, ann, env), why,
                   why == AlloyInstallFailed && !LoggingSettled(family, ann, env) && PatchAlloyError !in env.fails, env)
  {
    var a := AlloyIfEnabled(family, ann, env);
    var noted := a.ann[AnnAlloyError := Text(env.message)];
    var final := (a.ann - {AnnAlloyError, AnnReason})[AnnRemediationRequired := False];
    AlloyGate(family, ann, env);
    AlloyKeepsMark(family, ann, env);
    assert SameMark(ann, noted);
    MarkJudged(ann, noted, AlloyInstallFailed, why, env);
    SettledJudged(final, Ready, Verified, why, env);
    NoReasonNoWait(final, why);
    hide AlloyIfEnabled, Mark, LoggingSettled, SameMark, Get;
  }

  lemma AlloyKeepsMark(family: Family, ann: Annotations, env: Env)
    ensures SameMark(ann, AlloyIfEnabled(family, ann, env).ann)
  {
    hide HashOf, CanInstall, LinuxAccess, AlloyCurrent;
  }

  lemma NoReasonNoWait(ann: Annotations, why: Why)
    requires AnnReason !in ann
    ensures !Has(ann, why)
  {
  }

  /** Whether a reason the VM came with is still there when the step judges it. */
  predicate Kept(why: Why, family: Family, env: Env) {
    !(why == AlloyInstallFailed && GuestReport(family, env) == Some(Succeeded))
  }

  predicate SyncJudged(ann: Annotations, step: Step, why: Why, waits: bool, family: Family, env: Env) {
    if waits then PendingFor(step, why, PatchMark !in env.fails || (Has(ann, why) && Kept(why, family, env)))
    else GivesNot(ann, step, why)
  }

  lemma AfterCleaning(ann: Annotations, step: Step, why: Why, waits: bool, family: Family, env: Env)
    requires Judged(Cleaned(ann), step, why, waits, env)
    requires waits ==> why == AlloyInstallFailed && GuestReport(family, env) == Some(Succeeded)
    ensures SyncJudged(ann, step, why, waits, family, env)
  {
    NoReasonNoWait(Cleaned(ann), why);
  }

  lemma JudgedIsSyncJudged(ann: Annotations, step: Step, why: Why, waits: bool, family: Family, env: Env)
    requires Judged(ann, step, why, waits, env) && (waits ==> Kept(why, family, env))
    ensures SyncJudged(ann, step, why, waits, family, env)
  {
  }

  predicate ReachesFinish(family: Family, ann: Annotations, addresses: seq<string>, env: Env) {
    && HasAddress(addresses) && EnsureServiceAndEndpoints !in env.fails && EnsureServiceMonitor !in env.fails
    && ProbeSettled(family, ann, env) && (GuestReport(family, env) == Some(Succeeded) ==> PatchBootstrapReady !in env.fails)
  }

  lemma SyncShape(family: Family, ann: Annotations, addresses: seq<string>, env: Env)
    requires family != Unknown
    ensures var step := Sync(family, ann, addresses, env);
            if !HasAddress(addresses) then step == Mark(ann, Pending, WaitingForIP, env)
            else if EnsureServiceAndEndpoints in env.fails || EnsureServiceMonitor in env.fails then step == Quiet(ann, Error)
            else if !ProbeSettled(family, ann, env) then
              step == Mark(ann, Pending,
                           if GuestReport(family, env).Some? && GuestReport(family, env).value.Odd? then ExporterNotReady
                           else BootstrapInProgress, env)
            else if GuestReport(family, env) == Some(Succeeded) then
              step == if PatchBootstrapReady in env.fails then Quiet(ann, Error) else FinishSync(family, Cleaned(ann), env)
            else step == FinishSync(family, ann, env)
  {
    FirstIPIsFirst(addresses);
    TimedOutIffLongAgo(ann, env.clock);
    hide FinishSync, Mark, FirstIP, HasAddress, TimedOut, LongAgo;
  }

  lemma SyncEarlyJudged(family: Family, ann: Annotations, addresses: seq<string>, env: Env, why: Why)
    requires family != Unknown && !ReachesFinish(family, ann, addresses, env)
    ensures Judged(ann, Sync(family, ann, addresses, env), why, SyncWaits(why, family, ann, addresses, env), env)
    ensures SyncWaits(why, family, ann, addresses, env) ==> why != AlloyInstallFailed
  {
    SyncShape(family, ann, addresses, env);
    SameMarkItself(ann);
    QuietJudged(ann, ann, Error, why);
    NotJudged(ann, Quiet(ann, Error), why, env);
    MarkJudged(ann, ann, WaitingForIP, why, env);
    MarkJudged(ann, ann, BootstrapInProgress, why, env);
    MarkJudged(ann, ann, ExporterNotReady, why, env);
    hide Sync, Mark, HasAddress, LongAgo, Judged, GivesNot, LoggingSettled, SameMark, Get;
  }

  lemma SyncIsJudged(family: Family, ann: Annotations, addresses: seq<string>, env: Env, why: Why)
    requires family != Unknown
    ensures SyncJudged(ann, Sync(family, ann, addresses, env), why, SyncWaits(why, family, ann, addresses, env), family, env)
  {
    var step := Sync(family, ann, addresses, env);
    var waits := SyncWaits(why, family, ann, addresses, env);
    hide Sync, FinishSync, HasAddress, LongAgo, Judged, SyncJudged, GivesNot, LoggingSettled, SameMark, Get;
    if !ReachesFinish(family, ann, addresses, env) {
      SyncEarlyJudged(family, ann, addresses, env, why);
      JudgedIsSyncJudged(ann, step, why, waits, family, env);
    } else {
      SyncShape(family, ann, addresses, env);
      FinishJudged(family, Cleaned(ann), env, why);
      FinishJudged(family, ann, env, why);
      CleanedKeepsGate(family, ann, env);
      FinishWaits(family, ann, addresses, env, why);
      if GuestReport(family, env) == Some(Succeeded) {
        AfterCleaning(ann, step, why, waits, family, env);
      } else {
        JudgedIsSyncJudged(ann, step, why, waits, family, env);
      }
    }
  }

  lemma FinishWaits(family: Family, ann: Annotations, addresses: seq<string>, env: Env, why: Why)
    requires ReachesFinish(family, ann, addresses, env)
    ensures SyncWaits(why, family, ann, addresses, env)
            <==> why == AlloyInstallFailed && !LoggingSettled(family, ann, env) && PatchAlloyError !in env.fails
  {
    hide HasAddress, LoggingSettled, LongAgo, Get;
  }

  lemma SameMarkItself(ann: Annotations)
    ensures SameMark(ann, ann)
  {
  }

  lemma PrepareJudged(family: Family, ann: Annotations, env: Env, why: Why)
    requires Prepare(family, ann, env).Some?
    ensures Judged(ann, Prepare(family, ann, env).value, why,
                   && why == MonitoringSecretError && (family == Windows ==> EnsureWindowsSecret !in env.fails)
                   && LabelNamespace !in env.fails && ReconcileAlerting !in env.fails && EnsureMonitoringSecret in env.fails, env)
  {
    SameMarkItself(ann);
    QuietJudged(ann, ann, Error, why);
    NotJudged(ann, Quiet(ann, Error), why, env);
    MarkJudged(ann, ann, MonitoringSecretError, why, env);
    hide Mark, Judged, GivesNot, SameMark;
  }

  predicate MonitorWaits(why: Why, family: Family, ann: Annotations, env: Env) {
    if Due(ann) then RemediationWaits(why, family, ann, env)
    else if SysprepWaits(ann) || CloudInitWaits(ann) || GetVMI in env.fails then false
    else if env.vmi.None? then why == WaitingForVMI
    else SyncWaits(why, family, ann, env.vmi.value, env)
  }

  lemma MonitorJudged(family: Family, ann: Annotations, env: Env, why: Why)
    requires family != Unknown
    ensures SyncJudged(ann, Monitor(family, ann, env), why, MonitorWaits(why, family, ann, env), family, env)
  {
    var step, waits := Monitor(family, ann, env), MonitorWaits(why, family, ann, env);
    SameMarkItself(ann);
    RemediateJudged(family, ann, env, why);
    MergesJudged(ann, env, why);
    NotJudged(ann, MergeSysprep(ann, env), why, env);
    NotJudged(ann, MergeCloudInit(ann, env), why, env);
    QuietJudged(ann, ann, Error, why);
    NotJudged(ann, Quiet(ann, Error), why, env);
    MarkJudged(ann, ann, WaitingForVMI, why, env);
    if env.vmi.Some? { SyncIsJudged(family, ann, env.vmi.value, env, why); }
    hide Remediate, MergeSysprep, MergeCloudInit, Mark, Sync, Judged, SyncJudged, GivesNot, SyncWaits, RemediationWaits, SameMark, Get;
    if Due(ann) || SysprepWaits(ann) || CloudInitWaits(ann) || GetVMI in env.fails || env.vmi.None? {
      assert waits ==> why != AlloyInstallFailed by { RemediationGivesNoAlloy(why, family, ann, env); }
      JudgedIsSyncJudged(ann, step, why, waits, family, env);
    }
  }

  lemma RemediationGivesNoAlloy(why: Why, family: Family, ann: Annotations, env: Env)
    ensures RemediationWaits(why, family, ann, env) ==> why != AlloyInstallFailed
  {
  }

  /** A step on a known VM marks it pending for a reason exactly when that is what is missing; if so it
      comes back in half a minute, unless the mark has to be patched and cannot be. */
  lemma WaitsIff(vm: VM, env: Env, why: Why)
    requires Known(vm, env) && why != Verified && why != MissingOSLabel
    ensures var step := Reconcile(vm, env);
            if Waits(why, vm, env)
            then PendingFor(step, why, PatchMark !in env.fails || (Has(vm.ann, why) && Kept(why, Detect(vm.labels), env)))
            else GivesNot(vm.ann, step, why)
  {
    var family, ann, step := Detect(vm.labels), vm.ann, Reconcile(vm, env);
    PrepareGate(family, ann, env);
    var cleared := ann - {AnnBootstrapOS, AnnExporter, AnnReason, AnnStatus};
    NoReasonNoWait(cleared, why);
    if Prepare(family, ann, env).Some? { PrepareJudged(family, ann, env, why); }
    MonitorJudged(family, ann, env, why);
    WaitsMeans(vm, env, why);
    hide Prepare, Monitor, Mark, Detect, Waits, MonitorWaits, PreparationSucceeds, Has, Kept, NothingDue;
  }

  /** The condition, phase by phase. */
  lemma WaitsMeans(vm: VM, env: Env, why: Why)
    ensures var family := Detect(vm.labels);
            Waits(why, vm, env) <==>
              && Get(vm.ann, AnnBootstrapOS) != UnknownOS && Get(vm.ann, AnnExporter) != UnknownOS
              && if !PreparationSucceeds(family, env) then
                   && why == MonitoringSecretError && (family == Windows ==> EnsureWindowsSecret !in env.fails)
                   && LabelNamespace !in env.fails && ReconcileAlerting !in env.fails && EnsureMonitoringSecret in env.fails
                 else MonitorWaits(why, family, vm.ann, env)
  {
    hide Detect, HasAddress, LoggingSettled, LongAgo, Get;
  }
}
