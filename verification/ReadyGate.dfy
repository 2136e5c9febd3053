/** What a step that ends well has established, and that no step ends quietly otherwise. */
module ReadyGate {
  import opened Wrappers
  import opened Api
  import opened OsDetect
  import opened ReconcileStep
  import opened StepFacts

  /** What a Windows guest says of its bootstrap, if it is asked and answers. */
  function GuestReport(family: Family, env: Env): Option<GuestState> {
    if family == Windows && env.key.Some? then env.state else None
  }

  /** The recorded start is more than ten minutes back. */
  predicate LongAgo(start: Value, clock: Clock) {
    start != Text("") && clock.parse(start).Some? && clock.now > clock.parse(start).value + 600
  }

  predicate HasAddress(addresses: seq<string>) {
    exists i :: 0 <= i < |addresses| && addresses[i] != ""
  }

  /** The address the steps use is the first one that is not empty. */
  lemma {:induction false} FirstIPIsFirst(addresses: seq<string>)
    ensures FirstIP(addresses) != "" <==> HasAddress(addresses)
    ensures FirstIP(addresses) != "" ==>
              exists i :: 0 <= i < |addresses| && addresses[i] == FirstIP(addresses) && forall j :: 0 <= j < i ==> addresses[j] == ""
  {
    if addresses != [] {
      if addresses[0] == "" {
        FirstIPIsFirst(addresses[1..]);
        if FirstIP(addresses[1..]) != "" {
          var i :| 0 <= i < |addresses[1..]| && addresses[1..][i] == FirstIP(addresses[1..])
                   && forall j :: 0 <= j < i ==> addresses[1..][j] == "";
          assert addresses[i + 1] == FirstIP(addresses) && forall j :: 0 <= j < i + 1 ==> addresses[j] == "" by {
            forall j | 0 <= j < i + 1 ensures addresses[j] == "" { if j > 0 { assert addresses[1..][j - 1] == ""; } }
          }
        } else {
          forall i | 0 <= i < |addresses| ensures addresses[i] == "" { if i > 0 { assert addresses[1..][i - 1] == ""; } }
        }
      }
    }
  }

  /** Logging is off, or the SSH access a Linux guest needs is there, and the configuration and token of
      this moment are installed or can be installed and noted. */
  predicate LoggingSettled(family: Family, ann: Annotations, env: Env) {
    Get(ann, AnnLoggingEnabled) == True ==>
      && (family == Linux ==>
            env.alloyKey.Some? && (Get(ann, AnnLinuxSSHUser) != Text("") || env.alloyKey.value != ""))
      && env.token.Some? && env.config.Some?
      && (LoggingCurrent(ann, env)
          || (&& (if family == Linux then env.alloySshUp
                  else && env.alloyKey.Some? && env.alloyState.Some?
                       && (env.alloyState.value == Succeeded || Get(ann, AnnRemediationCompleted) == True))
              && env.installSucceeds && PatchAlloy !in env.fails))
  }

  /** The exporter answers, or the guest says how its bootstrap ended, or has said nothing for ten minutes. */
  predicate ProbeSettled(family: Family, ann: Annotations, env: Env) {
    || env.exporterUp
    || GuestReport(family, env) in {Some(Succeeded), Some(Failed)}
    || (GuestReport(family, env) in {None, Some(NotStarted)} && LongAgo(Get(ann, AnnBootstrapStartedAt), env.clock))
  }

  predicate PreparationSucceeds(family: Family, env: Env) {
    && env.fails !! {LabelNamespace, ReconcileAlerting, EnsureMonitoringSecret, EnsureLokiRBAC}
    && (family == Windows ==> EnsureWindowsSecret !in env.fails)
  }

  predicate CallsSucceed(family: Family, env: Env) {
    && PreparationSucceeds(family, env)
    && env.fails !! {GetVMI, EnsureServiceAndEndpoints, EnsureServiceMonitor, PatchReady, PatchMark}
    && (GuestReport(family, env) == Some(Succeeded) ==> PatchBootstrapReady !in env.fails)
  }

  /** No mark asks for something else first. */
  predicate NothingDue(ann: Annotations) {
    && Get(ann, AnnBootstrapOS) != UnknownOS && Get(ann, AnnExporter) != UnknownOS
    && Get(ann, AnnRemediationRequired) != True
    && (Get(ann, AnnSysprepMergeRequired) == True ==> Get(ann, AnnSysprepMerged) == True)
    && (Get(ann, AnnCloudInitSecretMergeRequired) == True ==> Get(ann, AnnCloudInitSecretMerged) == True)
  }

  /** Everything that has to hold for a known VM to be declared ready in one step. */
  predicate Gate(vm: VM, env: Env) {
    var family := Detect(vm.labels);
    && NothingDue(vm.ann)
    && env.vmi.Some? && HasAddress(env.vmi.value)
    && CallsSucceed(family, env)
    && ProbeSettled(family, vm.ann, env)
    && LoggingSettled(family, vm.ann, env)
  }

  /** The annotations a ready VM carries. */
  predicate ReadyState(ann: Annotations) {
    && Get(ann, AnnStatus) == Ready && Get(ann, AnnReason) == Because(Verified)
    && Get(ann, AnnRemediationRequired) == False && AnnAlloyError !in ann
  }

  predicate Known(vm: VM, env: Env) {
    env.lookup == Found && Get(vm.ann, AnnBootstrapManaged) == True && Detect(vm.labels) != Unknown
  }

  lemma AlloyGate(family: Family, ann: Annotations, env: Env)
    requires family != Unknown
    ensures var a := AlloyIfEnabled(family, ann, env);
            && (a.ok <==> LoggingSettled(family, ann, env))
            && (a.ok ==> LoggingCurrent(a.ann, env))
  {
    hide Frame;
  }

  /** What a successful Alloy step writes: unless logging is off or the pair is installed already, the hash
      and the mark, and no error is left; nothing otherwise. */
  lemma AlloyWrites(family: Family, ann: Annotations, env: Env)
    requires LoggingSettled(family, ann, env) && family != Unknown
    ensures var after := AlloyIfEnabled(family, ann, env).ann;
            if Get(ann, AnnLoggingEnabled) != True then after == ann
            else
              var hash := HashOf(Desired(env.config.value, env.token.value), env);
              if Get(ann, AnnAlloyInstalled) == True && Get(ann, AnnAlloyConfigHash) == hash then after == ann
              else after == ann[AnnAlloyInstalled := True][AnnAlloyConfigHash := hash] - {AnnAlloyError}
  {
    AlloyGate(family, ann, env);
    hide Frame, HashOf, Get, LoggingSettled;
  }

  /** With logging on, the hash of the configuration and token of this moment is recorded next to
      alloy-installed. */
  predicate LoggingCurrent(ann: Annotations, env: Env) {
    Get(ann, AnnLoggingEnabled) == True ==>
      env.token.Some? && env.config.Some?
      && Get(ann, AnnAlloyInstalled) == True
      && Get(ann, AnnAlloyConfigHash) == HashOf(Desired(env.config.value, env.token.value), env)
  }

  lemma MarkDone(ann: Annotations, status: Value, why: Why, env: Env)
    ensures var step := Mark(ann, status, why, env);
            && (step.outcome == Done <==>
                  Settled(status) && (OK(PatchMark, env)
                                      || (Get(ann, AnnStatus) == status && Get(ann, AnnReason) == Because(why))))
            && (step.outcome == Done ==> Get(step.ann, AnnStatus) == status && Get(step.ann, AnnReason) == Because(why))
  {
  }

  lemma FinishSyncGate(family: Family, ann: Annotations, env: Env)
    requires family != Unknown
    ensures var step := FinishSync(family, ann, env);
            && (step.outcome == Done <==>
                  LoggingSettled(family, ann, env) && OK(PatchReady, env) && OK(PatchMark, env))
            && (step.outcome == Done ==> ReadyState(step.ann) && LoggingCurrent(step.ann, env))
  {
    hide AlloyIfEnabled, LoggingSettled, HashOf, Mark;
    var a := AlloyIfEnabled(family, ann, env);
    AlloyGate(family, ann, env);
    MarkDone(a.ann[AnnAlloyError := Text(env.message)], Pending, AlloyInstallFailed, env);
    var final := (a.ann - {AnnAlloyError, AnnReason})[AnnRemediationRequired := False];
    MarkDone(final, Ready, Verified, env);
    MarkShape(final, Ready, Verified, env);
  }

  lemma MarkShape(ann: Annotations, status: Value, why: Why, env: Env)
    ensures var after := Mark(ann, status, why, env).ann;
            after == ann || after == ann[AnnStatus := status][AnnReason := Because(why)]
  {
  }

  lemma CleanedKeepsGate(family: Family, ann: Annotations, env: Env)
    ensures LoggingSettled(family, Cleaned(ann), env) <==> LoggingSettled(family, ann, env)
  {
  }

  lemma TimedOutIffLongAgo(ann: Annotations, clock: Clock)
    ensures TimedOut(ann, clock) <==> LongAgo(Get(ann, AnnBootstrapStartedAt), clock)
  {
  }

  lemma SyncGate(family: Family, ann: Annotations, addresses: seq<string>, env: Env)
    requires family != Unknown
    ensures var step := Sync(family, ann, addresses, env);
            && (step.outcome == Done <==>
                  && HasAddress(addresses) && OK(EnsureServiceAndEndpoints, env) && OK(EnsureServiceMonitor, env)
                  && ProbeSettled(family, ann, env)
                  && (GuestReport(family, env) == Some(Succeeded) ==> OK(PatchBootstrapReady, env))
                  && LoggingSettled(family, ann, env) && OK(PatchReady, env) && OK(PatchMark, env))
            && (step.outcome == Done ==> ReadyState(step.ann) && LoggingCurrent(step.ann, env))
  {
    hide FinishSync, LoggingSettled, LoggingCurrent, ReadyState, Mark, TimedOut, FirstIP, HasAddress, LongAgo;
    FirstIPIsFirst(addresses);
    TimedOutIffLongAgo(ann, env.clock);
    MarkDone(ann, Pending, WaitingForIP, env);
    MarkDone(ann, Pending, BootstrapInProgress, env);
    MarkDone(ann, Pending, ExporterNotReady, env);
    FinishSyncGate(family, ann, env);
    FinishSyncGate(family, Cleaned(ann), env);
    CleanedKeepsGate(family, ann, env);
  }

  lemma RemediateNeverDone(family: Family, ann: Annotations, env: Env)
    ensures Remediate(family, ann, env).outcome != Done
  {
    hide Get, FirstIP, TimedOut;
  }

  lemma PrepareGate(family: Family, ann: Annotations, env: Env)
    ensures Prepare(family, ann, env).None? <==> PreparationSucceeds(family, env)
    ensures Prepare(family, ann, env).Some? ==> Prepare(family, ann, env).value.outcome != Done
  {
    hide Get;
  }

  lemma MonitorGate(family: Family, ann: Annotations, env: Env)
    requires family != Unknown
    ensures var step := Monitor(family, ann, env);
            && (step.outcome == Done <==>
                  && !RemediationDue(ann) && !SysprepDue(ann) && !CloudInitDue(ann) && OK(GetVMI, env)
                  && env.vmi.Some? && Sync(family, ann, env.vmi.value, env).outcome == Done)
            && (step.outcome == Done ==> step == Sync(family, ann, env.vmi.value, env))
  {
    hide Remediate, Sync, Mark, RemediationDue, SysprepDue, CloudInitDue;
    RemediateNeverDone(family, ann, env);
    MarkDone(ann, Pending, WaitingForVMI, env);
  }

  /** Exactly when a step on a known VM ends without error and without a requeue, and what it
      leaves behind. */
  lemma ReadyIff(vm: VM, env: Env)
    requires Known(vm, env)
    ensures var step := Reconcile(vm, env);
            && (step.outcome == Done <==> Gate(vm, env))
            && (step.outcome == Done ==> ReadyState(step.ann) && LoggingCurrent(step.ann, env))
  {
    hide Prepare, Monitor, Sync, Detect, LoggingSettled, LoggingCurrent, ProbeSettled, ReadyState, HasAddress,
         PreparationSucceeds;
    var family := Detect(vm.labels);
    PrepareGate(family, vm.ann, env);
    MonitorGate(family, vm.ann, env);
    if env.vmi.Some? { SyncGate(family, vm.ann, env.vmi.value, env); }
  }

  /** Ready does not mean that the exporter answered: whenever the guest reports the end of its
      bootstrap, the probe makes no difference. */
  lemma ReadyWithoutExporter(vm: VM, env: Env)
    requires Known(vm, env) && GuestReport(Detect(vm.labels), env) in {Some(Succeeded), Some(Failed)}
    ensures Reconcile(vm, env).outcome == Done <==> Reconcile(vm, env.(exporterUp := false)).outcome == Done
  {
    ReadyIff(vm, env);
    ReadyIff(vm, env.(exporterUp := false));
    LoggingIgnoresProbe(Detect(vm.labels), vm.ann, env, false);
    hide Reconcile, Detect, LongAgo, LoggingSettled, HasAddress, NothingDue, CallsSucceed;
  }

  /** Exactly when a step that would declare the VM ready with the exporter answering does so without
      it: the guest reports how its bootstrap ended, or has reported nothing for ten minutes. */
  lemma ReadyWithoutExporterIff(vm: VM, env: Env)
    requires Known(vm, env) && Gate(vm, env.(exporterUp := true))
    ensures var asked := Detect(vm.labels) == Windows && env.key.Some?;
            var silent := !asked || env.state.None? || env.state.value == NotStarted;
            Reconcile(vm, env.(exporterUp := false)).outcome == Done
            <==> (!silent && (env.state.value == Succeeded || env.state.value == Failed))
                 || (silent && LongAgo(Get(vm.ann, AnnBootstrapStartedAt), env.clock))
  {
    ReadyIff(vm, env.(exporterUp := false));
    LoggingIgnoresProbe(Detect(vm.labels), vm.ann, env, true);
    LoggingIgnoresProbe(Detect(vm.labels), vm.ann, env, false);
    hide Reconcile, Detect, LongAgo, LoggingSettled, HasAddress, NothingDue, CallsSucceed;
  }

  lemma LoggingIgnoresProbe(family: Family, ann: Annotations, env: Env, up: bool)
    ensures LoggingSettled(family, ann, env.(exporterUp := up)) == LoggingSettled(family, ann, env)
    ensures CallsSucceed(family, env.(exporterUp := up)) == CallsSucceed(family, env)
    ensures GuestReport(family, env.(exporterUp := up)) == GuestReport(family, env)
  {
    hide Frame;
  }

  /** For Linux, which reports nothing, that is a matter of time alone. */
  lemma LinuxReadyWithoutExporterIff(vm: VM, env: Env)
    requires Known(vm, env) && Gate(vm, env.(exporterUp := true)) && Detect(vm.labels) == Linux
    ensures Reconcile(vm, env.(exporterUp := false)).outcome == Done
            <==> LongAgo(Get(vm.ann, AnnBootstrapStartedAt), env.clock)
  {
    ReadyWithoutExporterIff(vm, env);
    hide Reconcile, Detect, LongAgo, Gate;
  }

  /** No VM is stranded: a step that asks for no further step and reports no error means that the
      VM is gone, is not managed, or has been given its final status, which is ready if its OS is
      known and skipped for its label if not.  Every other step reports an error or asks to be
      repeated after a positive time. */
  lemma NotStranded(vm: VM, env: Env)
    ensures var step := Reconcile(vm, env);
            match step.outcome
            case Error => true
            case RequeueAfter(seconds) => seconds > 0
            case Done =>
              || env.lookup == NotFound
              || Get(vm.ann, AnnBootstrapManaged) != True
              || (if Detect(vm.labels) == Unknown
                  then Get(step.ann, AnnStatus) == Skipped && Get(step.ann, AnnReason) == Because(MissingOSLabel)
                  else ReadyState(step.ann))
  {
    ReconcileFacts(vm, env);
    MarkDone(vm.ann, Skipped, MissingOSLabel, env);
    if Known(vm, env) {
      ReadyIff(vm, env);
      hide Reconcile, Gate, Detect;
    } else {
      hide Detect, Prepare, Monitor, ClearUnknown, Mark, SameForeign, RecordFacts, AlloyFacts;
    }
  }
}
