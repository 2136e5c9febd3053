/** When a remediation script is started, and how long a Windows guest is given before that. */
module RemediationGate {
  import opened Wrappers
  import opened Api
  import opened OsDetect
  import opened ReconcileStep
  import opened Onboarding
  import opened Protocol
  import opened StepFacts
  import opened ReadyGate

  /** The start time a step goes by: the recorded one, or its own where none is recorded. */
  function StartOf(ann: Annotations, env: Env): Value {
    if Get(ann, AnnBootstrapStartedAt) == Text("") then env.clock.stamp else Get(ann, AnnBootstrapStartedAt)
  }

  /** A Windows guest may be remediated unless it reports success, or has yet to report anything,
      was not prepared by kvoctl and still has time. */
  predicate GuestGivenUp(ann: Annotations, env: Env) {
    && env.state.Some? && env.state.value != Succeeded
    && (env.state.value == NotStarted ==>
          Get(ann, AnnSSHBootstrapComplete) == True || LongAgo(StartOf(ann, env), env.clock))
  }

  predicate Reachable(family: Family, ann: Annotations, env: Env) {
    && env.key.Some?
    && if family == Linux then env.sshUp && (Get(ann, AnnLinuxSSHUser) != Text("") || env.key.value != "")
       else GuestGivenUp(ann, env)
  }

  /** The step on a known VM gets as far as its remediation, and knows where the instance is. */
  predicate MayRemediate(vm: VM, env: Env) {
    && Get(vm.ann, AnnBootstrapOS) != UnknownOS && Get(vm.ann, AnnExporter) != UnknownOS
    && Get(vm.ann, AnnRemediationRequired) == True
    && PreparationSucceeds(Detect(vm.labels), env) && GetVMI !in env.fails
    && env.vmi.Some? && HasAddress(env.vmi.value)
    && (Get(vm.ann, AnnBootstrapStartedAt) == Text("") ==> PatchStartedAt !in env.fails)
  }

  predicate MayStart(vm: VM, env: Env) {
    MayRemediate(vm, env) && Reachable(Detect(vm.labels), vm.ann, env)
  }

  lemma MarkStartsNothing(ann: Annotations, status: Value, why: Why, env: Env)
    ensures !Mark(ann, status, why, env).started && !Mark(ann, status, why, env).recorded
  {
  }

  lemma RemediateStartsIff(family: Family, ann: Annotations, env: Env)
    requires family != Unknown
    ensures var step := Remediate(family, ann, env);
            && (step.started <==>
                  && OK(GetVMI, env) && env.vmi.Some? && HasAddress(env.vmi.value)
                  && (Get(ann, AnnBootstrapStartedAt) == Text("") ==> OK(PatchStartedAt, env))
                  && Reachable(family, ann, env))
            && (step.recorded <==> step.started && env.scriptSucceeds && OK(PatchRemediation, env))
  {
    hide Mark, FirstIP, TimedOut, Get, HasAddress, LongAgo;
    var stamped := Stamped(ann, env);
    StampKeeps(ann, env);
    TimedOutIffLongAgo(stamped, env.clock);
    if env.vmi.Some? { FirstIPIsFirst(env.vmi.value); }
    forall a: Annotations, why { MarkStartsNothing(a, Pending, why, env); }
  }

  lemma StampKeeps(ann: Annotations, env: Env)
    ensures Get(Stamped(ann, env), AnnSSHBootstrapComplete) == Get(ann, AnnSSHBootstrapComplete)
    ensures Get(Stamped(ann, env), AnnLinuxSSHUser) == Get(ann, AnnLinuxSSHUser)
    ensures Get(Stamped(ann, env), AnnBootstrapStartedAt) == StartOf(ann, env)
  {
  }

  /** Exactly when a step on a known VM starts a remediation script, and when it records a success. */
  lemma StartsIff(vm: VM, env: Env)
    requires Known(vm, env)
    ensures var step := Reconcile(vm, env);
            && (step.started <==> MayStart(vm, env))
            && (step.recorded <==> step.started && env.scriptSucceeds && OK(PatchRemediation, env))
  {
    RemediateStartsIff(Detect(vm.labels), vm.ann, env);
    ReconcileFacts(vm, env);
    PrepareGate(Detect(vm.labels), vm.ann, env);
    if Prepare(Detect(vm.labels), vm.ann, env).Some? { PrepareStartsNothing(Detect(vm.labels), vm.ann, env); }
    hide Prepare, Remediate, MergeSysprep, MergeCloudInit, Sync, Mark, Detect, Reachable, HasAddress, Get,
         PreparationSucceeds, SysprepDue, CloudInitDue, SameForeign, AlloyFacts;
  }

  lemma PrepareStartsNothing(family: Family, ann: Annotations, env: Env)
    requires Prepare(family, ann, env).Some?
    ensures !Prepare(family, ann, env).value.started
  {
    hide Mark;
    MarkStartsNothing(ann, Pending, MonitoringSecretError, env);
  }

  // ---------------------------------------------------------------- the ten minutes

  /** A start time, once set, stays. */
  predicate StartStays(a: Annotations, b: Annotations) {
    Get(a, AnnBootstrapStartedAt) != Text("") ==> Get(b, AnnBootstrapStartedAt) == Get(a, AnnBootstrapStartedAt)
  }

  /** ... and where there is none, only the time of the step can be put. */
  predicate KeepsStart(a: Annotations, b: Annotations, env: Env) {
    || Get(b, AnnBootstrapStartedAt) == Get(a, AnnBootstrapStartedAt)
    || (Get(a, AnnBootstrapStartedAt) == Text("") && Get(b, AnnBootstrapStartedAt) == env.clock.stamp)
  }

  lemma MarkKeepsStart(ann: Annotations, status: Value, why: Why, env: Env)
    ensures Get(Mark(ann, status, why, env).ann, AnnBootstrapStartedAt) == Get(ann, AnnBootstrapStartedAt)
  {
  }

  lemma RunKeepsStart(ann: Annotations, env: Env, started: bool)
    ensures Get(RunRemediation(ann, env).ann, AnnBootstrapStartedAt) == Get(ann, AnnBootstrapStartedAt)
    ensures Get(RecordFailure(ann, env, started).ann, AnnBootstrapStartedAt) == Get(ann, AnnBootstrapStartedAt)
  {
  }

  lemma LinuxKeepsStart(ann: Annotations, env: Env)
    ensures Get(RemediateLinux(ann, env).ann, AnnBootstrapStartedAt) == Get(ann, AnnBootstrapStartedAt)
  {
    hide Mark, RunRemediation, RecordFailure, UserKnown, Get;
    MarkKeepsStart(ann, Pending, WaitingForSSHForLinuxRemediation, env);
    MarkKeepsStart(ann, Pending, LinuxSSHUserMissing, env);
    RunKeepsStart(ann, env, false);
  }

  lemma WindowsKeepsStart(ann: Annotations, env: Env)
    ensures Get(RemediateWindows(ann, env).ann, AnnBootstrapStartedAt) == Get(ann, AnnBootstrapStartedAt)
  {
    assert Get(ann[AnnRemediationRequired := False] - {AnnAlloyError}, AnnBootstrapStartedAt) == Get(ann, AnnBootstrapStartedAt);
    hide Mark, RunRemediation, RecordFailure, TimedOut, Get;
    MarkKeepsStart(ann, Pending, WaitingForBootstrapState, env);
    MarkKeepsStart(ann, Pending, BootstrapInProgress, env);
    RunKeepsStart(ann, env, false);
  }

  lemma RemediateKeepsStart(family: Family, ann: Annotations, env: Env)
    ensures KeepsStart(ann, Remediate(family, ann, env).ann, env)
  {
    var stamped := ann[AnnBootstrapStartedAt := env.clock.stamp];
    assert Get(stamped, AnnBootstrapStartedAt) == env.clock.stamp;
    hide Mark, FirstIP, RemediateLinux, RemediateWindows, Get;
    LinuxKeepsStart(stamped, env);
    WindowsKeepsStart(stamped, env);
    MarkKeepsStart(ann, Pending, WaitingForVMIForLinuxRemediation, env);
    MarkKeepsStart(ann, Pending, WaitingForVMIForWindowsRemediation, env);
    MarkKeepsStart(ann, Pending, WaitingForIPForLinuxRemediation, env);
    MarkKeepsStart(ann, Pending, WaitingForIPForWindowsRemediation, env);
    LinuxKeepsStart(ann, env);
    WindowsKeepsStart(ann, env);
  }

  lemma MergesKeepStart(ann: Annotations, env: Env)
    ensures Get(MergeSysprep(ann, env).ann, AnnBootstrapStartedAt) == Get(ann, AnnBootstrapStartedAt)
    ensures Get(MergeCloudInit(ann, env).ann, AnnBootstrapStartedAt) == Get(ann, AnnBootstrapStartedAt)
  {
  }

  lemma AlloyKeepsStart(family: Family, ann: Annotations, env: Env)
    ensures Get(AlloyIfEnabled(family, ann, env).ann, AnnBootstrapStartedAt) == Get(ann, AnnBootstrapStartedAt)
  {
    hide HashOf, CanInstall, LinuxAccess, AlloyCurrent;
  }

  lemma FinishKeepsStart(family: Family, ann: Annotations, env: Env)
    ensures Get(FinishSync(family, ann, env).ann, AnnBootstrapStartedAt) == Get(ann, AnnBootstrapStartedAt)
  {
    hide AlloyIfEnabled, Mark;
    var a := AlloyIfEnabled(family, ann, env);
    AlloyKeepsStart(family, ann, env);
    MarkKeepsStart(a.ann[AnnAlloyError := Text(env.message)], Pending, AlloyInstallFailed, env);
    MarkKeepsStart((a.ann - {AnnAlloyError, AnnReason})[AnnRemediationRequired := False], Ready, Verified, env);
  }

  lemma SyncKeepsStart(family: Family, ann: Annotations, addresses: seq<string>, env: Env)
    ensures KeepsStart(ann, Sync(family, ann, addresses, env).ann, env)
  {
    hide FinishSync, Mark, FirstIP, TimedOut;
    MarkKeepsStart(ann, Pending, WaitingForIP, env);
    MarkKeepsStart(ann, Pending, BootstrapInProgress, env);
    MarkKeepsStart(ann, Pending, ExporterNotReady, env);
    FinishKeepsStart(family, ann, env);
    FinishKeepsStart(family, Cleaned(ann), env);
  }

  lemma MonitorKeepsStart(family: Family, ann: Annotations, env: Env)
    ensures KeepsStart(ann, Monitor(family, ann, env).ann, env)
  {
    hide Remediate, Mark, Sync, MergeSysprep, MergeCloudInit, RemediationDue, SysprepDue, CloudInitDue, Get;
    RemediateKeepsStart(family, ann, env);
    MergesKeepStart(ann, env);
    MarkKeepsStart(ann, Pending, WaitingForVMI, env);
    if env.vmi.Some? { SyncKeepsStart(family, ann, env.vmi.value, env); }
  }

  lemma StepKeepsStart(vm: VM, env: Env)
    ensures KeepsStart(vm.ann, Reconcile(vm, env).ann, env)
  {
    assert Get(ClearUnknown(vm.ann, env).ann, AnnBootstrapStartedAt) == Get(vm.ann, AnnBootstrapStartedAt);
    hide Monitor, Mark, Detect, ClearUnknown, MarkedUnknown, Get;
    MonitorKeepsStart(Detect(vm.labels), vm.ann, env);
    MarkKeepsStart(vm.ann, Pending, MonitoringSecretError, env);
    MarkKeepsStart(vm.ann, Skipped, MissingOSLabel, env);
  }

  lemma OnboardKeepsStart(vm: VM, i: Input)
    ensures StartStays(vm.ann, Onboard(vm, i).ann)
  {
    hide ChooseOS, Succeeds;
  }

  lemma NextKeepsStart(vm: VM, event: Event)
    ensures StartStays(vm.ann, Next(vm, event).ann)
  {
    hide Reconcile, Onboard;
    match event {
      case Controller(env) => StepKeepsStart(vm, env);
      case Kvoctl(input) => OnboardKeepsStart(vm, input);
    }
  }

  lemma {:induction false} RunKeepsStartTime(vm: VM, events: seq<Event>)
    ensures StartStays(vm.ann, Run(vm, events).ann)
    decreases |events|
  {
    hide Next;
    if events != [] {
      NextKeepsStart(vm, events[0]);
      RunKeepsStartTime(Next(vm, events[0]), events[1..]);
    }
  }

  /** A Windows guest that has yet to report anything, and was not prepared by kvoctl, is given the
      full ten minutes from the first remediation step ever taken, whatever happens in between: no
      script is started before. */
  lemma GuestGetsItsTime(vm: VM, events: seq<Event>, env: Env)
    requires Get(vm.ann, AnnBootstrapStartedAt) != Text("")
    requires var now := Run(vm, events);
             Known(now, env) && Detect(now.labels) == Windows && Get(now.ann, AnnSSHBootstrapComplete) != True
    requires env.state == Some(NotStarted)
    ensures Reconcile(Run(vm, events), env).started ==>
              var start := env.clock.parse(Get(vm.ann, AnnBootstrapStartedAt));
              start.Some? && env.clock.now > start.value + 600
  {
    RunKeepsStartTime(vm, events);
    StartsIff(Run(vm, events), env);
    hide Reconcile, Run, Detect, PreparationSucceeds, HasAddress;
  }

  /** The first such step starts no script at all, provided the clock reads back what it writes. */
  lemma FirstStepWaits(vm: VM, env: Env)
    requires Known(vm, env) && Detect(vm.labels) == Windows && Get(vm.ann, AnnSSHBootstrapComplete) != True
    requires Get(vm.ann, AnnBootstrapStartedAt) == Text("") && env.state == Some(NotStarted)
    requires env.clock.parse(env.clock.stamp) == Some(env.clock.now)
    ensures !Reconcile(vm, env).started
  {
    StartsIff(vm, env);
    hide Reconcile, Detect, PreparationSucceeds, HasAddress;
  }

  /** The same from the step that wrote the start time: in every run, a script for such a guest is
      started only when more than ten minutes have passed since the first step that came as far as
      remediating it. */
  lemma TenMinutesFromFirstStep(vm: VM, before: seq<Event>, first: Env, after: seq<Event>, env: Env)
    requires Get(Run(vm, before).ann, AnnBootstrapStartedAt) == Text("")
    requires Get(Run(vm, before + [Controller(first)]).ann, AnnBootstrapStartedAt) != Text("")
    requires first.clock.parse(first.clock.stamp) == Some(first.clock.now) && env.clock.parse == first.clock.parse
    requires var now := Run(vm, before + [Controller(first)] + after);
             Known(now, env) && Detect(now.labels) == Windows && Get(now.ann, AnnSSHBootstrapComplete) != True
    requires env.state == Some(NotStarted)
    ensures Reconcile(Run(vm, before + [Controller(first)] + after), env).started ==>
              env.clock.now > first.clock.now + 600
  {
    var v0, v1 := Run(vm, before), Run(vm, before + [Controller(first)]);
    RunSplit(vm, before, [Controller(first)]);
    RunSplit(vm, before + [Controller(first)], after);
    assert v1 == VM(v0.labels, Reconcile(v0, first).ann);
    StepKeepsStart(v0, first);
    hide Reconcile, Detect, Next;
    GuestGetsItsTime(v1, after, env);
  }
}
