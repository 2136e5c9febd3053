/** kvoctl and the controller together: recovering a skipped VM, and the VMs no cooperation saves. */
module Recovery {
  import opened Api
  import opened OsDetect
  import opened ReconcileStep
  import opened Onboarding
  import opened Protocol
  import opened StepFacts
  import opened ReadyGate
  import opened Convergence

  const STALE: set<Key> := {AnnStatus, AnnReason, AnnBootstrapOS, AnnExporter}

  /** The onboarding patch leaves the stale marks on the server although kvoctl deletes them from
      the map it sends. */
  lemma OnboardingCannotDelete(vm: VM, i: Input, key: Key)
    requires key in STALE
    ensures key in Onboard(vm, i).ann <==> key in vm.ann
    ensures Get(Onboard(vm, i).ann, key) == Get(vm.ann, key)
  {
    hide ChooseOS, Succeeds;
  }

  lemma ArmedIsDue(ann: Annotations, stamp: Value)
    ensures Managed(Armed(ann, stamp)) && RemediationDue(Armed(ann, stamp))
    ensures Get(Armed(ann, stamp), AnnSSHBootstrapComplete) == True
    ensures MarkedUnknown(Armed(ann, stamp)) <==> MarkedUnknown(ann)
  {
  }

  /** Whether the controller will know the OS after a successful onboarding can be told from the
      label before it. */
  lemma KnownAfterOnboarding(vm: VM, i: Input)
    requires Succeeds(vm, i)
    ensures Detect(Onboard(vm, i).labels) != Unknown
            <==> OsLabel(vm.labels) == "" || FamilyOfLabel(OsLabel(vm.labels)) != Unknown
  {
    WrittenLabelsAreKnown();
    EmptyLabelIsNotNormal();
    hide FamilyOfLabel, NormalizeOS;
  }

  lemma EmptyLabelIsNotNormal()
    ensures NormalizeOS("") == Unknown
  {
    hide NamesLinux;
    ReadersDifferOnOracle("");
    WrittenLabelsAreKnown();
  }

  /** A managed VM that was skipped for want of a label, with the webhook's `unknown` marks still on
      it, is clean and armed after one onboarding patch and one controller step. */
  lemma SkippedVMRecovers(vm: VM, i: Input, env: Env)
    requires Managed(vm.ann) && SkippedForLabel(vm.ann) && MarkedUnknown(vm.ann)
    requires OsLabel(vm.labels) == "" && Succeeds(vm, i)
    requires env.lookup == Found && OK(PatchCleared, env)
    ensures var step := Reconcile(Onboard(vm, i), env);
            && step.outcome == RequeueAfter(1)
            && (forall key :: key in STALE ==> key !in step.ann)
            && RemediationDue(step.ann)
  {
    KnownAfterOnboarding(vm, i);
    var armed := Onboard(vm, i).ann;
    assert armed == Armed(vm.ann, i.stamp);
    ArmedIsDue(vm.ann, i.stamp);
    assert armed - {AnnBootstrapOS, AnnExporter, AnnReason, AnnStatus} == armed - STALE;
    hide Detect, ChooseOS, Succeeds, Prepare, Monitor, Mark, Armed;
  }

  /** kvoctl takes the same VM up again, before the controller has looked at it, exactly when it was
      skipped for its label: the stale marks that its first patch could not remove make the VM look
      ready to onboard once more. */
  lemma TakenUpAgainIff(vm: VM, i: Input, stamp: Value)
    requires Succeeds(vm, i) && RecordKept(vm.ann)
    ensures Succeeds(Onboard(vm, i), i.(stamp := stamp)) <==> SkippedForLabel(vm.ann)
  {
    var on := Onboard(vm, i);
    ArmedIsDue(vm.ann, i.stamp);
    ArmedKeepsVerdict(vm.ann, i.stamp);
    assert on.ann == Armed(vm.ann, i.stamp) by { hide Succeeds, Armed, ChooseOS; }
    ChoiceStands(vm, i);
    hide Onboard, Armed, ChooseOS, RemediationDue, MarkedUnknown;
  }

  lemma ArmedKeepsVerdict(ann: Annotations, stamp: Value)
    ensures Completed(Armed(ann, stamp)) == Completed(ann)
    ensures SkippedForLabel(Armed(ann, stamp)) == SkippedForLabel(ann)
    ensures Get(Armed(ann, stamp), AnnDisableMonitoring) == Get(ann, AnnDisableMonitoring)
  {
  }

  /** The label kvoctl writes confirms the choice that made it write it. */
  lemma ChoiceStands(vm: VM, i: Input)
    requires Succeeds(vm, i)
    ensures var again := ChooseOS(Onboard(vm, i).labels, i);
            again.Some? && again.value.0 == ChooseOS(vm.labels, i).value.0 && again.value.0 != Unknown
  {
    ReadersDifferOnOracle("linux");
    ReadersDifferOnOracle("windows");
    WrittenLabelsAreKnown();
    EmptyLabelIsNotNormal();
    hide NormalizeOS, FamilyOfLabel, Armed;
  }

  lemma UnknownStep(vm: VM, env: Env)
    requires Detect(vm.labels) == Unknown
    ensures var step := Reconcile(vm, env);
            && (step.ann == vm.ann || step.ann == vm.ann[AnnStatus := Skipped][AnnReason := Because(MissingOSLabel)])
            && (env.lookup == Found && Get(vm.ann, AnnBootstrapManaged) == True ==>
                  var there := Get(vm.ann, AnnStatus) == Skipped && Get(vm.ann, AnnReason) == Because(MissingOSLabel);
                  if there || PatchMark !in env.fails
                  then step.outcome == Done && Get(step.ann, AnnStatus) == Skipped && Get(step.ann, AnnReason) == Because(MissingOSLabel)
                  else step.outcome == Error && step.ann == vm.ann)
  {
    var marked := vm.ann[AnnStatus := Skipped][AnnReason := Because(MissingOSLabel)];
    assert Get(marked, AnnStatus) == Skipped && Get(marked, AnnReason) == Because(MissingOSLabel);
    hide Detect, Prepare, Monitor, ClearUnknown, Get;
  }

  /** A label that is present but unknown to the controller is never replaced. */
  predicate Stuck(vm: VM) {
    OsLabel(vm.labels) != "" && FamilyOfLabel(OsLabel(vm.labels)) == Unknown
  }

  /** Such a VM never becomes ready, in any interleaving of both programs and any environment. */
  lemma {:induction false} StuckNeverReady(vm: VM, events: seq<Event>)
    requires Stuck(vm) && Get(vm.ann, AnnStatus) != Ready
    ensures Stuck(Run(vm, events)) && Get(Run(vm, events).ann, AnnStatus) != Ready
    decreases |events|
  {
    hide Reconcile, Onboard, FamilyOfLabel;
    if events != [] {
      match events[0] {
        case Controller(env) => UnknownStep(vm, env);
        case Kvoctl(input) => OnboardKeepsStuck(vm, input);
      }
      StuckNeverReady(Next(vm, events[0]), events[1..]);
    }
  }

  lemma OnboardKeepsStuck(vm: VM, i: Input)
    requires Stuck(vm)
    ensures Stuck(Onboard(vm, i)) && Get(Onboard(vm, i).ann, AnnStatus) == Get(vm.ann, AnnStatus)
  {
    hide ChooseOS, Succeeds, FamilyOfLabel;
  }

  lemma {:induction false} StuckStepsSkip(vm: VM, envs: seq<Env>)
    requires Stuck(vm) && Managed(vm.ann)
    requires forall i :: 0 <= i < |envs| ==> Cooperative(vm, envs[i])
    ensures envs != [] ==> Get(Steps(vm, envs).ann, AnnStatus) == Skipped
    decreases |envs|
  {
    hide Reconcile, Cooperative, FamilyOfLabel;
    if envs != [] {
      var next := VM(vm.labels, Reconcile(vm, envs[0]).ann);
      assert Cooperative(vm, envs[0]);
      assert envs[0].lookup == Found && envs[0].fails == {} by { CooperativeFinds(vm, envs[0]); }
      UnknownStep(vm, envs[0]);
      forall i | 0 <= i < |envs| - 1 ensures Cooperative(next, envs[1..][i]) {
        assert envs[1..][i] == envs[i + 1];
        StepStaysCooperative(vm, envs[0], envs[i + 1]);
      }
      StepStaysCooperative(vm, envs[0], envs[0]);
      StuckStepsSkip(next, envs[1..]);
    }
  }

  /** A Windows guest answers both times, and a success it reports it reports both times. */
  predicate GuestAnswers(env: Env) {
    env.state.Some? && env.alloyState.Some? && (env.state.value == Succeeded ==> env.alloyState.value == Succeeded)
  }

  /** kvoctl leaves every Windows guest ready to be taken over, so it need not report anything. */
  lemma OnboardedCooperates(vm: VM, i: Input, env: Env)
    requires Succeeds(vm, i) && WorldHelps(Onboard(vm, i), env)
    requires Detect(Onboard(vm, i).labels) == Windows ==> GuestAnswers(env)
    ensures Cooperative(Onboard(vm, i), env)
  {
    assert Onboard(vm, i).ann == Armed(vm.ann, i.stamp);
    ArmedIsDue(vm.ann, i.stamp);
    hide Succeeds, ChooseOS, WorldHelps, Detect, Armed;
  }

  lemma CooperativeFinds(vm: VM, env: Env)
    requires Cooperative(vm, env)
    ensures env.lookup == Found && env.fails == {}
  {
  }

  /** Every VM kvoctl onboards becomes ready within five controller steps in a helpful world, except
      exactly those whose label is present but unknown to the controller, such as `ol`.  A Windows
      guest may report success from the start, later or never; it only has to answer and not take it back. */
  lemma OnboardedBecomesReady(vm: VM, i: Input, envs: seq<Env>)
    requires Succeeds(vm, i) && |envs| >= 5
    requires forall n :: 0 <= n < |envs| ==> WorldHelps(Onboard(vm, i), envs[n])
    requires Detect(Onboard(vm, i).labels) == Windows ==>
               SuccessLasts(envs) && forall n :: 0 <= n < |envs| ==> GuestAnswers(envs[n])
    ensures ReadyState(Steps(Onboard(vm, i), envs).ann)
            <==> OsLabel(vm.labels) == "" || FamilyOfLabel(OsLabel(vm.labels)) != Unknown
  {
    hide Onboard, Cooperative, WorldHelps, GuestAnswers, FamilyOfLabel, Managed, Steps, Obligations, ReadyState, LoggingCurrent,
         Detect, SuccessLasts;
    var on := Onboard(vm, i);
    forall n | 0 <= n < |envs| ensures Cooperative(on, envs[n]) { OnboardedCooperates(vm, i, envs[n]); }
    KnownAfterOnboarding(vm, i);
    OnboardedIsManaged(vm, i);
    if OsLabel(vm.labels) != "" && FamilyOfLabel(OsLabel(vm.labels)) == Unknown { OnboardKeepsStuck(vm, i); }
    hide Succeeds;
    if Detect(on.labels) != Unknown {
      Converges(on, envs);
    } else {
      StuckStepsSkip(on, envs);
      SkippedIsNotReady(Steps(on, envs).ann);
    }
  }

  lemma OnboardedIsManaged(vm: VM, i: Input)
    requires Succeeds(vm, i)
    ensures Managed(Onboard(vm, i).ann)
  {
    ArmedIsDue(vm.ann, i.stamp);
    hide Succeeds, ChooseOS, Armed;
  }

  lemma SkippedIsNotReady(ann: Annotations)
    requires Get(ann, AnnStatus) == Skipped
    ensures !ReadyState(ann)
  {
  }
}
