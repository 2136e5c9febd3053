/** What an onboarding means: exactly when a VM is taken, what every other verdict says, and exactly
    what is written on the VM. */
module OnboardingFacts {
  import opened Wrappers
  import opened Api
  import opened OsDetect
  import opened ReconcileStep
  import opened StepFacts
  import opened Onboarding
  import Recovery

  /** The selectors contradict each other or the label. */
  predicate Contradictory(vm: VM, i: Input) {
    var named := NormalizeOS(OsLabel(vm.labels));
    || (i.linuxMatch && i.windowsMatch)
    || (named == Windows && i.linuxMatch) || (named == Linux && i.windowsMatch)
  }

  /** Neither the label nor a selector tells the OS. */
  predicate Untold(vm: VM, i: Input) {
    NormalizeOS(OsLabel(vm.labels)) == Unknown && !i.linuxMatch && !i.windowsMatch
  }

  /** A VM the controller is working on, or has given up on for want of a label. */
  predicate Taken(vm: VM) {
    Get(vm.ann, AnnBootstrapManaged) == True
  }

  predicate GivenUp(vm: VM) {
    Get(vm.ann, AnnStatus) == Skipped && Get(vm.ann, AnnReason) == Because(MissingOSLabel)
  }

  /** Every verdict, exactly. */
  lemma VerdictsIff(vm: VM, i: Input)
    ensures var open := Get(vm.ann, AnnDisableMonitoring) != True;
            var clear := open && !Contradictory(vm, i);
            var done := Get(vm.ann, AnnRemediationCompleted) == True;
            && (StateOf(vm, i) == Conflict <==> open && Contradictory(vm, i))
            && (StateOf(vm, i) == AlreadyManaged <==> clear && Taken(vm) && done)
            && (StateOf(vm, i) == InProgress <==> clear && Taken(vm) && !done && !GivenUp(vm))
            && (StateOf(vm, i) == ReadyToOnboard <==> clear && !Untold(vm, i) && (Taken(vm) ==> !done && GivenUp(vm)))
            && (StateOf(vm, i) == SkippedVM <==> !open || (clear && Untold(vm, i) && (Taken(vm) ==> !done && GivenUp(vm))))
  {
    hide NormalizeOS, Get;
  }

  /** Exactly when an onboarding goes through. */
  lemma SucceedsIff(vm: VM, i: Input)
    ensures Succeeds(vm, i) <==>
              && Get(vm.ann, AnnDisableMonitoring) != True && !Contradictory(vm, i) && !Untold(vm, i)
              && (Taken(vm) ==> Get(vm.ann, AnnRemediationCompleted) != True && GivenUp(vm))
              && i.ip != "" && i.ip != "10.0.2.2" && i.guestPrepared && i.patchOK
  {
    VerdictsIff(vm, i);
    assert NAT_ADDRESS == "10.0.2.2";
    hide StateOf, Contradictory, Untold, Get, NAT_ADDRESS;
  }

  /** What it writes: five annotations and, where there is no label, that of the selector; everything else
      on the VM stays. */
  lemma OnboardWrites(vm: VM, i: Input, key: Key)
    requires Succeeds(vm, i)
    ensures var after := Onboard(vm, i);
            && Get(after.ann, AnnBootstrapManaged) == True && Get(after.ann, AnnLoggingEnabled) == True
            && Get(after.ann, AnnRemediationRequired) == True && Get(after.ann, AnnSSHBootstrapComplete) == True
            && Get(after.ann, AnnReconcileAt) == i.stamp
            && (key !in {AnnBootstrapManaged, AnnLoggingEnabled, AnnRemediationRequired, AnnSSHBootstrapComplete, AnnReconcileAt} ==>
                  SameAt(vm.ann, after.ann, key))
            && after.labels == if OsLabel(vm.labels) == "" then vm.labels[OS_LABEL := if i.windowsMatch then "windows" else "linux"]
                               else vm.labels
  {
    Recovery.EmptyLabelIsNotNormal();
    ArmedWords(vm.ann, i.stamp, key);
    hide NormalizeOS, Armed, SameAt, Get;
    assert Onboard(vm, i).ann == Armed(vm.ann, i.stamp);
    LabelWritten(vm, i);
  }

  lemma LabelWritten(vm: VM, i: Input)
    requires Succeeds(vm, i) && NormalizeOS("") == Unknown
    ensures Onboard(vm, i).labels == if OsLabel(vm.labels) == "" then vm.labels[OS_LABEL := if i.windowsMatch then "windows" else "linux"]
                                     else vm.labels
  {
    hide NormalizeOS, Armed, Get;
  }

  lemma ArmedWords(ann: Annotations, stamp: Value, key: Key)
    ensures var after := Armed(ann, stamp);
            && Get(after, AnnBootstrapManaged) == True && Get(after, AnnLoggingEnabled) == True
            && Get(after, AnnRemediationRequired) == True && Get(after, AnnSSHBootstrapComplete) == True
            && Get(after, AnnReconcileAt) == stamp
            && (key !in {AnnBootstrapManaged, AnnLoggingEnabled, AnnRemediationRequired, AnnSSHBootstrapComplete, AnnReconcileAt} ==>
                  SameAt(ann, after, key))
  {
  }
}
