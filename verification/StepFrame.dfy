/** Which annotations a step can touch at all, and when it says that the bootstrap has ended. */
module StepFrame {
  import opened Wrappers
  import opened Api
  import opened OsDetect
  import opened ReconcileStep
  import opened StepFacts
  import opened ReadyGate
  import opened StepOutcomes

  /** The names under which a step may write or delete, the note of a finished bootstrap apart. */
  predicate Written(key: Key) {
    || key.AnnStatus? || key.AnnReason? || key.AnnBootstrapOS? || key.AnnExporter? || key.AnnBootstrapStartedAt?
    || key.AnnRemediationRequired? || key.AnnRemediationCompleted? || key.AnnRemediationError?
    || key.AnnSysprepMerged? || key.AnnSysprepMergeError?
    || key.AnnCloudInitSecretMerged? || key.AnnCloudInitSecretMergeError?
    || key.AnnAlloyInstalled? || key.AnnAlloyConfigHash? || key.AnnAlloyError?
  }

  lemma MarkKeeps(ann: Annotations, status: Value, why: Why, env: Env, key: Key)
    requires !Written(key)
    ensures SameAt(ann, Mark(ann, status, why, env).ann, key)
  {
  }

  lemma StampKeepsOther(ann: Annotations, env: Env, key: Key)
    requires !Written(key)
    ensures SameAt(ann, ann[AnnBootstrapStartedAt := env.clock.stamp], key)
  {
  }

  lemma SetKeeps(ann: Annotations, name: Key, value: Value, key: Key)
    requires key != name
    ensures SameAt(ann, ann[name := value], key)
  {
  }

  lemma DropKeeps(ann: Annotations, names: set<Key>, key: Key)
    requires key !in names
    ensures SameAt(ann, ann - names, key)
  {
  }

  lemma KeptTwice(a: Annotations, b: Annotations, c: Annotations, key: Key)
    requires SameAt(a, b, key) && SameAt(b, c, key)
    ensures SameAt(a, c, key)
  {
    hide Get;
  }

  lemma SetDropKeeps(ann: Annotations, name: Key, value: Value, names: set<Key>, key: Key)
    requires key != name && key !in names
    ensures SameAt(ann, ann[name := value] - names, key)
  {
    hide Get;
    SetKeeps(ann, name, value, key);
    DropKeeps(ann[name := value], names, key);
  }

  lemma LinuxKeeps(ann: Annotations, env: Env, key: Key)
    requires !Written(key)
    ensures SameAt(ann, RemediateLinux(ann, env).ann, key)
  {
    MarkKeeps(ann, Pending, WaitingForSSHForLinuxRemediation, env, key);
    MarkKeeps(ann, Pending, LinuxSSHUserMissing, env, key);
    SetKeeps(ann, AnnRemediationError, Text(env.message), key);
    SetDropKeeps(ann, AnnRemediationCompleted, True, {AnnRemediationError, AnnRemediationRequired}, key);
    KeepsItself(ann, key);
    hide Mark, Get, SameAt, UserKnown;
  }

  lemma KeepsItself(ann: Annotations, key: Key)
    ensures SameAt(ann, ann, key)
  {
  }

  lemma WindowsKeeps(ann: Annotations, env: Env, key: Key)
    requires !Written(key)
    ensures SameAt(ann, RemediateWindows(ann, env).ann, key)
  {
    MarkKeeps(ann, Pending, WaitingForBootstrapState, env, key);
    MarkKeeps(ann, Pending, BootstrapInProgress, env, key);
    SetKeeps(ann, AnnRemediationError, Text(env.message), key);
    SetDropKeeps(ann, AnnRemediationCompleted, True, {AnnRemediationError, AnnRemediationRequired}, key);
    SetDropKeeps(ann, AnnRemediationRequired, False, {AnnAlloyError}, key);
    KeepsItself(ann, key);
    hide Mark, Get, SameAt, TimedOut;
  }

  lemma RemediateKeeps(family: Family, ann: Annotations, env: Env, key: Key)
    requires !Written(key)
    ensures SameAt(ann, Remediate(family, ann, env).ann, key)
  {
    hide Mark, FirstIP, RemediateLinux, RemediateWindows, SameAt, Written, Get;
    KeepsItself(ann, key);
    if env.vmi.None? || FirstIP(env.vmi.value) == "" {
      MarkKeeps(ann, Pending, WaitingForVMIForLinuxRemediation, env, key);
      MarkKeeps(ann, Pending, WaitingForVMIForWindowsRemediation, env, key);
      MarkKeeps(ann, Pending, WaitingForIPForLinuxRemediation, env, key);
      MarkKeeps(ann, Pending, WaitingForIPForWindowsRemediation, env, key);
    } else {
      var start := if Get(ann, AnnBootstrapStartedAt) == Text("") then ann[AnnBootstrapStartedAt := env.clock.stamp] else ann;
      StampKeepsOther(ann, env, key);
      LinuxKeeps(start, env, key);
      WindowsKeeps(start, env, key);
      KeptTwice(ann, start, RemediateLinux(start, env).ann, key);
      KeptTwice(ann, start, RemediateWindows(start, env).ann, key);
    }
  }

  lemma MergesKeep(ann: Annotations, env: Env, key: Key)
    requires !Written(key)
    ensures SameAt(ann, MergeSysprep(ann, env).ann, key) && SameAt(ann, MergeCloudInit(ann, env).ann, key)
  {
    SetDropKeeps(ann, AnnSysprepMerged, True, {AnnSysprepMergeError}, key);
    SetDropKeeps(ann, AnnCloudInitSecretMerged, True, {AnnCloudInitSecretMergeError}, key);
    SetKeeps(ann, AnnSysprepMergeError, Text(env.message), key);
    SetKeeps(ann, AnnCloudInitSecretMergeError, Text(env.message), key);
    KeepsItself(ann, key);
    hide SameAt, Get;
  }

  lemma FinishKeeps(family: Family, ann: Annotations, env: Env, key: Key)
    requires !Written(key)
    ensures SameAt(ann, FinishSync(family, ann, env).ann, key)
  {
    var a := AlloyIfEnabled(family, ann, env);
    AlloyKeeps(family, ann, env, key);
    var noted := a.ann[AnnAlloyError := Text(env.message)];
    var dropped := a.ann - {AnnAlloyError, AnnReason};
    var final := dropped[AnnRemediationRequired := False];
    FinalKeeps(a.ann, env, key);
    MarkKeeps(noted, Pending, AlloyInstallFailed, env, key);
    MarkKeeps(final, Ready, Verified, env, key);
    KeptTwice(ann, a.ann, noted, key);
    KeptTwice(ann, a.ann, final, key);
    KeptTwice(ann, noted, Mark(noted, Pending, AlloyInstallFailed, env).ann, key);
    KeptTwice(ann, final, Mark(final, Ready, Verified, env).ann, key);
    hide AlloyIfEnabled, Mark, SameAt, Written, Get;
  }

  lemma FinalKeeps(ann: Annotations, env: Env, key: Key)
    requires !Written(key)
    ensures SameAt(ann, ann[AnnAlloyError := Text(env.message)], key)
    ensures SameAt(ann, (ann - {AnnAlloyError, AnnReason})[AnnRemediationRequired := False], key)
  {
  }

  lemma AlloyKeeps(family: Family, ann: Annotations, env: Env, key: Key)
    requires key !in {AnnAlloyInstalled, AnnAlloyConfigHash, AnnAlloyError}
    ensures SameAt(ann, AlloyIfEnabled(family, ann, env).ann, key)
  {
    hide HashOf, CanInstall, LinuxAccess, AlloyCurrent;
  }

  lemma CleanedKeeps(ann: Annotations, key: Key)
    requires !Written(key) && key != AnnBootstrapReady
    ensures SameAt(ann, Cleaned(ann), key)
  {
  }

  /** What the sync step keeps; the end of the bootstrap is noted exactly when it reaches the probe, the
      guest reports success and the patch goes through. */
  lemma SyncKeeps(family: Family, ann: Annotations, addresses: seq<string>, env: Env, key: Key)
    requires family != Unknown && !Written(key)
    ensures key != AnnBootstrapReady ==> SameAt(ann, Sync(family, ann, addresses, env).ann, key)
    ensures var notes := && HasAddress(addresses) && EnsureServiceAndEndpoints !in env.fails && EnsureServiceMonitor !in env.fails
                         && GuestReport(family, env) == Some(Succeeded) && PatchBootstrapReady !in env.fails;
            var after := Sync(family, ann, addresses, env).ann;
            if notes then Get(after, AnnBootstrapReady) == True else SameAt(ann, after, AnnBootstrapReady)
  {
    SyncShape(family, ann, addresses, env);
    KeepsItself(ann, key);
    KeepsItself(ann, AnnBootstrapReady);
    if key != AnnBootstrapReady { CleanedKeeps(ann, key); }
    KeepsOfSync(family, ann, env, key);
    KeepsOfSync(family, ann, env, AnnBootstrapReady);
    assert Get(Cleaned(ann), AnnBootstrapReady) == True;
    hide Sync, FinishSync, Mark, HasAddress, LongAgo, Get, Cleaned, Written;
  }

  lemma KeepsOfSync(family: Family, ann: Annotations, env: Env, key: Key)
    requires !Written(key)
    ensures SameAt(ann, Mark(ann, Pending, WaitingForIP, env).ann, key)
    ensures SameAt(ann, Mark(ann, Pending, BootstrapInProgress, env).ann, key)
    ensures SameAt(ann, Mark(ann, Pending, ExporterNotReady, env).ann, key)
    ensures SameAt(ann, FinishSync(family, ann, env).ann, key)
    ensures SameAt(Cleaned(ann), FinishSync(family, Cleaned(ann), env).ann, key)
  {
    hide Mark, FinishSync, Cleaned, SameAt;
    MarkKeeps(ann, Pending, WaitingForIP, env, key);
    MarkKeeps(ann, Pending, BootstrapInProgress, env, key);
    MarkKeeps(ann, Pending, ExporterNotReady, env, key);
    FinishKeeps(family, ann, env, key);
    FinishKeeps(family, Cleaned(ann), env, key);
  }

  lemma ClearKeeps(ann: Annotations, env: Env, key: Key)
    requires !Written(key)
    ensures SameAt(ann, ClearUnknown(ann, env).ann, key)
  {
  }

  /** The step reaches the probe with a guest that reports success, and the note of it goes through. */
  predicate NotesBootstrap(vm: VM, env: Env) {
    && Known(vm, env) && Probes(vm, env)
    && GuestReport(Detect(vm.labels), env) == Some(Succeeded) && PatchBootstrapReady !in env.fails
  }

  /** A step leaves every annotation outside its own sixteen names as it was, the user's own included;
      it says that the bootstrap is ready exactly when the guest does, and never takes that back. */
  lemma StepKeeps(vm: VM, env: Env, key: Key)
    requires !Written(key)
    ensures key != AnnBootstrapReady ==> SameAt(vm.ann, Reconcile(vm, env).ann, key)
    ensures if NotesBootstrap(vm, env) then Get(Reconcile(vm, env).ann, AnnBootstrapReady) == True
            else SameAt(vm.ann, Reconcile(vm, env).ann, AnnBootstrapReady)
  {
    var family, ann := Detect(vm.labels), vm.ann;
    KeptElsewhere(vm, env, key);
    KeptElsewhere(vm, env, AnnBootstrapReady);
    if Known(vm, env) && Looks(vm, env) && env.vmi.Some? {
      SyncKeeps(family, ann, env.vmi.value, env, key);
      PrepareGate(family, ann, env);
      assert Reconcile(vm, env) == Sync(family, ann, env.vmi.value, env) by {
        hide Sync, Prepare, Detect, PreparationSucceeds, HasAddress, Get;
      }
    }
    hide Reconcile, Sync, Detect, HasAddress, PreparationSucceeds, NothingDue, Get, SameAt;
  }

  /** Every other step touches neither. */
  lemma KeptElsewhere(vm: VM, env: Env, key: Key)
    requires !Written(key)
    ensures !(Known(vm, env) && Looks(vm, env) && env.vmi.Some?) ==> SameAt(vm.ann, Reconcile(vm, env).ann, key)
  {
    var family, ann := Detect(vm.labels), vm.ann;
    PrepareGate(family, ann, env);
    KeepsItself(ann, key);
    ClearKeeps(ann, env, key);
    MarkKeeps(ann, Skipped, MissingOSLabel, env, key);
    MarkKeeps(ann, Pending, MonitoringSecretError, env, key);
    MarkKeeps(ann, Pending, WaitingForVMI, env, key);
    RemediateKeeps(family, ann, env, key);
    MergesKeep(ann, env, key);
    hide Remediate, MergeSysprep, MergeCloudInit, Sync, Mark, ClearUnknown, Detect, Get, SameAt, PreparationSucceeds, HasAddress,
         Written;
  }
}
