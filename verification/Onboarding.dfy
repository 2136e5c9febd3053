/** `kvoctl onboard` (pkg/onboarding): classifying a running VM and handing it to the controller. */
module Onboarding {
  import opened Wrappers
  import opened MergePatch
  import opened Api
  import opened OsDetect
  import opened ReconcileStep

  datatype Source = Nowhere | Label | Selector

  datatype VMState = ReadyToOnboard | AlreadyManaged | InProgress | SkippedVM | Conflict | Onboarded | FailedVM

  datatype Candidate = Candidate(os: Family, source: Source, state: VMState, ip: string)

  /** What one onboarding of one VM meets: which selectors match its labels, the address of its
      first interface, whether the guest could be prepared over SSH and whether the patch went through. */
  datatype Input = Input(
    linuxMatch: bool, windowsMatch: bool, ip: string,
    guestPrepared: bool, patchOK: bool, stamp: Value)

  const NAT_ADDRESS := "10.0.2.2"

  predicate SkippedForLabel(ann: Annotations) {
    Get(ann, AnnStatus) == Skipped && Get(ann, AnnReason) == Because(MissingOSLabel)
  }

  /** The family to onboard as, and where it comes from; None on a conflict. */
  function ChooseOS(labels: Labels, i: Input): Option<(Family, Source)> {
    var existing := NormalizeOS(OsLabel(labels));
    if i.linuxMatch && i.windowsMatch then None
    else if existing != Unknown then
      if (i.linuxMatch && existing != Linux) || (i.windowsMatch && existing != Windows) then None
      else Some((existing, Label))
    else if i.linuxMatch then Some((Linux, Selector))
    else if i.windowsMatch then Some((Windows, Selector))
    else Some((Unknown, Nowhere))
  }

  /** The verdict on a VM whose family is settled. */
  function Verdict(ann: Annotations, os: Family): VMState {
    if Managed(ann) then
      if Completed(ann) then AlreadyManaged
      else if SkippedForLabel(ann) then (if os == Unknown then SkippedVM else ReadyToOnboard)
      else InProgress
    else if os == Unknown then SkippedVM
    else ReadyToOnboard
  }

  function StateOf(vm: VM, i: Input): VMState {
    if Get(vm.ann, AnnDisableMonitoring) == True then SkippedVM
    else match ChooseOS(vm.labels, i)
         case None => Conflict
         case Some((os, _)) => Verdict(vm.ann, os)
  }

  /** `classifyVM`.  The candidate is filled in step by step and returned at the first verdict. */
  method ClassifyVM(vm: VM, i: Input) returns (c: Candidate)
    ensures c.state == StateOf(vm, i) && c.ip == i.ip
    ensures c.state == ReadyToOnboard ==> ChooseOS(vm.labels, i) == Some((c.os, c.source)) && c.os != Unknown
  {
    c := Candidate(Unknown, Nowhere, ReadyToOnboard, i.ip);
    if Get(vm.ann, AnnDisableMonitoring) == True {
      c := c.(state := SkippedVM);
      return;
    }
    if i.linuxMatch && i.windowsMatch {
      c := c.(state := Conflict);
      return;
    }
    var existing := NormalizeOS(OsLabel(vm.labels));
    if existing != Unknown {
      c := c.(os := existing, source := Label);
      if i.linuxMatch && existing != Linux {
        c := c.(state := Conflict);
        return;
      }
      if i.windowsMatch && existing != Windows {
        c := c.(state := Conflict);
        return;
      }
    } else if i.linuxMatch {
      c := c.(os := Linux, source := Selector);
    } else if i.windowsMatch {
      c := c.(os := Windows, source := Selector);
    }
    if Get(vm.ann, AnnBootstrapManaged) == True {
      if Get(vm.ann, AnnRemediationCompleted) == True {
        c := c.(state := AlreadyManaged);
        return;
      }
      if Get(vm.ann, AnnStatus) == Skipped && Get(vm.ann, AnnReason) == Because(MissingOSLabel) {
        c := c.(state := if c.os == Unknown then SkippedVM else ReadyToOnboard);
        return;
      }
      c := c.(state := InProgress);
      return;
    }
    if c.os == Unknown {
      c := c.(state := SkippedVM);
    }
  }

  function WordFor(os: Family): string {
    if os == Windows then "windows" else "linux"
  }

  /** What is written for every onboarded VM. */
  function Armed(ann: Annotations, stamp: Value): Annotations {
    ann[AnnBootstrapManaged := True][AnnLoggingEnabled := True][AnnRemediationRequired := True]
       [AnnSSHBootstrapComplete := True][AnnReconcileAt := stamp]
  }

  /** The VM after a successful hand-over.  No name can disappear: the client marshals its edited
      maps, and a merge patch leaves alone what they no longer hold. */
  function HandedOver(vm: VM, os: Family, source: Source, stamp: Value): VM {
    VM(if source == Selector && OsLabel(vm.labels) == "" then vm.labels[OS_LABEL := WordFor(os)] else vm.labels,
       Armed(vm.ann, stamp))
  }

  /** Whether an onboarding attempt gets as far as a patched VM. */
  predicate Succeeds(vm: VM, i: Input) {
    && StateOf(vm, i) == ReadyToOnboard
    && i.ip != "" && i.ip != NAT_ADDRESS
    && i.guestPrepared && i.patchOK
  }

  /** One atomic classify-and-mark step. */
  function Onboard(vm: VM, i: Input): VM {
    if Succeeds(vm, i)
    then var (os, source) := ChooseOS(vm.labels, i).value; HandedOver(vm, os, source, i.stamp)
    else vm
  }

  /** The edits of the annotation map.  What is deleted from it stays on the server, so what counts
      is the map laid over the original. */
  method EditAnnotations(ann: Annotations, stamp: Api.Value) returns (edited: Annotations)
    ensures ann + edited == Armed(ann, stamp)
    ensures Get(ann, AnnReason) == Because(MissingOSLabel) ==>
              {AnnReason, AnnStatus, AnnBootstrapOS, AnnExporter} !! edited.Keys
  {
    edited := ann;
    edited := edited[AnnBootstrapManaged := True];
    edited := edited[AnnLoggingEnabled := True];
    edited := edited[AnnRemediationRequired := True];
    edited := edited[AnnSSHBootstrapComplete := True];
    edited := edited[AnnReconcileAt := stamp];
    assert edited == Armed(ann, stamp);
    if Get(edited, AnnReason) == Because(MissingOSLabel) {
      edited := edited - {AnnReason, AnnStatus, AnnBootstrapOS, AnnExporter};
    }
  }

  /** The VM object in the API server. */
  class StoredVM {
    var labels: Labels
    var ann: Annotations

    function Value(): VM
      reads this
    {
      VM(labels, ann)
    }

    constructor (vm: VM)
      ensures Value() == vm
    {
      labels, ann := vm.labels, vm.ann;
    }

    /** A JSON merge patch sent by the client. */
    method MergePatch(labelPatch: Patch<string, string>, annPatch: Patch<Key, Api.Value>)
      modifies this
      ensures labels == Apply(old(labels), labelPatch) && ann == Apply(old(ann), annPatch)
    {
      labels, ann := Apply(labels, labelPatch), Apply(ann, annPatch);
    }

    /** `markVMReadyForReconciliation`: reads the VM, edits copies of its maps in sequence and
        sends them as one merge patch. */
    method MarkVMReadyForReconciliation(c: Candidate, stamp: Api.Value, patchOK: bool) returns (ok: bool)
      modifies this
      ensures ok <==> patchOK && (c.source == Selector ==> NormalizeOS(OsLabel(old(labels))) in {Unknown, c.os})
      ensures ok ==> Value() == HandedOver(old(Value()), c.os, c.source, stamp)
      ensures ok && (c.source != Selector || OsLabel(old(labels)) != "") ==> labels == old(labels)
      ensures ok && c.source == Selector && OsLabel(old(labels)) == "" ==>
                labels == old(labels)[OS_LABEL := if c.os == Windows then "windows" else "linux"]
      ensures !ok ==> Value() == old(Value())
    {
      var editedLabels := labels;
      if c.source == Selector {
        var existing := NormalizeOS(OsLabel(editedLabels));
        if existing != Unknown && existing != c.os {
          return false;
        }
        if OsLabel(editedLabels) == "" {
          editedLabels := editedLabels[OS_LABEL := WordFor(c.os)];
        }
      }

      var edited := EditAnnotations(ann, stamp);

      if !patchOK {
        return false;
      }
      hide Armed, Apply, Whole, NormalizeOS;
      WholeNeverDeletes(labels, editedLabels);
      WholeNeverDeletes(ann, edited);
      assert labels + editedLabels == editedLabels;
      MergePatch(Whole(editedLabels), Whole(edited));
      return true;
    }

    /** One VM of the run: classify it, prepare the guest and mark it. */
    method OnboardOne(i: Input) returns (onboarded: bool)
      modifies this
      ensures onboarded <==> Succeeds(old(Value()), i)
      ensures Value() == Onboard(old(Value()), i)
    {
      var c := ClassifyVM(VM(labels, ann), i);
      if c.state != ReadyToOnboard || c.ip == "" || c.ip == NAT_ADDRESS || !i.guestPrepared {
        return false;
      }
      onboarded := MarkVMReadyForReconciliation(c, i.stamp, i.patchOK);
    }
  }

  function CountState(cs: seq<Candidate>, s: VMState): nat {
    if cs == [] then 0 else (if cs[0].state == s then 1 else 0) + CountState(cs[1..], s)
  }

  lemma {:induction false} CountSplit(a: seq<Candidate>, b: seq<Candidate>, s: VMState)
    ensures CountState(a + b, s) == CountState(a, s) + CountState(b, s)
  {
    if a == [] {
      assert a + b == b;
    } else {
      assert (a + b)[1..] == a[1..] + b;
      CountSplit(a[1..], b, s);
    }
  }

  lemma CountNext(cs: seq<Candidate>, n: nat, s: VMState)
    requires n < |cs|
    ensures CountState(cs[..n + 1], s) == CountState(cs[..n], s) + (if cs[n].state == s then 1 else 0)
  {
    assert cs[..n + 1] == cs[..n] + [cs[n]];
    CountSplit(cs[..n], [cs[n]], s);
  }

  /** The summary counters of `Run`: every candidate is counted exactly once. */
  method Summarize(cs: seq<Candidate>) returns (ready: nat, managed: nat, progress: nat, skipped: nat, conflicts: nat)
    ensures ready + managed + progress + skipped + conflicts == |cs|
    ensures ready == CountState(cs, ReadyToOnboard) && managed == CountState(cs, AlreadyManaged)
    ensures progress == CountState(cs, InProgress) && conflicts == CountState(cs, Conflict)
  {
    ready, managed, progress, skipped, conflicts := 0, 0, 0, 0, 0;
    for n := 0 to |cs|
      invariant ready + managed + progress + skipped + conflicts == n
      invariant ready == CountState(cs[..n], ReadyToOnboard) && managed == CountState(cs[..n], AlreadyManaged)
      invariant progress == CountState(cs[..n], InProgress) && conflicts == CountState(cs[..n], Conflict)
    {
      CountNext(cs, n, ReadyToOnboard);
      CountNext(cs, n, AlreadyManaged);
      CountNext(cs, n, InProgress);
      CountNext(cs, n, Conflict);
      match cs[n].state
      case ReadyToOnboard => ready := ready + 1;
      case AlreadyManaged => managed := managed + 1;
      case InProgress => progress := progress + 1;
      case Conflict => conflicts := conflicts + 1;
      case _ => skipped := skipped + 1;
    }
    assert cs[..|cs|] == cs;
  }

  /** The attempt on one candidate gets through. */
  predicate GetsThrough(c: Candidate, guestPrepared: bool, marked: bool) {
    c.ip != "" && c.ip != "10.0.2.2" && guestPrepared && marked
  }

  /** How a candidate ends: untouched unless it was ready. */
  predicate Ends(c: Candidate, after: Candidate, guestPrepared: bool, marked: bool) {
    after == if c.state != ReadyToOnboard then c
             else c.(state := if GetsThrough(c, guestPrepared, marked) then Onboarded else FailedVM)
  }

  /** One turn of the execution loop. */
  method Attempt(c: Candidate, guestPrepared: bool, marked: bool) returns (after: Candidate)
    ensures Ends(c, after, guestPrepared, marked)
  {
    after := c;
    if c.state != ReadyToOnboard {
      return;
    }
    if c.ip == "" || c.ip == NAT_ADDRESS {
      after := after.(state := FailedVM);
      return;
    }
    if !guestPrepared {
      after := after.(state := FailedVM);
      return;
    }
    if !marked {
      after := after.(state := FailedVM);
      return;
    }
    after := after.(state := Onboarded);
  }

  /** The execution loop of `Run`: only ready candidates are touched, each of them ends as
      onboarded or failed, and the command fails exactly when some attempt failed. */
  method Execute(cs: seq<Candidate>, guestPrepared: seq<bool>, marked: seq<bool>)
    returns (after: seq<Candidate>, onboarded: nat, failed: nat, ok: bool)
    requires |guestPrepared| == |cs| && |marked| == |cs|
    requires forall n :: 0 <= n < |cs| ==> cs[n].state != Onboarded && cs[n].state != FailedVM
    ensures |after| == |cs|
    ensures forall n :: 0 <= n < |cs| ==> Ends(cs[n], after[n], guestPrepared[n], marked[n])
    ensures onboarded == CountState(after, Onboarded) && failed == CountState(after, FailedVM)
    ensures onboarded + failed == CountState(cs, ReadyToOnboard)
    ensures ok <==> forall n :: 0 <= n < |cs| ==> after[n].state != FailedVM
  {
    hide CountState, GetsThrough;
    after, onboarded, failed := [], 0, 0;
    NothingCounted();
    for n := 0 to |cs|
      invariant |after| == n
      invariant forall m :: 0 <= m < n ==> Ends(cs[m], after[m], guestPrepared[m], marked[m])
      invariant onboarded == CountState(after, Onboarded) && failed == CountState(after, FailedVM)
      invariant onboarded + failed == CountState(cs[..n], ReadyToOnboard)
      invariant failed == 0 <==> forall m :: 0 <= m < n ==> after[m].state != FailedVM
    {
      CountNext(cs, n, ReadyToOnboard);
      var c := Attempt(cs[n], guestPrepared[n], marked[n]);
      CountOneMore(after, c, Onboarded);
      CountOneMore(after, c, FailedVM);
      after := after + [c];
      if c.state == Onboarded {
        onboarded := onboarded + 1;
      } else if c.state == FailedVM {
        failed := failed + 1;
      }
    }
    assert cs[..|cs|] == cs;
    ok := failed == 0;
  }

  lemma NothingCounted()
    ensures forall s :: CountState([], s) == 0
  {
  }

  lemma CountOneMore(cs: seq<Candidate>, c: Candidate, s: VMState)
    ensures CountState(cs + [c], s) == CountState(cs, s) + (if c.state == s then 1 else 0)
  {
    CountSplit(cs, [c], s);
  }
}
