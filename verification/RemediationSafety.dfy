/** A recorded remediation is final: whatever the controller and kvoctl do afterwards, in whatever
    order and environment, it is never repeated and never re-armed. */
module RemediationSafety {
  import opened Api
  import opened ReconcileStep
  import opened Onboarding
  import opened Protocol
  import opened StepFacts

  lemma StepKeepsRecord(vm: VM, env: Env)
    requires RecordKept(vm.ann)
    ensures var step := Reconcile(vm, env);
            && RecordKept(step.ann)
            && (Completed(vm.ann) ==> Completed(step.ann) && !step.started)
            && (step.recorded ==> step.started && Completed(step.ann))
            && (!Completed(vm.ann) && Completed(step.ann) ==> step.recorded)
  {
    hide Reconcile;
    ReconcileFacts(vm, env);
  }

  lemma OnboardKeepsRecord(vm: VM, i: Input)
    requires RecordKept(vm.ann)
    ensures RecordKept(Onboard(vm, i).ann)
    ensures Completed(vm.ann) ==> Onboard(vm, i) == vm
    ensures Completed(Onboard(vm, i).ann) <==> Completed(vm.ann)
  {
    hide ChooseOS;
  }

  lemma NextKeepsRecord(vm: VM, event: Event)
    requires RecordKept(vm.ann)
    ensures RecordKept(Next(vm, event).ann)
    ensures Completed(vm.ann) ==> Completed(Next(vm, event).ann)
  {
    hide Reconcile, Onboard, RecordKept, Completed;
    match event {
      case Controller(env) => StepKeepsRecord(vm, env);
      case Kvoctl(input) => OnboardKeepsRecord(vm, input);
    }
  }

  /** The invariant of every run: a completed remediation is managed, not pending and free of
      errors, and it stays completed. */
  lemma {:induction false} RunKeepsRecord(vm: VM, events: seq<Event>)
    requires RecordKept(vm.ann)
    ensures RecordKept(Run(vm, events).ann)
    ensures Completed(vm.ann) ==> Completed(Run(vm, events).ann)
    decreases |events|
  {
    hide Next, RecordKept, Completed;
    if events != [] {
      NextKeepsRecord(vm, events[0]);
      RunKeepsRecord(Next(vm, events[0]), events[1..]);
    }
  }

  predicate Starts(vm: VM, event: Event) {
    event.Controller? && Reconcile(vm, event.env).started
  }

  predicate Records(vm: VM, event: Event) {
    event.Controller? && Reconcile(vm, event.env).recorded
  }

  /** How many remediation scripts a run starts. */
  function ScriptsStarted(vm: VM, events: seq<Event>): nat
    decreases |events|
  {
    if events == [] then 0
    else (if Starts(vm, events[0]) then 1 else 0) + ScriptsStarted(Next(vm, events[0]), events[1..])
  }

  /** How many successes it records. */
  function SuccessesRecorded(vm: VM, events: seq<Event>): nat
    decreases |events|
  {
    if events == [] then 0
    else (if Records(vm, events[0]) then 1 else 0) + SuccessesRecorded(Next(vm, events[0]), events[1..])
  }

  lemma CompletedIsQuiet(vm: VM, event: Event)
    requires RecordKept(vm.ann)
    ensures Completed(vm.ann) ==> !Starts(vm, event) && !Records(vm, event)
    ensures Records(vm, event) ==> Completed(Next(vm, event).ann)
    ensures !Completed(vm.ann) ==> (Completed(Next(vm, event).ann) <==> Records(vm, event))
  {
    hide Reconcile, Onboard, RecordKept, Completed;
    match event {
      case Controller(env) => StepKeepsRecord(vm, env);
      case Kvoctl(input) => OnboardKeepsRecord(vm, input);
    }
  }

  /** Once a success is recorded, no script is ever started again, and the VM is never re-armed. */
  lemma {:induction false} NeverRepeated(vm: VM, events: seq<Event>)
    requires RecordKept(vm.ann) && Completed(vm.ann)
    ensures ScriptsStarted(vm, events) == 0 && SuccessesRecorded(vm, events) == 0
    ensures !RemediationDue(Run(vm, events).ann)
    decreases |events|
  {
    RunKeepsRecord(vm, events);
    hide Next, Starts, Records, RecordKept, Completed, RemediationDue;
    assert !RemediationDue(Run(vm, events).ann) by { CompletedNotDue(Run(vm, events).ann); }
    if events != [] {
      CompletedIsQuiet(vm, events[0]);
      NextKeepsRecord(vm, events[0]);
      NeverRepeated(Next(vm, events[0]), events[1..]);
    }
  }

  lemma CompletedNotDue(ann: Annotations)
    requires RecordKept(ann) && Completed(ann)
    ensures !RemediationDue(ann)
  {
  }

  /** At most one success is recorded in the whole life of a VM. */
  lemma {:induction false} RecordedAtMostOnce(vm: VM, events: seq<Event>)
    requires RecordKept(vm.ann)
    ensures SuccessesRecorded(vm, events) <= 1
    ensures SuccessesRecorded(vm, events) == 1 ==> Completed(Run(vm, events).ann)
    decreases |events|
  {
    hide Next, Starts, Records, RecordKept, Completed;
    if events != [] {
      var next := Next(vm, events[0]);
      CompletedIsQuiet(vm, events[0]);
      NextKeepsRecord(vm, events[0]);
      RecordedAtMostOnce(next, events[1..]);
      if Records(vm, events[0]) {
        NeverRepeated(next, events[1..]);
        RunKeepsRecord(next, events[1..]);
      }
    }
  }

  /** The completed mark appears in no other way: a VM that starts without it carries it exactly when
      one success has been recorded. */
  lemma {:induction false} CompletedIffRecorded(vm: VM, events: seq<Event>)
    requires !Completed(vm.ann)
    ensures Completed(Run(vm, events).ann) <==> SuccessesRecorded(vm, events) == 1
    decreases |events|
  {
    UncompletedKeepsRecord(vm.ann);
    hide Next, Starts, Records, RecordKept, Completed;
    if events != [] {
      var next := Next(vm, events[0]);
      CompletedIsQuiet(vm, events[0]);
      NextKeepsRecord(vm, events[0]);
      if Records(vm, events[0]) {
        NeverRepeated(next, events[1..]);
        RunKeepsRecord(next, events[1..]);
      } else {
        CompletedIffRecorded(next, events[1..]);
      }
    }
  }

  lemma UncompletedKeepsRecord(ann: Annotations)
    requires !Completed(ann)
    ensures RecordKept(ann)
  {
  }
}
