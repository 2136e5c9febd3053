/** Runs: any interleaving of controller steps with atomic onboarding steps. */
module Protocol {
  import opened ReconcileStep
  import opened Onboarding

  datatype Event = Controller(env: Env) | Kvoctl(input: Input)

  function Next(vm: VM, event: Event): VM {
    match event
    case Controller(env) => VM(vm.labels, Reconcile(vm, env).ann)
    case Kvoctl(input) => Onboard(vm, input)
  }

  function Run(vm: VM, events: seq<Event>): VM
    decreases |events|
  {
    if events == [] then vm else Run(Next(vm, events[0]), events[1..])
  }

  lemma {:induction false} RunSplit(vm: VM, a: seq<Event>, b: seq<Event>)
    ensures Run(vm, a + b) == Run(Run(vm, a), b)
    decreases |a|
  {
    hide Next;
    if a == [] {
      assert a + b == b;
    } else {
      assert (a + b)[1..] == a[1..] + b;
      RunSplit(Next(vm, a[0]), a[1..], b);
    }
  }
}
