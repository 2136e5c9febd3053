/** The Alloy hash annotation is a sound cache: an install is skipped only for a configuration and
    token whose install script has succeeded earlier, however many patches failed in between. */
module AlloyCache {
  import opened Api
  import opened ReconcileStep
  import opened Onboarding
  import opened Protocol
  import opened StepFacts

  predicate NulFree(s: string) {
    '\0' !in s
  }

  predicate AllNulFree(values: seq<string>) {
    forall i :: 0 <= i < |values| ==> NulFree(values[i])
  }

  /** The part of two NUL-terminated texts before the first NUL is the same. */
  lemma FirstValue(a: string, b: string, restA: string, restB: string)
    requires NulFree(a) && NulFree(b)
    requires a + "\0" + restA == b + "\0" + restB
    ensures a == b && restA == restB
  {
    var whole := a + "\0" + restA;
    assert whole[|a|] == '\0' && whole[|b|] == '\0';
    assert forall i :: 0 <= i < |a| ==> whole[i] != '\0';
    assert forall i :: 0 <= i < |b| ==> whole[i] != '\0';
    assert a == whole[..|a|] && b == whole[..|b|];
    assert restA == whole[|a| + 1..] && restB == whole[|b| + 1..];
  }

  /** The NUL-terminated framing is injective on values without NUL, whatever their number. */
  lemma {:induction false} FrameInjective(a: seq<string>, b: seq<string>)
    requires AllNulFree(a) && AllNulFree(b)
    ensures Frame(a) == Frame(b) <==> a == b
  {
    if a != [] && b != [] && Frame(a) == Frame(b) {
      FirstValue(a[0], b[0], Frame(a[1..]), Frame(b[1..]));
      FrameInjective(a[1..], b[1..]);
      assert a == [a[0]] + a[1..] && b == [b[0]] + b[1..];
    }
  }

  predicate Clean(pair: Desired) {
    NulFree(pair.config) && NulFree(pair.token)
  }

  function FrameOf(pair: Desired): string {
    Frame([pair.config, pair.token])
  }

  lemma FrameShape(pair: Desired)
    ensures FrameOf(pair) == pair.config + "\0" + (pair.token + "\0")
  {
    assert Frame([pair.token]) == pair.token + "\0" + "";
    assert [pair.config, pair.token][1..] == [pair.token];
  }

  /** With a NUL inside a value, some other pair has the same framing. */
  lemma FrameAmbiguousWithNul(pair: Desired) returns (other: Desired)
    requires !Clean(pair)
    ensures other != pair && FrameOf(other) == FrameOf(pair)
  {
    hide FrameOf;
    if i :| 0 <= i < |pair.config| && pair.config[i] == '\0' {
      var left, right := pair.config[..i], pair.config[i + 1..];
      other := Desired(left, right + "\0" + pair.token);
      assert pair.config == left + "\0" + right;
      assert left + "\0" + (right + "\0" + pair.token + "\0") == left + "\0" + right + "\0" + (pair.token + "\0");
    } else {
      var i :| 0 <= i < |pair.token| && pair.token[i] == '\0';
      var left, right := pair.token[..i], pair.token[i + 1..];
      other := Desired(pair.config + "\0" + left, right);
      assert pair.token == left + "\0" + right;
      assert pair.config + "\0" + left + "\0" + (right + "\0") == pair.config + "\0" + (left + "\0" + right + "\0");
    }
    FrameShape(pair);
    FrameShape(other);
    assert |other.config| != |pair.config|;
  }

  /** A pair is determined by its framing exactly when neither value holds a NUL. */
  lemma DeterminedIffClean(pair: Desired)
    ensures Clean(pair) <==> forall other :: FrameOf(other) == FrameOf(pair) ==> other == pair
  {
    if Clean(pair) {
      forall other | FrameOf(other) == FrameOf(pair) ensures other == pair {
        SameFrameAsClean(pair, other);
      }
    } else {
      var other := FrameAmbiguousWithNul(pair);
      assert FrameOf(other) == FrameOf(pair);
    }
  }

  lemma SameFrameAsClean(pair: Desired, other: Desired)
    requires Clean(pair) && FrameOf(other) == FrameOf(pair)
    ensures other == pair
  {
    FrameShape(pair);
    FrameShape(other);
    var whole := FrameOf(pair);
    assert whole[|other.config|] == '\0' && |other.config| < |whole| - 1;
    assert forall i :: 0 <= i < |whole| - 1 && i != |pair.config| ==> whole[i] != '\0';
    assert other.config == whole[..|other.config|] && pair.config == whole[..|pair.config|];
    assert other.token == whole[|other.config| + 1..|whole| - 1] && pair.token == whole[|pair.config| + 1..|whole| - 1];
  }

  /** What is taken for granted of the hexadecimal SHA-256: it is injective and never empty. */
  ghost predicate Digest(hash: string -> string) {
    && (forall s, t :: hash(s) == hash(t) ==> s == t)
    && (forall s :: hash(s) != "")
  }

  /** An injective hash tells a clean pair from every other. */
  lemma HashTellsApart(p: Desired, q: Desired, hash: string -> string)
    requires Digest(hash) && Clean(q)
    ensures hash(FrameOf(p)) == hash(FrameOf(q)) <==> p == q
  {
    hide FrameOf;
    if hash(FrameOf(p)) == hash(FrameOf(q)) { SameFrameAsClean(q, p); }
  }

  function AlloyOf(vm: VM, event: Event): Alloy {
    match event
    case Controller(env) => Reconcile(vm, env).alloy
    case Kvoctl(_) => Untouched
  }

  /** The pairs whose install script has succeeded in a run. */
  function Installed(vm: VM, events: seq<Event>): set<Desired>
    decreases |events|
  {
    if events == [] then {}
    else (if AlloyOf(vm, events[0]).Ran? then {AlloyOf(vm, events[0]).pair} else {})
         + Installed(Next(vm, events[0]), events[1..])
  }

  /** All steps use one hash function. */
  ghost predicate Uniform(events: seq<Event>, hash: string -> string) {
    forall i :: 0 <= i < |events| && events[i].Controller? ==> events[i].env.hash == hash
  }

  /** The hash annotation, if present, is that of one of the given pairs. */
  predicate Backed(ann: Annotations, pairs: set<Desired>, hash: string -> string) {
    AnnAlloyConfigHash in ann ==> exists p :: p in pairs && ann[AnnAlloyConfigHash] == HashValue(p, hash)
  }

  function HashValue(p: Desired, hash: string -> string): Value {
    Text(hash(FrameOf(p)))
  }

  lemma StepKeepsBacked(vm: VM, env: Env, pairs: set<Desired>, hash: string -> string)
    requires Backed(vm.ann, pairs, hash) && env.hash == hash
    ensures var step := Reconcile(vm, env);
            Backed(step.ann, pairs + (if step.alloy.Ran? then {step.alloy.pair} else {}), hash)
  {
    ReconcileFacts(vm, env);
    hide Reconcile, SameForeign, RecordFacts, Frame;
    var step := Reconcile(vm, env);
    var more := pairs + (if step.alloy.Ran? then {step.alloy.pair} else {});
    if AnnAlloyConfigHash in step.ann {
      if step.alloy.Ran? && step.ann[AnnAlloyConfigHash] == HashOf(step.alloy.pair, env) {
        assert step.alloy.pair in more && HashValue(step.alloy.pair, hash) == HashOf(step.alloy.pair, env);
      } else {
        var p :| p in pairs && vm.ann[AnnAlloyConfigHash] == HashValue(p, hash);
        assert p in more;
      }
    }
  }

  lemma NextKeepsBacked(vm: VM, event: Event, pairs: set<Desired>, hash: string -> string)
    requires Backed(vm.ann, pairs, hash) && (event.Controller? ==> event.env.hash == hash)
    ensures Backed(Next(vm, event).ann, pairs + (if AlloyOf(vm, event).Ran? then {AlloyOf(vm, event).pair} else {}), hash)
  {
    match event {
      case Controller(env) =>
        hide Reconcile, Backed;
        StepKeepsBacked(vm, env, pairs, hash);
      case Kvoctl(input) =>
        hide ChooseOS, Succeeds, HashValue;
        assert pairs + {} == pairs;
        assert Get(Next(vm, event).ann, AnnAlloyConfigHash) == Get(vm.ann, AnnAlloyConfigHash);
    }
  }

  lemma {:induction false} RunKeepsBacked(vm: VM, events: seq<Event>, pairs: set<Desired>, hash: string -> string)
    requires Backed(vm.ann, pairs, hash) && Uniform(events, hash)
    ensures Backed(Run(vm, events).ann, pairs + Installed(vm, events), hash)
    decreases |events|
  {
    hide Next, AlloyOf, Backed;
    if events == [] {
      assert pairs + {} == pairs;
    } else {
      var first := if AlloyOf(vm, events[0]).Ran? then {AlloyOf(vm, events[0]).pair} else {};
      NextKeepsBacked(vm, events[0], pairs, hash);
      RunKeepsBacked(Next(vm, events[0]), events[1..], pairs + first, hash);
      assert pairs + first + Installed(Next(vm, events[0]), events[1..]) == pairs + Installed(vm, events);
    }
  }

  /** In every run that starts without a hash, a step that sees a configuration and a token without
      NUL skips an install only if the script for exactly this pair has succeeded earlier in the run,
      whatever the earlier steps saw. */
  lemma ReusedWasInstalled(vm: VM, events: seq<Event>, env: Env, hash: string -> string)
    requires AnnAlloyConfigHash !in vm.ann
    requires Uniform(events, hash) && env.hash == hash && Digest(hash)
    requires (env.config.Some? ==> NulFree(env.config.value)) && (env.token.Some? ==> NulFree(env.token.value))
    ensures var step := Reconcile(Run(vm, events), env);
            step.alloy.Reused? ==> step.alloy.pair in Installed(vm, events)
  {
    var now := Run(vm, events);
    RunKeepsBacked(vm, events, {}, hash);
    ReconcileFacts(now, env);
    hide Reconcile, Run, Installed, Frame, SameForeign, RecordFacts;
    var step := Reconcile(now, env);
    if step.alloy.Reused? {
      var pairs := {} + Installed(vm, events);
      assert Get(now.ann, AnnAlloyConfigHash) == HashOf(step.alloy.pair, env);
      assert AnnAlloyConfigHash in now.ann;
      var p :| p in pairs && now.ann[AnnAlloyConfigHash] == HashValue(p, hash);
      HashTellsApart(p, step.alloy.pair, hash);
    }
  }
}
