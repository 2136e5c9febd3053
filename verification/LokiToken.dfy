/** The Loki writer token Secret (pkg/vmmonitoring/loki.go) over time: when a token is reused, when
    a new one is requested, and that a reused one is still valid. */
module LokiToken {
  import opened Wrappers

  /** Instants in nanoseconds. */
  type Instant = int

  const SECOND := 1_000_000_000
  const LIFETIME := 365 * 24 * 60 * 60 * SECOND

  const MANAGER := "kvoctl"

  /** The second an instant falls in. */
  function FloorSecond(t: Instant): Instant {
    t - t % SECOND
  }

  /** Writing and reading RFC 3339 times. */
  datatype Times = Times(format: Instant -> string, parse: string -> Option<Instant>)

  /** What is taken for granted of them: the written text has whole seconds, reads back and is not empty. */
  ghost predicate WholeSeconds(times: Times) {
    forall t :: times.parse(times.format(t)) == Some(FloorSecond(t)) && times.format(t) != ""
  }

  /** The Secret; an absent label or annotation reads as the empty text. */
  datatype Secret = Secret(token: string, managedBy: string, expiration: string, serviceAccount: string)

  datatype Reply = Fine | AlreadyExists | Failing

  /** One call: the time it looks at the clock, whether reading the Secret fails, what the token
      request returns, and how storing goes. */
  datatype Env = Env(
    now: Instant, getFails: bool,
    token: Option<string>, expiry: Option<Instant>,
    update: Reply, create: Reply,
    serviceAccount: string, times: Times)

  datatype Outcome = Error | Reused | Issued | Dropped

  predicate CanReuse(s: Secret, env: Env) {
    && s.expiration != ""
    && env.times.parse(s.expiration).Some?
    && env.now < env.times.parse(s.expiration).value
  }

  /** The token request returned a token with an expiration. */
  predicate Granted(env: Env) {
    env.token.Some? && env.token.value != "" && env.expiry.Some?
  }

  function NewSecret(env: Env): Secret
    requires Granted(env)
  {
    Secret(env.token.value, MANAGER, env.times.format(env.expiry.value), env.serviceAccount)
  }

  function Refreshed(s: Secret, env: Env): Secret {
    s.(managedBy := MANAGER, serviceAccount := env.serviceAccount)
  }

  datatype Step = Step(stored: Option<Secret>, outcome: Outcome)

  /** `ensureLokiWriterTokenSecret`. */
  function Ensure(stored: Option<Secret>, env: Env): Step {
    if env.getFails then Step(stored, Error)
    else if stored.Some? && stored.value.token == "" then Step(stored, Error)
    else if stored.Some? && CanReuse(stored.value, env) then
      var s := Refreshed(stored.value, env);
      if s == stored.value then Step(stored, Reused)
      else if env.update == Fine then Step(Some(s), Reused)
      else Step(stored, Error)
    else if !Granted(env) then Step(stored, Error)
    else if stored.Some? then
      if env.update == Fine then Step(Some(NewSecret(env)), Issued) else Step(stored, Error)
    else
      match env.create
      case Fine => Step(Some(NewSecret(env)), Issued)
      case AlreadyExists => Step(stored, Dropped)
      case Failing => Step(stored, Error)
  }

  class SecretStore {
    /** The Secret in the API server. */
    var stored: Option<Secret>

    constructor (stored: Option<Secret>)
      ensures this.stored == stored
    {
      this.stored := stored;
    }

    method EnsureLokiWriterTokenSecret(env: Env) returns (outcome: Outcome)
      modifies this
      ensures Step(stored, outcome) == Ensure(old(stored), env)
    {
      if env.getFails {
        return Error;
      }
      if stored.Some? {
        var existing := stored.value;
        if existing.token == "" {
          return Error;
        }
        if existing.expiration != "" {
          var expiration := env.times.parse(existing.expiration);
          if expiration.Some? && env.now < expiration.value {
            var metadataChanged := false;
            if existing.managedBy != MANAGER {
              existing := existing.(managedBy := MANAGER);
              metadataChanged := true;
            }
            if existing.serviceAccount != env.serviceAccount {
              existing := existing.(serviceAccount := env.serviceAccount);
              metadataChanged := true;
            }
            if metadataChanged {
              if env.update != Fine {
                return Error;
              }
              stored := Some(existing);
            }
            return Reused;
          }
        }
      }
      if env.token.None? || env.token.value == "" || env.expiry.None? {
        return Error;
      }
      var tokenExpiration := env.times.format(env.expiry.value);
      if stored.Some? {
        var existing := stored.value;
        existing := existing.(token := env.token.value);
        existing := existing.(managedBy := MANAGER);
        existing := existing.(expiration := tokenExpiration);
        existing := existing.(serviceAccount := env.serviceAccount);
        if env.update != Fine {
          return Error;
        }
        stored := Some(existing);
        return Issued;
      }
      if env.create == Failing {
        return Error;
      }
      if env.create == AlreadyExists {
        return Dropped;
      }
      stored := Some(Secret(env.token.value, MANAGER, tokenExpiration, env.serviceAccount));
      return Issued;
    }
  }

  // ---------------------------------------------------------------- one call

  /** The stored expiration has been reached, or there is nothing to go by. */
  predicate Stale(stored: Option<Secret>, env: Env) {
    stored.None? || stored.value.expiration == "" || env.times.parse(stored.value.expiration).None?
    || env.times.parse(stored.value.expiration).value <= env.now
  }

  /** A new token is stored exactly when the Secret is absent, its expiration is missing or
      unreadable, or that time has come, and reading, requesting and storing succeed; a reused one
      keeps its bytes and its expiration; either way the Secret names its manager and account. */
  lemma IssuedIff(stored: Option<Secret>, env: Env)
    ensures var step := Ensure(stored, env);
            && (step.outcome == Issued <==>
                  && Stale(stored, env) && !env.getFails && env.token.Some? && env.token.value != "" && env.expiry.Some?
                  && (stored.Some? ==> stored.value.token != "" && env.update == Fine)
                  && (stored.None? ==> env.create == Fine))
            && (step.outcome == Issued ==>
                  step.stored.Some? && Some(step.stored.value.token) == env.token
                  && step.stored.value.expiration == env.times.format(env.expiry.value))
            && (step.outcome in {Issued, Reused} ==>
                  step.stored.value.managedBy == MANAGER && step.stored.value.serviceAccount == env.serviceAccount)
            && (step.outcome == Reused ==>
                  && stored.Some? && step.stored.Some? && !Stale(stored, env)
                  && step.stored.value.token == stored.value.token
                  && step.stored.value.expiration == stored.value.expiration)
            && (step.outcome == Error || step.outcome == Dropped ==> step.stored == stored)
  {
  }

  /** Exactly when the stored token is reused: the Secret can be read, holds a token and a readable
      expiration still ahead, and names manager and account already or can be updated to. */
  lemma ReusedIff(stored: Option<Secret>, env: Env)
    ensures Ensure(stored, env).outcome == Reused
            <==> && !env.getFails && stored.Some? && stored.value.token != "" && stored.value.expiration != ""
                 && env.times.parse(stored.value.expiration).Some?
                 && env.now < env.times.parse(stored.value.expiration).value
                 && ((stored.value.managedBy == "kvoctl" && stored.value.serviceAccount == env.serviceAccount)
                     || env.update == Fine)
  {
  }

  /** A granted token is dropped exactly when someone else has created the Secret in between; so a call
      fails exactly when it neither reuses, nor stores, nor drops one. */
  lemma DroppedIff(stored: Option<Secret>, env: Env)
    ensures Ensure(stored, env).outcome == Dropped
            <==> !env.getFails && stored.None? && env.create == AlreadyExists
                 && env.token.Some? && env.token.value != "" && env.expiry.Some?
  {
  }

  // ---------------------------------------------------------------- runs

  function Run(stored: Option<Secret>, envs: seq<Env>): Option<Secret>
    decreases |envs|
  {
    if envs == [] then stored else Run(Ensure(stored, envs[0]).stored, envs[1..])
  }

  datatype Grant = Grant(token: string, expiry: Instant)

  /** The tokens stored in a run, with the instants at which they really expire. */
  function Grants(stored: Option<Secret>, envs: seq<Env>): seq<Grant>
    decreases |envs|
  {
    if envs == [] then []
    else
      var step := Ensure(stored, envs[0]);
      (if step.outcome == Issued then [Grant(envs[0].token.value, envs[0].expiry.value)] else [])
      + Grants(step.stored, envs[1..])
  }

  ghost predicate SameTimes(envs: seq<Env>, times: Times) {
    forall i :: 0 <= i < |envs| ==> envs[i].times == times
  }

  /** The stored token is the last one granted, under the second it expires in. */
  predicate Matches(stored: Option<Secret>, last: Option<Grant>, times: Times) {
    stored.Some? ==>
      last.Some? && stored.value.token == last.value.token
      && times.parse(stored.value.expiration) == Some(FloorSecond(last.value.expiry))
  }

  function Last(grants: seq<Grant>, before: Option<Grant>): Option<Grant> {
    if grants == [] then before else Some(grants[|grants| - 1])
  }

  lemma {:induction false} StoredIsLastGrant(stored: Option<Secret>, envs: seq<Env>, last: Option<Grant>, times: Times)
    requires WholeSeconds(times) && SameTimes(envs, times) && Matches(stored, last, times)
    ensures Matches(Run(stored, envs), Last(Grants(stored, envs), last), times)
    decreases |envs|
  {
    if envs != [] {
      var step := Ensure(stored, envs[0]);
      var now := if step.outcome == Issued then Some(Grant(envs[0].token.value, envs[0].expiry.value)) else last;
      assert envs[0].times == times;
      assert Matches(step.stored, now, times);
      StoredIsLastGrant(step.stored, envs[1..], now, times);
    }
  }

  /** In every run that starts without a Secret, a call that reuses a token reuses the last one
      granted, and that token has not expired at that moment. */
  lemma ReusedIsValid(envs: seq<Env>, env: Env, times: Times)
    requires WholeSeconds(times) && SameTimes(envs, times) && env.times == times
    ensures var stored, grants := Run(None, envs), Grants(None, envs);
            Ensure(stored, env).outcome == Reused ==>
              && grants != [] && stored.Some?
              && stored.value.token == grants[|grants| - 1].token
              && env.now < grants[|grants| - 1].expiry
  {
    StoredIsLastGrant(None, envs, None, times);
  }

  predicate TimesInOrder(envs: seq<Env>, from: Instant, to: Instant) {
    && (forall i :: 0 <= i < |envs| ==> from <= envs[i].now <= to)
    && (forall i, j :: 0 <= i < j < |envs| ==> envs[i].now <= envs[j].now)
  }

  /** The API grants what is asked for: tokens that live a year from the call. */
  predicate FullLifetime(envs: seq<Env>) {
    forall i :: 0 <= i < |envs| && envs[i].expiry.Some? ==> envs[i].expiry.value >= envs[i].now + LIFETIME
  }

  /** When the stored token becomes due, seen from the given time. */
  function DueFrom(stored: Option<Secret>, from: Instant, times: Times): Instant {
    if stored.Some? && stored.value.expiration != "" && times.parse(stored.value.expiration).Some?
       && times.parse(stored.value.expiration).value > from
    then times.parse(stored.value.expiration).value else from
  }

  /** A stored token was due, and the next one is not due for a lifetime less a second. */
  lemma IssueMovesDue(stored: Option<Secret>, env: Env, from: Instant, times: Times)
    requires WholeSeconds(times) && env.times == times && from <= env.now
    requires env.expiry.Some? ==> env.expiry.value >= env.now + LIFETIME
    ensures var step := Ensure(stored, env);
            if step.outcome == Issued
            then env.now >= DueFrom(stored, from, times) && DueFrom(step.stored, env.now, times) >= env.now + (LIFETIME - SECOND)
            else DueFrom(step.stored, env.now, times) >= DueFrom(stored, from, times)
  {
    IssuedIff(stored, env);
    if Ensure(stored, env).outcome == Issued {
      var e := env.expiry.value;
      assert times.parse(times.format(e)) == Some(FloorSecond(e));
      assert FloorSecond(e) > e - SECOND;
    }
  }

  lemma {:induction false} RotationsFrom(stored: Option<Secret>, envs: seq<Env>, from: Instant, to: Instant, times: Times)
    requires WholeSeconds(times) && SameTimes(envs, times) && FullLifetime(envs) && TimesInOrder(envs, from, to) && from <= to
    ensures var n := |Grants(stored, envs)|;
            n == 0 || n * (LIFETIME - SECOND) <= LIFETIME - SECOND + to - DueFrom(stored, from, times)
    decreases |envs|
  {
    if envs != [] {
      var step := Ensure(stored, envs[0]);
      assert envs[0].times == times && from <= envs[0].now <= to;
      IssueMovesDue(stored, envs[0], from, times);
      RotationsFrom(step.stored, envs[1..], envs[0].now, to, times);
      hide Ensure, DueFrom, WholeSeconds;
      var d, m := LIFETIME - SECOND, |Grants(step.stored, envs[1..])|;
      assert (1 + m) * d == d + m * d;
    }
  }

  /** Tokens are not rotated early: over calls at non-decreasing times, at most one token is stored
      per lifetime (less the second lost to truncation), plus the first. */
  lemma RotationsAreRare(envs: seq<Env>, from: Instant, to: Instant, times: Times)
    requires WholeSeconds(times) && SameTimes(envs, times) && FullLifetime(envs) && TimesInOrder(envs, from, to) && from <= to
    ensures |Grants(None, envs)| * (LIFETIME - SECOND) <= LIFETIME - SECOND + to - from
  {
    RotationsFrom(None, envs, from, to, times);
  }
}
