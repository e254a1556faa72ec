/**
 Starting the processes of a pool: failed spawns are retried after a growing delay until the circuit
 breaker opens.  Steps are the critical sections of the spawning goroutines, in any interleaving;
 delays are in milliseconds.
 */
module Spawning {
  import opened Common

  const BASE_DELAY: nat := 100
  const MAX_DELAY: nat := 5000

  /** How one call of SpawnProcess and the handshake after it end. */
  datatype Outcome = SpawnError | HandshakeExit | HandshakeTimeout | Handshook | SimpleReady

  /**
   `pending` counts the goroutines that are running or waiting out a delay; `delays` records the
   delays scheduled so far.
   */
  datatype State = State(attempts: nat, backoff: nat, pending: nat, delays: seq<nat>)

  datatype Step =
    | Try(outcome: Outcome)
    | Requeue          // no spawning slot within 100 ms: the goroutine starts over
    | Launch           // a caller starts one more goroutine
    | SettleBackoff    // the second reset after a successful handshake
    | ResetAttempts

  /** The circuit breaker is open: IsUnavailable. */
  predicate Tripped(attempts: nat, max: nat) {
    max > 0 && attempts >= max
  }

  function Doubled(backoff: nat): nat {
    Min(backoff * 2, MAX_DELAY)
  }

  function Tried(s: State, max: nat, outcome: Outcome): State
    requires s.pending > 0
  {
    var failed := s.attempts + 1;
    match outcome
    case SpawnError =>
      if Tripped(failed, max) then State(failed, Doubled(s.backoff), s.pending - 1, s.delays)
      else State(failed, Doubled(s.backoff), s.pending, s.delays + [s.backoff])
    case HandshakeTimeout =>
      if Tripped(failed, max) then State(failed, s.backoff, s.pending - 1, s.delays)
      else State(failed, Doubled(s.backoff), s.pending, s.delays + [s.backoff])
    case HandshakeExit => s.(backoff := BASE_DELAY, pending := s.pending - 1)
    case SimpleReady => s.(backoff := BASE_DELAY, pending := s.pending - 1)
    case Handshook => s.(attempts := 0, backoff := BASE_DELAY, pending := s.pending - 1)
  }

  predicate Enabled(s: State, step: Step) {
    (step.Try? || step.Requeue?) ==> s.pending > 0
  }

  function Next(s: State, max: nat, step: Step): State
    requires Enabled(s, step)
  {
    match step
    case Try(outcome) => Tried(s, max, outcome)
    case Requeue => s
    case Launch => s.(pending := s.pending + 1)
    case SettleBackoff => s.(backoff := BASE_DELAY)
    case ResetAttempts => s.(attempts := 0, pending := if s.attempts >= max then s.pending + 1 else s.pending)
  }

  class Spawner {
    const maxSpawnAttempts: nat
    var spawnAttempts: nat
    var backoffDelay: nat
    var goroutines: nat
    ghost var delays: seq<nat>

    ghost function Value(): State
      reads this
    {
      State(spawnAttempts, backoffDelay, goroutines, delays)
    }

    constructor (maxSpawnAttempts: nat, minPoolSize: nat)
      ensures Value() == State(0, BASE_DELAY, minPoolSize, [])
      ensures this.maxSpawnAttempts == maxSpawnAttempts
    {
      this.maxSpawnAttempts := maxSpawnAttempts;
      spawnAttempts, backoffDelay, goroutines, delays := 0, BASE_DELAY, minPoolSize, [];
    }

    /** The body of one goroutine that got a spawning slot, up to its end or its rescheduling. */
    method SpawnAndHandshake(outcome: Outcome)
      requires goroutines > 0
      modifies this
      ensures Value() == Tried(old(Value()), maxSpawnAttempts, outcome)
    {
      match outcome {
        case SpawnError =>
          spawnAttempts := spawnAttempts + 1;
          var delay := backoffDelay;
          backoffDelay := Doubled(backoffDelay);
          if maxSpawnAttempts > 0 && spawnAttempts >= maxSpawnAttempts {
            goroutines := goroutines - 1;
            return;
          }
          delays := delays + [delay];
        case HandshakeExit =>
          backoffDelay := BASE_DELAY;
          goroutines := goroutines - 1;
        case HandshakeTimeout =>
          spawnAttempts := spawnAttempts + 1;
          if maxSpawnAttempts > 0 && spawnAttempts >= maxSpawnAttempts {
            goroutines := goroutines - 1;
            return;
          }
          delays := delays + [backoffDelay];
          backoffDelay := Doubled(backoffDelay);
        case SimpleReady =>
          backoffDelay := BASE_DELAY;
          goroutines := goroutines - 1;
        case Handshook =>
          spawnAttempts := 0;
          backoffDelay := BASE_DELAY;
          goroutines := goroutines - 1;
      }
    }

    method ResetSpawnAttempts()
      modifies this
      ensures Value() == Next(old(Value()), maxSpawnAttempts, ResetAttempts)
    {
      var reset := spawnAttempts >= maxSpawnAttempts;
      spawnAttempts := 0;
      if reset {
        goroutines := goroutines + 1;
      }
    }
  }

  /** A reset forgets the attempts, and starts one more goroutine exactly when they had reached the limit. */
  lemma ResetRelaunchesAtTheLimit(s: State, max: nat)
    ensures var t := Next(s, max, ResetAttempts);
            && t.attempts == 0 && t.backoff == s.backoff && t.delays == s.delays
            && (t.pending == s.pending + 1 <==> s.attempts >= max) && (t.pending == s.pending <==> s.attempts < max)
  {}

  /** Which outcomes count as failures, which end the goroutine, and which restore the delay. */
  lemma OutcomesByName(s: State, max: nat, outcome: Outcome)
    requires s.pending > 0
    ensures var t := Tried(s, max, outcome);
            var failed := outcome == SpawnError || outcome == HandshakeTimeout;
            var stopped := max > 0 && s.attempts + 1 >= max;
            && t.attempts == (if failed then s.attempts + 1 else if outcome == Handshook then 0 else s.attempts)
            && t.pending == (if failed && !stopped then s.pending else s.pending - 1)
            && t.delays == (if failed && !stopped then s.delays + [s.backoff] else s.delays)
            && (!failed ==> t.backoff == 100)
            && (failed && !stopped ==> t.backoff == Min(2 * s.backoff, 5000))
  {}

  // ---------- Runs ----------

  predicate Possible(s: State, max: nat, steps: seq<Step>)
    decreases |steps|
  {
    steps != [] ==> Enabled(s, steps[0]) && Possible(Next(s, max, steps[0]), max, steps[1..])
  }

  function Run(s: State, max: nat, steps: seq<Step>): State
    requires Possible(s, max, steps)
    decreases |steps|
  {
    if steps == [] then s else Run(Next(s, max, steps[0]), max, steps[1..])
  }

  function Tries(steps: seq<Step>): nat {
    if steps == [] then 0 else (if steps[0].Try? then 1 else 0) + Tries(steps[1..])
  }

  function Launches(steps: seq<Step>): nat {
    if steps == [] then 0 else (if steps[0].Launch? then 1 else 0) + Launches(steps[1..])
  }

  function Resets(steps: seq<Step>): nat {
    if steps == [] then 0 else (if steps[0].ResetAttempts? then 1 else 0) + Resets(steps[1..])
  }

  function Successes(steps: seq<Step>): nat {
    if steps == [] then 0 else (if steps[0] == Try(Handshook) then 1 else 0) + Successes(steps[1..])
  }

  /** The spawn attempts still possible: one per goroutine, and the retries left before the trip. */
  function Budget(s: State, max: nat): nat {
    s.pending + if s.attempts < max then max - 1 - s.attempts else 0
  }

  lemma StepSpendsBudget(s: State, max: nat, step: Step)
    requires max > 0 && Enabled(s, step)
    ensures var one := [step];
            Tries(one) + Budget(Next(s, max, step), max)
              <= Budget(s, max) + Launches(one) + max * Resets(one) + (max - 1) * Successes(one)
    ensures !step.ResetAttempts? && step != Try(Handshook) ==>
              Tries([step]) + Budget(Next(s, max, step), max) == Budget(s, max) + Launches([step])
  {
    assert [step][1..] == [];
    assert max * 0 == 0 && max * 1 == max && (max - 1) * 0 == 0 && (max - 1) * 1 == max - 1;
  }

  /**
   Spawn attempts of any run: bounded by the budget, the launches, and what each reset and each
   successful handshake gives back.
   */
  lemma {:induction false} AttemptsAreBounded(s: State, max: nat, steps: seq<Step>)
    requires max > 0 && Possible(s, max, steps)
    ensures Tries(steps) + Budget(Run(s, max, steps), max)
              <= Budget(s, max) + Launches(steps) + max * Resets(steps) + (max - 1) * Successes(steps)
    decreases |steps|
  {
    if steps != [] {
      var rest := steps[1..];
      StepSpendsBudget(s, max, steps[0]);
      AttemptsAreBounded(Next(s, max, steps[0]), max, rest);
      assert [steps[0]][1..] == [];
      Distribute(max, Resets([steps[0]]), Resets(rest));
      Distribute(max - 1, Successes([steps[0]]), Successes(rest));
    }
  }

  lemma Distribute(a: int, b: int, c: int)
    ensures a * (b + c) == a * b + a * c
  {}

  /** Neither a success nor a reset of the counter. */
  predicate OnlyFailures(steps: seq<Step>) {
    forall step | step in steps :: !step.ResetAttempts? && step != Try(Handshook)
  }

  /** Without success or reset the count is exact, so a fresh pool makes at most n + max - 1 attempts. */
  lemma {:induction false} FailuresAreCounted(s: State, max: nat, steps: seq<Step>)
    requires max > 0 && Possible(s, max, steps) && OnlyFailures(steps)
    ensures Tries(steps) + Budget(Run(s, max, steps), max) == Budget(s, max) + Launches(steps)
    decreases |steps|
  {
    if steps != [] {
      assert steps[0] in steps;
      StepSpendsBudget(s, max, steps[0]);
      assert [steps[0]][1..] == [];
      assert OnlyFailures(steps[1..]) by {
        assert forall step | step in steps[1..] :: step in steps;
      }
      FailuresAreCounted(Next(s, max, steps[0]), max, steps[1..]);
    }
  }

  lemma FreshPoolGivesUp(n: nat, max: nat, steps: seq<Step>)
    requires var s := State(0, BASE_DELAY, n, []); max > 0 && Possible(s, max, steps)
    requires OnlyFailures(steps) && Launches(steps) == 0
    ensures Tries(steps) <= n + max - 1
  {
    FailuresAreCounted(State(0, BASE_DELAY, n, []), max, steps);
  }

  predicate Counted(step: Step) {
    step == Try(SpawnError) || step == Try(HandshakeTimeout) || step.Requeue?
  }

  /** If every attempt is a counted failure and no goroutine is left, the breaker is open: exactly n + max - 1 attempts. */
  lemma QuiescentPoolIsUnavailable(n: nat, max: nat, steps: seq<Step>)
    requires var s := State(0, BASE_DELAY, n, []); n > 0 && max > 0 && Possible(s, max, steps) && Run(s, max, steps).pending == 0
    requires forall step | step in steps :: Counted(step)
    ensures Tries(steps) == n + max - 1
    ensures Tripped(Run(State(0, BASE_DELAY, n, []), max, steps).attempts, max)
  {
    var s := State(0, BASE_DELAY, n, []);
    NoLaunches(steps);
    FailuresAreCounted(s, max, steps);
    GoroutinesEndTripped(s, max, steps);
  }

  lemma {:induction false} NoLaunches(steps: seq<Step>)
    requires forall step | step in steps :: Counted(step)
    ensures Launches(steps) == 0
  {
    if steps != [] {
      assert steps[0] in steps;
      NoLaunches(steps[1..]);
    }
  }

  lemma {:induction false} GoroutinesEndTripped(s: State, max: nat, steps: seq<Step>)
    requires max > 0 && Possible(s, max, steps) && forall step | step in steps :: Counted(step)
    ensures Tripped(Run(s, max, steps).attempts, max) || Run(s, max, steps).pending == s.pending
    ensures Run(s, max, steps).attempts >= s.attempts
    decreases |steps|
  {
    if steps != [] {
      assert steps[0] in steps;
      GoroutinesEndTripped(Next(s, max, steps[0]), max, steps[1..]);
    }
  }

  /** Spawn attempts are bounded exactly when the limit is positive: with limit 0 any number can occur. */
  lemma {:induction false} UnlimitedRetries(s: State, k: nat) returns (steps: seq<Step>)
    requires s.pending > 0
    ensures Possible(s, 0, steps) && OnlyFailures(steps) && Launches(steps) == 0 && Tries(steps) == k
    decreases k
  {
    if k == 0 {
      steps := [];
    } else {
      var rest := UnlimitedRetries(Next(s, 0, Try(SpawnError)), k - 1);
      steps := [Try(SpawnError)] + rest;
      assert steps[1..] == rest;
    }
  }

  // ---------- Delays ----------

  function Pow2(k: nat): nat {
    if k == 0 then 1 else 2 * Pow2(k - 1)
  }

  /** The delay after `k` doublings. */
  function DelayAt(k: nat): nat {
    Min(BASE_DELAY * Pow2(k), MAX_DELAY)
  }

  lemma DelayDoubles(k: nat)
    ensures Doubled(DelayAt(k)) == DelayAt(k + 1)
  {}

  predicate InRange(d: nat) {
    BASE_DELAY <= d <= MAX_DELAY
  }

  /** In every run each delay lies between 100 ms and 5 s. */
  lemma {:induction false} DelaysStayInRange(s: State, max: nat, steps: seq<Step>)
    requires Possible(s, max, steps) && InRange(s.backoff) && forall d | d in s.delays :: InRange(d)
    ensures InRange(Run(s, max, steps).backoff) && forall d | d in Run(s, max, steps).delays :: InRange(d)
    decreases |steps|
  {
    if steps != [] {
      DelaysStayInRange(Next(s, max, steps[0]), max, steps[1..]);
    }
  }

  /** The delays so far are the doublings in order; an untripped pool is ready for the next one. */
  predicate OnSchedule(s: State, max: nat) {
    && (forall k | 0 <= k < |s.delays| :: s.delays[k] == DelayAt(k))
    && (!Tripped(s.attempts, max) ==> s.backoff == DelayAt(|s.delays|))
  }

  /** No success, no immediate exit, no reset of either kind. */
  predicate NoReset(step: Step) {
    step == Try(SpawnError) || step == Try(HandshakeTimeout) || step.Requeue? || step.Launch?
  }

  /** Over a stretch without resets the k-th delay is min(100 ms * 2^(k-1), 5 s). */
  lemma {:induction false} DelaysDouble(s: State, max: nat, steps: seq<Step>)
    requires Possible(s, max, steps) && OnSchedule(s, max) && forall step | step in steps :: NoReset(step)
    ensures OnSchedule(Run(s, max, steps), max)
    decreases |steps|
  {
    if steps != [] {
      assert steps[0] in steps;
      DelayDoubles(|s.delays|);
      DelaysDouble(Next(s, max, steps[0]), max, steps[1..]);
    }
  }
}
