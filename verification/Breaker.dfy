/** The timed circuit breaker in front of the Tinfoil provider. */
module Breaker {
  import opened Common

  const TINFOIL_FAILURE_THRESHOLD: u32 := 2

  const TINFOIL_CIRCUIT_COOLDOWN: nat := 90

  datatype Config = Config(threshold: u32, cooldown: nat)

  const DEFAULT_CONFIG := Config(TINFOIL_FAILURE_THRESHOLD, TINFOIL_CIRCUIT_COOLDOWN)

  datatype State = State(failures: nat, openUntil: Option<nat>)

  const CLOSED := State(0, None)

  /** What can happen to the breaker, with the clock reading it happens at. */
  datatype Event = Queried(at: nat) | Succeeded | FailedAt(at: nat)

  predicate IsOpen(s: State, now: nat) {
    s.openUntil.Some? && now < s.openUntil.value
  }

  function Step(cfg: Config, s: State, e: Event): State {
    match e
    case Queried(now) => if s.openUntil.Some? && s.openUntil.value <= now then CLOSED else s
    case Succeeded => CLOSED
    case FailedAt(now) =>
      var failures := if s.failures + 1 < U32_LIMIT then s.failures + 1 else U32_LIMIT - 1;
      State(failures, if failures >= cfg.threshold then Some(now + cfg.cooldown) else s.openUntil)
  }

  function After(cfg: Config, trace: seq<Event>): State {
    if trace == [] then CLOSED else Step(cfg, After(cfg, trace[..|trace| - 1]), trace[|trace| - 1])
  }

  /** The locked breaker state, with the history that produced it. */
  class CircuitBreaker {
    const config: Config
    var failures: nat
    var openUntil: Option<nat>
    ghost var history: seq<Event>

    ghost predicate Valid()
      reads this
    {
      State(failures, openUntil) == After(config, history)
    }

    constructor (config: Config)
      ensures Valid() && history == [] && this.config == config
    {
      this.config := config;
      failures := 0;
      openUntil := None;
      history := [];
    }

    /** is_tinfoil_circuit_open. */
    method IsTinfoilCircuitOpen(now: nat) returns (open: bool)
      requires Valid()
      modifies this
      ensures Valid() && history == old(history) + [Queried(now)]
      ensures open == IsOpen(After(config, old(history)), now)
    {
      assert (history + [Queried(now)])[..|history|] == history;
      match openUntil {
        case Some(until) =>
          if now < until {
            open := true;
          } else {
            openUntil := None;
            failures := 0;
            open := false;
          }
        case None =>
          open := false;
      }
      history := history + [Queried(now)];
    }

    /** record_provider_success, for Tinfoil. */
    method RecordSuccess()
      requires Valid()
      modifies this
      ensures Valid() && history == old(history) + [Succeeded]
    {
      assert (history + [Succeeded])[..|history|] == history;
      failures := 0;
      openUntil := None;
      history := history + [Succeeded];
    }

    /** record_provider_failure, for Tinfoil. */
    method RecordFailure(now: nat)
      requires Valid()
      modifies this
      ensures Valid() && history == old(history) + [FailedAt(now)]
    {
      assert (history + [FailedAt(now)])[..|history|] == history;
      failures := if failures + 1 < U32_LIMIT then failures + 1 else U32_LIMIT - 1;
      if failures >= config.threshold {
        openUntil := Some(now + config.cooldown);
      }
      history := history + [FailedAt(now)];
    }

    /** Whatever other requests do to the shared breaker in between. */
    method Replay(events: seq<Event>)
      requires Valid()
      modifies this
      ensures Valid() && history == old(history) + events
    {
      for i := 0 to |events|
        invariant Valid() && history == old(history) + events[..i]
      {
        match events[i] {
          case Queried(now) => var _ := IsTinfoilCircuitOpen(now);
          case Succeeded => RecordSuccess();
          case FailedAt(now) => RecordFailure(now);
        }
        assert events[..i + 1] == events[..i] + [events[i]];
      }
      assert events[..|events|] == events;
    }
  }

  // ---- What a history means, without the state ----

  /** The failure times since the last reset; a reset is a success, or a query after the cooldown. */
  function Run(cfg: Config, trace: seq<Event>): seq<nat> {
    if trace == [] then []
    else
      var run := Run(cfg, trace[..|trace| - 1]);
      match trace[|trace| - 1]
      case Succeeded => []
      case FailedAt(at) => run + [at]
      case Queried(now) =>
        if run != [] && |run| >= cfg.threshold && run[|run| - 1] + cfg.cooldown <= now then [] else run
  }

  function FailureTimes(trace: seq<Event>): seq<nat> {
    if trace == [] then []
    else
      FailureTimes(trace[..|trace| - 1]) +
      if trace[|trace| - 1].FailedAt? then [trace[|trace| - 1].at] else []
  }

  /** A run is the list of all failures in a success-free suffix of the history. */
  lemma {:induction false} RunIsSuffix(cfg: Config, trace: seq<Event>) returns (k: nat)
    ensures k <= |trace|
    ensures Run(cfg, trace) == FailureTimes(trace[k..])
    ensures Succeeded !in trace[k..]
  {
    if trace == [] {
      k := 0;
    } else {
      var n := |trace| - 1;
      k := RunIsSuffix(cfg, trace[..n]);
      if Run(cfg, trace) == [] {
        k := |trace|;
        assert trace[k..] == [];
      } else {
        var suffix := trace[k..];
        assert suffix[..|suffix| - 1] == trace[..n][k..];
        assert suffix == suffix[..|suffix| - 1] + [trace[n]];
      }
    }
  }

  /** The state the breaker should be in, given its run. */
  predicate Consistent(cfg: Config, s: State, run: seq<nat>) {
    && s.failures == (if |run| < U32_LIMIT then |run| else U32_LIMIT - 1)
    && s.openUntil == (if |run| >= cfg.threshold && run != [] then Some(run[|run| - 1] + cfg.cooldown) else None)
  }

  /** In every reachable state the deadline is set exactly from the threshold on, to last failure plus cooldown. */
  lemma {:induction false} BreakerInvariant(cfg: Config, trace: seq<Event>)
    ensures Consistent(cfg, After(cfg, trace), Run(cfg, trace))
  {
    if trace != [] {
      BreakerInvariant(cfg, trace[..|trace| - 1]);
    }
  }

  /**
   * "The deadline is set exactly when the failure counter has reached the threshold" holds in
   * every reachable state if and only if the threshold is not zero.
   */
  lemma DeadlineExactlyAtThreshold(cfg: Config)
    ensures (forall trace :: After(cfg, trace).openUntil.Some? <==> After(cfg, trace).failures >= cfg.threshold)
            <==> cfg.threshold > 0
  {
    if cfg.threshold > 0 {
      forall trace ensures After(cfg, trace).openUntil.Some? <==> After(cfg, trace).failures >= cfg.threshold {
        BreakerInvariant(cfg, trace);
      }
    } else {
      assert After(cfg, []) == CLOSED;
    }
  }

  /** The last failure of a threshold-long run lies less than one cooldown back. */
  predicate RecentRun(cfg: Config, trace: seq<Event>, now: nat) {
    var run := Run(cfg, trace);
    run != [] && |run| >= cfg.threshold && now < run[|run| - 1] + cfg.cooldown
  }

  /** The circuit is open exactly within one cooldown of the last failure of a threshold-long run. */
  lemma OpenMeansRecentRun(cfg: Config, trace: seq<Event>, now: nat)
    ensures IsOpen(After(cfg, trace), now) <==> RecentRun(cfg, trace, now)
  {
    BreakerInvariant(cfg, trace);
  }
}
