/**
  The three-state circuit breaker of one tool.

  The class is the breaker as the server runs it: every method body is one
  uninterrupted step, because the only suspension point of `call` is the awaited
  function itself. `Enter` is the part of `call` before that point and `Finish` the
  part after it. The functions above the class give the same steps on values;
  module BreakerRuns proves what every interleaving of them keeps.
*/
module CircuitBreaker {
  import opened Errors

  datatype Phase = Closed | Open | HalfOpen

  /** Seconds are real numbers; no sign is assumed of any setting. */
  datatype Config = Config(threshold: int, recovery: real, window: real)

  datatype Breaker = Breaker(phase: Phase, openedAt: real, failures: seq<real>, probe: bool, trips: nat)

  /** What `call` decides before awaiting the function. */
  datatype Admission = Rejected | AsNormal | AsProbe

  const NEW_BREAKER := Breaker(Closed, 0.0, [], false, 0)

  /** The failure window after popping every leading entry older than `cutoff`. */
  function DropStale(failures: seq<real>, cutoff: real): seq<real> {
    if failures == [] || failures[0] >= cutoff then failures else DropStale(failures[1..], cutoff)
  }

  /** The guard under which an open breaker half-opens. */
  predicate RecoveryElapsed(cfg: Config, b: Breaker, now: real) {
    b.phase.Open? && now - b.openedAt >= cfg.recovery
  }

  function CheckedTransitions(cfg: Config, b: Breaker, now: real): Breaker {
    var c := if RecoveryElapsed(cfg, b, now) then b.(phase := HalfOpen, probe := false) else b;
    c.(failures := DropStale(c.failures, now - cfg.window))
  }

  function Opened(b: Breaker, now: real): Breaker {
    b.(phase := Open, openedAt := now, failures := [], trips := b.trips + 1)
  }

  function AfterCountedFailure(cfg: Config, b: Breaker, now: real): Breaker {
    if b.phase.HalfOpen? || |b.failures| + 1 >= cfg.threshold
    then Opened(b, now)
    else b.(failures := b.failures + [now])
  }

  function AfterSuccess(b: Breaker): Breaker {
    if b.phase.HalfOpen? then b.(phase := Closed, failures := []) else b
  }

  function Entered(cfg: Config, b: Breaker, now: real): (Breaker, Admission) {
    var c := CheckedTransitions(cfg, b, now);
    match c.phase
    case Open => (c, Rejected)
    case HalfOpen => if c.probe then (c, Rejected) else (c.(probe := true), AsProbe)
    case Closed => (c, AsNormal)
  }

  function Finished<V>(cfg: Config, b: Breaker, probe: bool, outcome: Outcome<V>, now: real): Breaker {
    var c := if CountedFailure(outcome) then AfterCountedFailure(cfg, b, now)
             else if probe && outcome.Returned? then AfterSuccess(b)
             else b;
    if probe then c.(probe := false) else c
  }

  class CircuitBreaker {
    const cfg: Config
    var phase: Phase
    var openedAt: real
    var failures: seq<real>
    var halfOpenProbeInFlight: bool
    var trips: nat

    ghost function Snapshot(): Breaker
      reads this
    {
      Breaker(phase, openedAt, failures, halfOpenProbeInFlight, trips)
    }

    constructor (cfg: Config)
      ensures this.cfg == cfg && Snapshot() == NEW_BREAKER
    {
      this.cfg := cfg;
      phase, openedAt, failures, halfOpenProbeInFlight, trips := Closed, 0.0, [], false, 0;
    }

    method CheckTransitions(now: real)
      modifies this
      ensures Snapshot() == CheckedTransitions(cfg, old(Snapshot()), now)
    {
      if phase.Open? && now - openedAt >= cfg.recovery {
        phase := HalfOpen;
        halfOpenProbeInFlight := false;
      }
      var cutoff := now - cfg.window;
      ghost var unpopped := failures;
      while failures != [] && failures[0] < cutoff
        invariant DropStale(failures, cutoff) == DropStale(unpopped, cutoff)
        invariant phase == CheckedTransitions(cfg, old(Snapshot()), now).phase
        invariant halfOpenProbeInFlight == CheckedTransitions(cfg, old(Snapshot()), now).probe
        invariant openedAt == old(openedAt) && trips == old(trips)
        decreases |failures|
      {
        failures := failures[1..];
      }
    }

    method OnFailure<V>(outcome: Outcome<V>, now: real)
      requires outcome.Raised?
      modifies this
      ensures Snapshot() ==
              if CountedFailure(outcome) then AfterCountedFailure(cfg, old(Snapshot()), now) else old(Snapshot())
    {
      if !(outcome.error.kind.Upstream? && outcome.error.retryable) {
        return;
      }
      failures := failures + [now];
      if phase.HalfOpen? {
        phase, openedAt := Open, now;
        failures := [];
        trips := trips + 1;
        return;
      }
      if |failures| >= cfg.threshold {
        phase, openedAt := Open, now;
        failures := [];
        trips := trips + 1;
      }
    }

    method OnSuccess()
      modifies this
      ensures Snapshot() == AfterSuccess(old(Snapshot()))
    {
      if phase.HalfOpen? {
        phase := Closed;
        failures := [];
      }
    }

    /** `call` up to the point where it awaits the function, or raises CircuitOpenError. */
    method Enter(now: real) returns (admission: Admission)
      modifies this
      ensures (Snapshot(), admission) == Entered(cfg, old(Snapshot()), now)
    {
      CheckTransitions(now);
      if phase.Open? {
        return Rejected;
      }
      if phase.HalfOpen? {
        if halfOpenProbeInFlight {
          return Rejected;
        }
        halfOpenProbeInFlight := true;
        return AsProbe;
      }
      return AsNormal;
    }

    /** `call` from the point where the awaited function ends. */
    method Finish<V>(probe: bool, outcome: Outcome<V>, now: real)
      modifies this
      ensures Snapshot() == Finished(cfg, old(Snapshot()), probe, outcome, now)
    {
      if probe && outcome.Returned? {
        OnSuccess();
      } else if outcome.Raised? {
        OnFailure(outcome, now);
      }
      if probe {
        halfOpenProbeInFlight := false;
      }
    }
  }
}
