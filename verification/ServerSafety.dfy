/**
  What timeouts buy, over every run of the server: they bound the calls in flight, so probes are
  exclusive, and nothing is launched while a breaker recovers.
*/
module ServerSafety {
  import opened Server
  import opened ServerRuns
  import opened ServerParts
  import BreakerRuns
  import CircuitBreaker

  // ---------------------------------------------------------------------------------
  // Timeouts bound the calls in flight
  // ---------------------------------------------------------------------------------

  /** Nothing suspends between the guards and the launch, and a cut comes at most `lag` late. */
  predicate Due(f: Flight, at: real, lag: real) {
    match f.stage
    case Ready(since) => at == since
    case Running(until) => at <= until + lag
    case Pausing(until, _) => at <= until + lag
    case _ => true
  }

  ghost predicate OnTime(ss: seq<State>, es: seq<Event>, lag: real)
    requires |ss| == |es| + 1
  {
    forall i, id {:trigger es[i], ss[i].flights[id]} ::
      0 <= i < |es| && 0 <= id < |ss[i].flights| ==> Due(ss[i].flights[id], At(es[i]), lag)
  }

  function OfTool(tool: string): Call -> bool {
    c => ToolName(c) == tool
  }

  function OfKey(cfg: Settings, key: string): Call -> bool {
    c => UsesCache(cfg, c) && KeyOf(cfg, c) == key
  }

  predicate LaunchesBelow(s: State, e: Event, who: Call -> bool, bound: real) {
    e.Launch? && e.id < |s.flights| && who(s.flights[e.id].call) ==> Allotted(s, ToolName(s.flights[e.id].call)) < bound
  }

  /** Every timeout that these calls are allotted is below the bound. */
  ghost predicate AllottedBelow(ss: seq<State>, es: seq<Event>, who: Call -> bool, bound: real)
    requires |ss| == |es| + 1
  {
    forall i {:trigger es[i]} :: 0 <= i < |es| ==> LaunchesBelow(ss[i], es[i], who, bound)
  }

  predicate CutBelow(f: Flight, bound: real) {
    Executing(f) ==> f.stage.until - f.launched < bound
  }

  lemma CutBelowStep(cfg: Settings, s: State, e: Event, who: Call -> bool, bound: real, id: nat)
    requires Enabled(cfg, s, e) && LaunchesBelow(s, e, who, bound)
    requires id < |s.flights| ==> who(s.flights[id].call) ==> CutBelow(s.flights[id], bound)
    requires id < |Next(cfg, s, e).flights|
    ensures var f := Next(cfg, s, e).flights[id];
            who(f.call) ==> CutBelow(f, bound)
  {
  }

  lemma {:induction false} AlwaysCutBelow(cfg: Settings, ss: seq<State>, es: seq<Event>, who: Call -> bool, bound: real,
                                          n: nat, id: nat)
    requires IsRun(cfg, ss, es) && AllottedBelow(ss, es, who, bound) && n <= |es|
    requires id < |ss[n].flights| && who(ss[n].flights[id].call)
    ensures CutBelow(ss[n].flights[id], bound)
  {
    if n > 0 {
      StepOf(cfg, ss, es, n - 1);
      if id < |ss[n - 1].flights| {
        FlightsKept(cfg, ss[n - 1], es[n - 1], id);
        AlwaysCutBelow(cfg, ss, es, who, bound, n - 1, id);
      }
      CutBelowStep(cfg, ss[n - 1], es[n - 1], who, bound, id);
    }
  }

  /** When timeouts and lag stay below the recovery time, every call a breaker sees is short. */
  lemma CallsShort(cfg: Settings, ss: seq<State>, es: seq<Event>, tool: string, lag: real, n: nat, id: nat)
    requires IsRun(cfg, ss, es) && OnTime(ss, es, lag)
    requires AllottedBelow(ss, es, OfTool(tool), cfg.breaker.recovery - lag)
    requires n < |es| && id in SystemOf(ss[n], tool).calls
    ensures At(es[n]) - SystemOf(ss[n], tool).calls[id].start < cfg.breaker.recovery
  {
    AlwaysTied(cfg, ss, es, n);
    assert CallTied(ss[n], tool, id) && FlightAtBreaker(ss[n], id);
    AlwaysCutBelow(cfg, ss, es, OfTool(tool), cfg.breaker.recovery - lag, n, id);
    assert Due(ss[n].flights[id], At(es[n]), lag);
  }

  lemma ProjectionShort(cfg: Settings, ss: seq<State>, es: seq<Event>, tool: string, lag: real, n: nat, steps: seq<nat>,
                        bs: seq<BreakerRuns.System>, bes: seq<BreakerRuns.Event>, i: nat, id: nat)
    requires IsRun(cfg, ss, es) && OnTime(ss, es, lag)
    requires AllottedBelow(ss, es, OfTool(tool), cfg.breaker.recovery - lag)
    requires n <= |es| && BreakerProjection(cfg, ss, es, tool, n, steps, bs, bes) && i < |bes| && id in bs[i].calls
    ensures bes[i].at - bs[i].calls[id].start < cfg.breaker.recovery
  {
    CallsShort(cfg, ss, es, tool, lag, steps[i], id);
  }

  /** So all that module BreakerRuns proves of short calls holds of a breaker inside the server. */
  lemma ShortInServer(cfg: Settings, ss: seq<State>, es: seq<Event>, tool: string, lag: real, n: nat, steps: seq<nat>,
                      bs: seq<BreakerRuns.System>, bes: seq<BreakerRuns.Event>)
    requires IsRun(cfg, ss, es) && OnTime(ss, es, lag)
    requires AllottedBelow(ss, es, OfTool(tool), cfg.breaker.recovery - lag)
    requires n <= |es| && BreakerProjection(cfg, ss, es, tool, n, steps, bs, bes)
    ensures |bs| == |bes| + 1 && BreakerRuns.ShortCalls(cfg.breaker, bs, bes) && bs[|bes|] == SystemOf(ss[n], tool)
  {
    forall i, id | 0 <= i < |bes| && id in bs[i].calls
      ensures bes[i].at - bs[i].calls[id].start < cfg.breaker.recovery
    {
      ProjectionShort(cfg, ss, es, tool, lag, n, steps, bs, bes, i, id);
    }
  }

  /** In every interleaving of dispatched calls, if the timeouts allotted to a tool and the lag of
      its cuts stay below the recovery time together, its breaker's probe flag is true exactly when one probe is in
      flight, only in HALF_OPEN, and nothing else is then in flight. */
  lemma ProbesExclusive(cfg: Settings, ss: seq<State>, es: seq<Event>, tool: string, lag: real, n: nat)
    requires IsRun(cfg, ss, es) && OnTime(ss, es, lag) && n <= |es|
    requires AllottedBelow(ss, es, OfTool(tool), cfg.breaker.recovery - lag)
    ensures BreakerRuns.Exclusive(SystemOf(ss[n], tool))
  {
    var steps, bs, bes := BreakerRefines(cfg, ss, es, tool, n);
    ShortInServer(cfg, ss, es, tool, lag, n, steps, bs, bes);
    BreakerRuns.ShortCallsExclusive(cfg.breaker, bs, bes, |bes|);
  }

  /** A launch half-opens the tool's breaker while another call of the tool executes. */
  ghost predicate HalfOpensBusy(cfg: Settings, s: State, e: Event, tool: string) {
    && e.Launch? && e.id < |s.flights| && OfTool(tool)(s.flights[e.id].call)
    && CircuitBreaker.RecoveryElapsed(cfg.breaker, SystemOf(s, tool).b, e.at)
    && exists id :: 0 <= id < |s.flights| && OfTool(tool)(s.flights[id].call) && Executing(s.flights[id])
  }

  lemma BusyMeansCalls(cfg: Settings, ss: seq<State>, es: seq<Event>, tool: string, n: nat)
    requires IsRun(cfg, ss, es) && n <= |es|
    ensures SystemOf(ss[n], tool).calls != map[] <==>
            exists id :: 0 <= id < |ss[n].flights| && OfTool(tool)(ss[n].flights[id].call) &&
                         Executing(ss[n].flights[id])
  {
    var s := ss[n];
    AlwaysTied(cfg, ss, es, n);
    if id :| id in SystemOf(s, tool).calls {
      assert CallTied(s, tool, id) && FlightAtBreaker(s, id);
    }
    forall id | 0 <= id < |s.flights| && OfTool(tool)(s.flights[id].call) && Executing(s.flights[id])
      ensures id in SystemOf(s, tool).calls
    {
      assert FlightAtBreaker(s, id);
    }
  }

  lemma BusyIsUndrained(cfg: Settings, ss: seq<State>, es: seq<Event>, tool: string, k: nat)
    requires IsRun(cfg, ss, es) && k < |es|
    ensures HalfOpensBusy(cfg, ss[k], es[k], tool) <==>
            && Touches(cfg, ss[k], es[k], tool) && SystemOf(ss[k], tool).calls != map[]
            && BreakerRuns.HalfOpens(cfg.breaker, SystemOf(ss[k], tool), BreakerEvent(cfg, ss[k], es[k]).value.1)
  {
    BusyMeansCalls(cfg, ss, es, tool, k);
  }

  lemma QuietDrains(cfg: Settings, ss: seq<State>, es: seq<Event>, tool: string, n: nat, steps: seq<nat>,
                    bs: seq<BreakerRuns.System>, bes: seq<BreakerRuns.Event>)
    requires IsRun(cfg, ss, es) && n <= |es| && BreakerProjection(cfg, ss, es, tool, n, steps, bs, bes)
    requires forall k :: 0 <= k < |es| ==> !HalfOpensBusy(cfg, ss[k], es[k], tool)
    ensures BreakerRuns.Drained(cfg.breaker, bs, bes)
  {
    forall i | 0 <= i < |bes| && BreakerRuns.HalfOpens(cfg.breaker, bs[i], bes[i]) ensures bs[i].calls == map[] {
      BusyIsUndrained(cfg, ss, es, tool, steps[i]);
    }
  }

  lemma DrainedIsQuiet(cfg: Settings, ss: seq<State>, es: seq<Event>, tool: string, k: nat, steps: seq<nat>,
                       bs: seq<BreakerRuns.System>, bes: seq<BreakerRuns.Event>)
    requires IsRun(cfg, ss, es) && k < |es| && BreakerProjection(cfg, ss, es, tool, |es|, steps, bs, bes)
    requires BreakerRuns.Drained(cfg.breaker, bs, bes)
    ensures !HalfOpensBusy(cfg, ss[k], es[k], tool)
  {
    BusyIsUndrained(cfg, ss, es, tool, k);
  }

  lemma QuietHalfOpens(cfg: Settings, ss: seq<State>, es: seq<Event>, tool: string, n: nat)
    requires IsRun(cfg, ss, es) && n <= |es|
    requires forall k :: 0 <= k < |es| ==> !HalfOpensBusy(cfg, ss[k], es[k], tool)
    ensures BreakerRuns.Exclusive(SystemOf(ss[n], tool))
  {
    var steps, bs, bes := BreakerRefines(cfg, ss, es, tool, n);
    QuietDrains(cfg, ss, es, tool, n, steps, bs, bes);
    BreakerRuns.ExclusiveIffDrained(cfg.breaker, bs, bes);
    assert BreakerRuns.Exclusive(bs[|bes|]);
  }

  lemma ExclusiveIsProjected(cfg: Settings, ss: seq<State>, es: seq<Event>, tool: string, steps: seq<nat>,
                             bs: seq<BreakerRuns.System>, bes: seq<BreakerRuns.Event>, i: nat)
    requires |ss| == |es| + 1 && BreakerProjection(cfg, ss, es, tool, |es|, steps, bs, bes) && i <= |bes|
    requires forall n :: 0 <= n <= |es| ==> BreakerRuns.Exclusive(SystemOf(ss[n], tool))
    ensures BreakerRuns.Exclusive(bs[i])
  {
    var n := if i < |bes| then steps[i] else |es|;
    assert bs[i] == SystemOf(ss[n], tool);
  }

  lemma ExclusiveMeansQuiet(cfg: Settings, ss: seq<State>, es: seq<Event>, tool: string, k: nat)
    requires IsRun(cfg, ss, es) && k < |es|
    requires forall n :: 0 <= n <= |es| ==> BreakerRuns.Exclusive(SystemOf(ss[n], tool))
    ensures !HalfOpensBusy(cfg, ss[k], es[k], tool)
  {
    var steps, bs, bes := BreakerRefines(cfg, ss, es, tool, |es|);
    forall i | 0 <= i <= |bes| ensures BreakerRuns.Exclusive(bs[i]) {
      ExclusiveIsProjected(cfg, ss, es, tool, steps, bs, bes, i);
    }
    BreakerRuns.ExclusiveIffDrained(cfg.breaker, bs, bes);
    DrainedIsQuiet(cfg, ss, es, tool, k, steps, bs, bes);
  }

  /** In any run of the server a tool's probes are exclusive throughout if and only if its breaker
      never half-opens while a call of the tool executes. */
  lemma ProbesExclusiveIff(cfg: Settings, ss: seq<State>, es: seq<Event>, tool: string)
    requires IsRun(cfg, ss, es)
    ensures (forall n :: 0 <= n <= |es| ==> BreakerRuns.Exclusive(SystemOf(ss[n], tool)))
            <==> (forall k :: 0 <= k < |es| ==> !HalfOpensBusy(cfg, ss[k], es[k], tool))
  {
    if forall k :: 0 <= k < |es| ==> !HalfOpensBusy(cfg, ss[k], es[k], tool) {
      forall n | 0 <= n <= |es| ensures BreakerRuns.Exclusive(SystemOf(ss[n], tool)) {
        QuietHalfOpens(cfg, ss, es, tool, n);
      }
    }
    if forall n :: 0 <= n <= |es| ==> BreakerRuns.Exclusive(SystemOf(ss[n], tool)) {
      forall k | 0 <= k < |es| ensures !HalfOpensBusy(cfg, ss[k], es[k], tool) {
        ExclusiveMeansQuiet(cfg, ss, es, tool, k);
      }
    }
  }

  /** A call is launched past its tool's breaker. */
  ghost predicate Launches(cfg: Settings, s: State, e: Event, tool: string) {
    && e.Launch? && e.id < |s.flights| && ToolName(s.flights[e.id].call) == tool
    && !ShortCircuits(cfg, s, s.flights[e.id], e.at)
  }

  lemma TripIsProjected(cfg: Settings, ss: seq<State>, es: seq<Event>, tool: string, steps: seq<nat>,
                        bs: seq<BreakerRuns.System>, bes: seq<BreakerRuns.Event>, i: nat) returns (p: nat)
    requires IsRun(cfg, ss, es) && BreakerProjection(cfg, ss, es, tool, |es|, steps, bs, bes)
    requires i < |es| && SystemOf(ss[i + 1], tool).b.trips > SystemOf(ss[i], tool).b.trips
    ensures p < |steps| && steps[p] == i && BreakerRuns.Trips(bs, p) && bes[p].at == At(es[i])
  {
    StepOf(cfg, ss, es, i);
    SystemStep(cfg, ss[i], es[i], tool);
    p := PlaceOf(cfg, ss, es, tool, |es|, steps, bs, bes, i);
  }

  lemma LaunchIsProjected(cfg: Settings, ss: seq<State>, es: seq<Event>, tool: string, steps: seq<nat>,
                          bs: seq<BreakerRuns.System>, bes: seq<BreakerRuns.Event>, j: nat) returns (q: nat)
    requires IsRun(cfg, ss, es) && BreakerProjection(cfg, ss, es, tool, |es|, steps, bs, bes)
    requires j < |es| && Launches(cfg, ss[j], es[j], tool)
    ensures q < |steps| && steps[q] == j && BreakerRuns.Starts(bs, bes, q) && bes[q].at == At(es[j])
  {
    StepOf(cfg, ss, es, j);
    SystemStep(cfg, ss[j], es[j], tool);
    q := PlaceOf(cfg, ss, es, tool, |es|, steps, bs, bes, j);
  }

  /** Whatever the calls do, none is launched within the recovery time of a trip. */
  lemma NoLaunchDuringRecovery(cfg: Settings, ss: seq<State>, es: seq<Event>, tool: string, i: nat, j: nat)
    requires IsRun(cfg, ss, es) && i < j < |es| && Launches(cfg, ss[j], es[j], tool)
    requires SystemOf(ss[i + 1], tool).b.trips > SystemOf(ss[i], tool).b.trips
    ensures At(es[j]) >= At(es[i]) + cfg.breaker.recovery
  {
    var steps, bs, bes := BreakerRefines(cfg, ss, es, tool, |es|);
    var p := TripIsProjected(cfg, ss, es, tool, steps, bs, bes, i);
    var q := LaunchIsProjected(cfg, ss, es, tool, steps, bs, bes, j);
    BreakerRuns.NoStartDuringRecovery(cfg.breaker, bs, bes, p, q);
  }

  lemma OldCallsOnly(cfg: Settings, ss: seq<State>, es: seq<Event>, tool: string, n: nat, id: nat)
    requires IsRun(cfg, ss, es) && n <= |es| && id in SystemOf(ss[n], tool).calls && SystemOf(ss[n], tool).b.phase.Open?
    ensures SystemOf(ss[n], tool).calls[id].start <= SystemOf(ss[n], tool).b.openedAt
  {
    var steps, bs, bes := BreakerRefines(cfg, ss, es, tool, n);
    BreakerRuns.OpenAdmitsNothing(cfg.breaker, bs, bes, |bes|, id);
  }

  /** The breaker guards launches, not attempts: while it is open an attempt of its tool can run,
      but only of a call launched before it opened. */
  lemma LateAttemptsAreOld(cfg: Settings, ss: seq<State>, es: seq<Event>, n: nat, id: nat)
    requires IsRun(cfg, ss, es) && n <= |es| && id < |ss[n].flights| && Executing(ss[n].flights[id])
    requires SystemOf(ss[n], ToolName(ss[n].flights[id].call)).b.phase.Open?
    ensures ss[n].flights[id].launched <= SystemOf(ss[n], ToolName(ss[n].flights[id].call)).b.openedAt
  {
    AlwaysTied(cfg, ss, es, n);
    assert FlightAtBreaker(ss[n], id);
    OldCallsOnly(cfg, ss, es, ToolName(ss[n].flights[id].call), n, id);
  }
}
