/**
  What a backend sees of an outage: how many calls are launched at it while its probes fail, and
  how many attempts these make.
*/
module ServerLoad {
  import opened Server
  import opened ServerRuns
  import opened ServerParts
  import opened ServerSafety
  import opened ServerAccounts
  import BreakerRuns
  import Spacing

  // ---------------------------------------------------------------------------------
  // Launches
  // ---------------------------------------------------------------------------------

  /** The event ends a probe of the tool's breaker: not by a rejection at its launch. */
  ghost predicate EndsProbe(cfg: Settings, s: State, e: Event, tool: string) {
    && Touches(cfg, s, e, tool) && BreakerEvent(cfg, s, e).value.1.Finish?
    && e.id in SystemOf(s, tool).calls && SystemOf(s, tool).calls[e.id].probe
  }

  /** The breaker trips at event i, and from then on every probe that ends, ends in a counted failure. */
  ghost predicate OutageFrom(cfg: Settings, ss: seq<State>, es: seq<Event>, tool: string, i: nat)
    requires |ss| == |es| + 1
  {
    && i < |es| && SystemOf(ss[i + 1], tool).b.trips > SystemOf(ss[i], tool).b.trips
    && forall m {:trigger es[m]} :: i <= m < |es| && EndsProbe(cfg, ss[m], es[m], tool)
         ==> GivesFailure(cfg, ss[m], es[m], tool)
  }

  lemma OutageIsProjected(cfg: Settings, ss: seq<State>, es: seq<Event>, tool: string, i: nat, steps: seq<nat>,
                          bs: seq<BreakerRuns.System>, bes: seq<BreakerRuns.Event>, p: nat)
    requires IsRun(cfg, ss, es) && OutageFrom(cfg, ss, es, tool, i)
    requires BreakerProjection(cfg, ss, es, tool, |es|, steps, bs, bes) && p < |steps| && steps[p] == i
    ensures BreakerRuns.ProbesFailFrom(bs, bes, p)
  {
    forall q | p <= q < |bes| && bes[q].Finish? && bes[q].id in bs[q].calls && bs[q].calls[bes[q].id].probe
      ensures BreakerRuns.Fails(bes[q])
    {
      var m := steps[q];
      assert EndsProbe(cfg, ss[m], es[m], tool);
      assert i <= m < |es|;
    }
  }

  /** Timeouts and lag stay below the recovery time. */
  ghost predicate CutInTime(cfg: Settings, ss: seq<State>, es: seq<Event>, tool: string, lag: real)
    requires |ss| == |es| + 1
  {
    OnTime(ss, es, lag) && AllottedBelow(ss, es, OfTool(tool), cfg.breaker.recovery - lag)
  }

  /** While every probe of a tool fails, its launches are a recovery time apart. */
  lemma LaunchSpacing(cfg: Settings, ss: seq<State>, es: seq<Event>, tool: string, lag: real, i: nat, j: nat, k: nat)
    requires IsRun(cfg, ss, es) && CutInTime(cfg, ss, es, tool, lag) && OutageFrom(cfg, ss, es, tool, i)
    requires i < j < k < |es| && Launches(cfg, ss[j], es[j], tool) && Launches(cfg, ss[k], es[k], tool)
    ensures At(es[k]) >= At(es[j]) + cfg.breaker.recovery
  {
    var steps, bs, bes := BreakerRefines(cfg, ss, es, tool, |es|);
    ShortInServer(cfg, ss, es, tool, lag, |es|, steps, bs, bes);
    var p := TripIsProjected(cfg, ss, es, tool, steps, bs, bes, i);
    var q := LaunchIsProjected(cfg, ss, es, tool, steps, bs, bes, j);
    var r := LaunchIsProjected(cfg, ss, es, tool, steps, bs, bes, k);
    OutageIsProjected(cfg, ss, es, tool, i, steps, bs, bes, p);
    InOrder(steps, p, q);
    InOrder(steps, q, r);
    BreakerRuns.OutageSpacing(cfg.breaker, bs, bes, p, q, r);
  }

  ghost function LaunchHits(cfg: Settings, ss: seq<State>, es: seq<Event>, tool: string): nat -> bool
    requires |ss| == |es| + 1
  {
    (m: nat) => m < |es| && Launches(cfg, ss[m], es[m], tool)
  }

  /** How many calls of the tool are launched by events a..b. */
  ghost function LaunchCount(cfg: Settings, ss: seq<State>, es: seq<Event>, tool: string, a: nat, b: nat): nat
    requires |ss| == |es| + 1 && a <= b
  {
    Spacing.Count(LaunchHits(cfg, ss, es, tool), a, b)
  }

  lemma TimesAdvance(cfg: Settings, ss: seq<State>, es: seq<Event>, j: nat, k: nat)
    requires IsRun(cfg, ss, es) && j <= k < |es|
    ensures At(es[j]) <= At(es[k])
  {
    StepOf(cfg, ss, es, j);
    StepOf(cfg, ss, es, k);
    if j < k {
      ClockAdvances(cfg, ss, es, j + 1, k);
    }
  }

  function TimeOf(es: seq<Event>): nat -> real {
    (m: nat) => if m < |es| then At(es[m]) else 0.0
  }

  lemma LaunchesSpaced(cfg: Settings, ss: seq<State>, es: seq<Event>, tool: string, lag: real, i: nat, a: nat, b: nat)
    requires IsRun(cfg, ss, es) && CutInTime(cfg, ss, es, tool, lag) && OutageFrom(cfg, ss, es, tool, i)
    requires i < a <= b <= |es|
    ensures Spacing.Spaced(LaunchHits(cfg, ss, es, tool), TimeOf(es), cfg.breaker.recovery, a, b)
  {
    var hit := LaunchHits(cfg, ss, es, tool);
    forall j: nat, k: nat | a <= j < k < b && hit(j) && hit(k)
      ensures TimeOf(es)(k) >= TimeOf(es)(j) + cfg.breaker.recovery
    {
      LaunchSpacing(cfg, ss, es, tool, lag, i, j, k);
    }
  }

  /** At most floor(L / recovery) + 1 calls are launched by events that span L seconds. */
  lemma LaunchLoad(cfg: Settings, ss: seq<State>, es: seq<Event>, tool: string, lag: real, i: nat, a: nat, b: nat)
    requires IsRun(cfg, ss, es) && CutInTime(cfg, ss, es, tool, lag) && OutageFrom(cfg, ss, es, tool, i)
    requires i < a < b <= |es| && cfg.breaker.recovery > 0.0
    ensures LaunchCount(cfg, ss, es, tool, a, b) <= ((At(es[b - 1]) - At(es[a])) / cfg.breaker.recovery).Floor + 1
  {
    forall j: nat, k: nat | a <= j <= k < b ensures TimeOf(es)(j) <= TimeOf(es)(k) {
      TimesAdvance(cfg, ss, es, j, k);
    }
    LaunchesSpaced(cfg, ss, es, tool, lag, i, a, b);
    Spacing.SpacedLoad(LaunchHits(cfg, ss, es, tool), TimeOf(es), cfg.breaker.recovery, a, b);
  }

  // ---------------------------------------------------------------------------------
  // Attempts
  // ---------------------------------------------------------------------------------

  /** The sum of what the calls weigh. */
  function Total(flights: seq<Flight>, weight: Flight -> nat): nat {
    if flights == [] then 0
    else Total(flights[..|flights| - 1], weight) + weight(flights[|flights| - 1])
  }

  lemma {:induction false} TotalUpdate(flights: seq<Flight>, weight: Flight -> nat, id: nat, f: Flight)
    requires id < |flights|
    ensures Total(flights[id := f], weight) == Total(flights, weight) + weight(f) - weight(flights[id])
  {
    var init := flights[..|flights| - 1];
    if id == |flights| - 1 {
      assert flights[id := f][..|flights| - 1] == init;
    } else {
      TotalUpdate(init, weight, id, f);
      assert flights[id := f][..|flights| - 1] == init[id := f];
    }
  }

  lemma {:induction false} TotalMonotone(flights: seq<Flight>, low: Flight -> nat, high: Flight -> nat)
    requires forall id :: 0 <= id < |flights| ==> low(flights[id]) <= high(flights[id])
    ensures Total(flights, low) <= Total(flights, high)
  {
    if flights != [] {
      TotalMonotone(flights[..|flights| - 1], low, high);
    }
  }

  /** The attempts a tool's call has made. */
  function Made(tool: string): Flight -> nat {
    f => if Mine(f, tool) then f.attempts else 0
  }

  /** The same, but a call that executes may yet make all it is allowed. */
  function Committed(cfg: Settings, tool: string): Flight -> nat {
    f => if !Mine(f, tool) then 0 else if Executing(f) then MostAttempts(cfg) else f.attempts
  }

  lemma MovedCommits(cfg: Settings, s: State, e: Event, tool: string)
    requires Enabled(cfg, s, e) && !e.Begin? && !e.Decide? && !e.Direct? && Account(cfg, s.flights[e.id])
    requires Account(cfg, FlightAfter(cfg, s, e))
    ensures Committed(cfg, tool)(FlightAfter(cfg, s, e))
            <= Committed(cfg, tool)(s.flights[e.id])
               + if Launches(cfg, s, e, tool) then MostAttempts(cfg) else 0
  {
  }

  lemma CommitsStep(cfg: Settings, s: State, e: Event, tool: string)
    requires Enabled(cfg, s, e) && AllAccounted(cfg, s.flights) && AllAccounted(cfg, Next(cfg, s, e).flights)
    ensures Total(Next(cfg, s, e).flights, Committed(cfg, tool))
            <= Total(s.flights, Committed(cfg, tool)) + if Launches(cfg, s, e, tool) then MostAttempts(cfg) else 0
  {
    if !e.Begin? && !e.Decide? && !e.Direct? {
      var f := FlightAfter(cfg, s, e);
      assert Account(cfg, s.flights[e.id]) && Account(cfg, Next(cfg, s, e).flights[e.id]);
      MovedCommits(cfg, s, e, tool);
      TotalUpdate(s.flights, Committed(cfg, tool), e.id, f);
    }
  }

  lemma CommitsAt(cfg: Settings, ss: seq<State>, es: seq<Event>, tool: string, n: nat)
    requires IsRun(cfg, ss, es) && n < |es|
    ensures Total(ss[n + 1].flights, Committed(cfg, tool))
            <= Total(ss[n].flights, Committed(cfg, tool))
               + if Launches(cfg, ss[n], es[n], tool) then MostAttempts(cfg) else 0
  {
    StepOf(cfg, ss, es, n);
    EveryoneAccounted(cfg, ss, es, n);
    EveryoneAccounted(cfg, ss, es, n + 1);
    CommitsStep(cfg, ss[n], es[n], tool);
  }

  /** In any run, what a tool's calls may come to make grows by the attempts allowed to a call with
      each launch, and with nothing else. */
  lemma AttemptsByLaunches(cfg: Settings, ss: seq<State>, es: seq<Event>, tool: string, a: nat, b: nat)
    requires IsRun(cfg, ss, es) && a <= b <= |es|
    ensures Total(ss[b].flights, Committed(cfg, tool))
            <= Total(ss[a].flights, Committed(cfg, tool))
               + MostAttempts(cfg) * LaunchCount(cfg, ss, es, tool, a, b)
  {
    var hit, k := LaunchHits(cfg, ss, es, tool), MostAttempts(cfg);
    var total := (n: nat) => if n < |ss| then Total(ss[n].flights, Committed(cfg, tool)) else 0;
    forall n: nat | a <= n < b ensures Spacing.GrowsAt(hit, total, k, n) {
      CommitsAt(cfg, ss, es, tool, n);
    }
    Spacing.GrowsByHits(hit, total, k, a, b);
  }

  lemma MadeIsCommitted(cfg: Settings, ss: seq<State>, es: seq<Event>, tool: string, n: nat)
    requires IsRun(cfg, ss, es) && n <= |es|
    ensures Total(ss[n].flights, Made(tool)) <= Total(ss[n].flights, Committed(cfg, tool))
  {
    EveryoneAccounted(cfg, ss, es, n);
    TotalMonotone(ss[n].flights, Made(tool), Committed(cfg, tool));
  }

  /** So while every probe of a tool fails, the attempts its backend has seen by event b are at most
      what the calls up to event a may make, and the attempts allowed to a call for each of
      floor(L / recovery) + 1 launches in the L seconds between. */
  lemma AttemptLoad(cfg: Settings, ss: seq<State>, es: seq<Event>, tool: string, lag: real, i: nat, a: nat, b: nat)
    requires IsRun(cfg, ss, es) && CutInTime(cfg, ss, es, tool, lag) && OutageFrom(cfg, ss, es, tool, i)
    requires i < a < b <= |es| && cfg.breaker.recovery > 0.0
    ensures Total(ss[b].flights, Made(tool))
            <= Total(ss[a].flights, Committed(cfg, tool))
               + MostAttempts(cfg) * (((At(es[b - 1]) - At(es[a])) / cfg.breaker.recovery).Floor + 1)
  {
    var n := LaunchCount(cfg, ss, es, tool, a, b);
    var bound := ((At(es[b - 1]) - At(es[a])) / cfg.breaker.recovery).Floor + 1;
    LaunchLoad(cfg, ss, es, tool, lag, i, a, b);
    AttemptsByLaunches(cfg, ss, es, tool, a, b);
    MadeIsCommitted(cfg, ss, es, tool, b);
    TimesMonotone(MostAttempts(cfg), n, bound);
  }

  lemma TimesMonotone(k: nat, m: int, n: int)
    requires m <= n
    ensures k * m <= k * n
  {
  }

  lemma IdleCommitsNothing(cfg: Settings, flights: seq<Flight>, tool: string)
    requires forall id :: 0 <= id < |flights| && Mine(flights[id], tool) ==> !Executing(flights[id])
    ensures Total(flights, Committed(cfg, tool)) <= Total(flights, Made(tool))
  {
    TotalMonotone(flights, Committed(cfg, tool), Made(tool));
  }

  /** From a moment when none of the tool's calls executes, that is what the backend sees in these
      L seconds, retries included. */
  lemma OutageAttempts(cfg: Settings, ss: seq<State>, es: seq<Event>, tool: string, lag: real, i: nat, a: nat, b: nat)
    requires IsRun(cfg, ss, es) && CutInTime(cfg, ss, es, tool, lag) && OutageFrom(cfg, ss, es, tool, i)
    requires i < a < b <= |es| && cfg.breaker.recovery > 0.0
    requires forall id :: 0 <= id < |ss[a].flights| && Mine(ss[a].flights[id], tool) ==> !Executing(ss[a].flights[id])
    ensures Total(ss[b].flights, Made(tool)) - Total(ss[a].flights, Made(tool))
            <= MostAttempts(cfg) * (((At(es[b - 1]) - At(es[a])) / cfg.breaker.recovery).Floor + 1)
  {
    AttemptLoad(cfg, ss, es, tool, lag, i, a, b);
    IdleCommitsNothing(cfg, ss[a].flights, tool);
  }
}
