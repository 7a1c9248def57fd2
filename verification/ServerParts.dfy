/**
  What ties the parts of the server together in every run, and the refinements: what a run of
  the server does to one breaker, or to the cache, is a run of that component.
*/
module ServerParts {
  import opened Errors
  import opened Server
  import opened ServerRuns
  import opened CacheTransparency
  import CacheManager
  import SingleFlight
  import BreakerRuns

  predicate Executing(f: Flight) {
    f.stage.Running? || f.stage.Pausing?
  }

  /** The event moves this call. */
  predicate Moves(e: Event, id: nat) {
    !e.Begin? && !e.Decide? && !e.Direct? && e.id == id
  }

  lemma FlightsKept(cfg: Settings, s: State, e: Event, id: nat)
    requires Enabled(cfg, s, e) && id < |s.flights|
    ensures var t := Next(cfg, s, e);
            && id < |t.flights| && t.flights[id].call == s.flights[id].call
            && (!Moves(e, id) ==> t.flights[id] == s.flights[id])
  {
  }

  // ---------------------------------------------------------------------------------
  // The calls and the cache
  // ---------------------------------------------------------------------------------

  predicate Matches(stage: Stage, p: SingleFlight.Phase<Response>) {
    match stage
    case Refused(_) => false
    case AtCache => p.Waiting? && p.left > 0
    case Done(outcome) => p.Done? && p.outcome == outcome
    case _ => p.Computing?
  }

  /** A cacheable call past the guards is a caller of the cache under its own key, at the same point. */
  predicate FlightAtCache(cfg: Settings, s: State, id: nat)
    requires id < |s.flights|
  {
    var f := s.flights[id];
    if UsesCache(cfg, f.call) && !f.stage.Refused? then
      && id in s.cache.callers && Matches(f.stage, s.cache.callers[id].phase)
      && s.cache.callers[id].key == KeyOf(cfg, f.call) && s.cache.callers[id].ttl == TtlOf(f.call)
    else
      id !in s.cache.callers && !f.stage.AtCache?
  }

  ghost predicate CacheTied(cfg: Settings, s: State) {
    && s.cache.clock <= s.clock
    && (forall id :: id in s.cache.callers ==> id < |s.flights|)
    && (forall id :: 0 <= id < |s.flights| ==> FlightAtCache(cfg, s, id))
  }

  lemma CacheTiedBegin(cfg: Settings, s: State, e: Event)
    requires CacheTied(cfg, s) && Enabled(cfg, s, e) && e.Begin?
    ensures CacheTied(cfg, Next(cfg, s, e))
  {
    var t := Next(cfg, s, e);
    assert FlightAtCache(cfg, t, |s.flights|);
    forall id | 0 <= id < |s.flights| ensures FlightAtCache(cfg, t, id) {
      assert FlightAtCache(cfg, s, id);
    }
  }

  lemma OtherCallersKept(cfg: Settings, s: State, e: Event, id: nat)
    requires Enabled(cfg, s, e) && !e.Begin? && !Moves(e, id)
    ensures var before, after := s.cache.callers, Next(cfg, s, e).cache.callers;
            (id in after <==> id in before) && (id in before ==> after[id] == before[id])
  {
  }

  lemma WokenCaller(cfg: Settings, s: State, e: Event)
    requires CacheTied(cfg, s) && Enabled(cfg, s, e) && e.Wake?
    ensures FlightAtCache(cfg, Next(cfg, s, e), e.id)
  {
    assert FlightAtCache(cfg, s, e.id);
  }

  lemma MovedCaller(cfg: Settings, s: State, e: Event)
    requires CacheTied(cfg, s) && Enabled(cfg, s, e) && !e.Begin? && !e.Decide? && !e.Direct? && !e.Wake?
    ensures FlightAtCache(cfg, Next(cfg, s, e), e.id)
  {
    assert FlightAtCache(cfg, s, e.id);
  }

  lemma CacheTiedMove(cfg: Settings, s: State, e: Event)
    requires CacheTied(cfg, s) && Enabled(cfg, s, e) && !e.Begin?
    ensures CacheTied(cfg, Next(cfg, s, e))
  {
    var t := Next(cfg, s, e);
    forall id | 0 <= id < |t.flights| ensures FlightAtCache(cfg, t, id) {
      if Moves(e, id) && e.Wake? {
        WokenCaller(cfg, s, e);
      } else if Moves(e, id) {
        MovedCaller(cfg, s, e);
      } else {
        assert FlightAtCache(cfg, s, id);
        FlightsKept(cfg, s, e, id);
        OtherCallersKept(cfg, s, e, id);
      }
    }
    forall id | id in t.cache.callers ensures id < |t.flights| {
      if !Moves(e, id) {
        OtherCallersKept(cfg, s, e, id);
      }
    }
  }

  /** The event reaches the breaker of `tool`. */
  ghost predicate Touches(cfg: Settings, s: State, e: Event, tool: string) {
    BreakerEvent(cfg, s, e).Some? && BreakerEvent(cfg, s, e).value.0 == tool
  }

  // ---------------------------------------------------------------------------------
  // The calls and their breakers
  // ---------------------------------------------------------------------------------

  /** A call is in flight in its tool's breaker exactly while it executes, from its launch. */
  predicate FlightAtBreaker(s: State, id: nat)
    requires id < |s.flights|
  {
    var f, calls := s.flights[id], SystemOf(s, ToolName(s.flights[id].call)).calls;
    if Executing(f) then id in calls && calls[id].start == f.launched else id !in calls
  }

  /** A call in flight in a breaker is one for the breaker's tool. */
  predicate CallTied(s: State, tool: string, id: nat) {
    id in SystemOf(s, tool).calls ==> id < |s.flights| && ToolName(s.flights[id].call) == tool
  }

  ghost predicate BreakersTied(s: State) {
    && 0.0 <= s.clock
    && (forall tool :: tool in s.breakers ==> s.breakers[tool].clock <= s.clock)
    && (forall tool, id :: CallTied(s, tool, id))
    && (forall id :: 0 <= id < |s.flights| ==> FlightAtBreaker(s, id))
  }

  lemma SystemStep(cfg: Settings, s: State, e: Event, tool: string)
    requires Enabled(cfg, s, e)
    ensures SystemOf(Next(cfg, s, e), tool) ==
            if Touches(cfg, s, e, tool) then
              BreakerRuns.Next(cfg.breaker, SystemOf(s, tool), BreakerEvent(cfg, s, e).value.1)
            else SystemOf(s, tool)
  {
  }

  lemma OtherCallsKept(cfg: Settings, s: State, e: Event, tool: string, id: nat)
    requires Enabled(cfg, s, e) && !Moves(e, id)
    ensures var before, after := SystemOf(s, tool).calls, SystemOf(Next(cfg, s, e), tool).calls;
            (id in after <==> id in before) && (id in before ==> after[id] == before[id])
  {
  }

  lemma MovedCall(cfg: Settings, s: State, e: Event, tool: string)
    requires BreakersTied(s) && Enabled(cfg, s, e) && !e.Begin? && !e.Decide? && !e.Direct?
    ensures FlightAtBreaker(Next(cfg, s, e), e.id)
    ensures e.id in SystemOf(Next(cfg, s, e), tool).calls ==> ToolName(s.flights[e.id].call) == tool
  {
    assert FlightAtBreaker(s, e.id) && CallTied(s, tool, e.id);
    SystemStep(cfg, s, e, tool);
    SystemStep(cfg, s, e, ToolName(s.flights[e.id].call));
    FlightsKept(cfg, s, e, e.id);
  }

  lemma CallTiedStep(cfg: Settings, s: State, e: Event, tool: string, id: nat)
    requires BreakersTied(s) && Enabled(cfg, s, e)
    ensures CallTied(Next(cfg, s, e), tool, id)
  {
    assert CallTied(s, tool, id);
    if Moves(e, id) {
      MovedCall(cfg, s, e, tool);
      FlightsKept(cfg, s, e, id);
    } else {
      OtherCallsKept(cfg, s, e, tool, id);
      if id < |s.flights| {
        FlightsKept(cfg, s, e, id);
      }
    }
  }

  lemma FlightTied(cfg: Settings, s: State, e: Event, id: nat)
    requires BreakersTied(s) && Enabled(cfg, s, e) && id < |Next(cfg, s, e).flights|
    ensures FlightAtBreaker(Next(cfg, s, e), id)
  {
    if id == |s.flights| {
      var tool := ToolName(Next(cfg, s, e).flights[id].call);
      assert CallTied(s, tool, id);
      OtherCallsKept(cfg, s, e, tool, id);
    } else if Moves(e, id) {
      MovedCall(cfg, s, e, "");
    } else {
      assert FlightAtBreaker(s, id);
      FlightsKept(cfg, s, e, id);
      OtherCallsKept(cfg, s, e, ToolName(s.flights[id].call), id);
    }
  }

  lemma BreakersTiedStep(cfg: Settings, s: State, e: Event)
    requires BreakersTied(s) && Enabled(cfg, s, e)
    ensures BreakersTied(Next(cfg, s, e))
  {
    var t := Next(cfg, s, e);
    forall tool, id: nat ensures CallTied(t, tool, id) {
      CallTiedStep(cfg, s, e, tool, id);
    }
    forall id | 0 <= id < |t.flights| ensures FlightAtBreaker(t, id) {
      FlightTied(cfg, s, e, id);
    }
  }

  lemma {:induction false} AlwaysTied(cfg: Settings, ss: seq<State>, es: seq<Event>, n: nat)
    requires IsRun(cfg, ss, es) && n <= |es|
    ensures CacheTied(cfg, ss[n]) && BreakersTied(ss[n])
  {
    if n == 0 {
      assert forall tool, id :: CallTied(INITIAL, tool, id);
    } else {
      AlwaysTied(cfg, ss, es, n - 1);
      StepOf(cfg, ss, es, n - 1);
      if es[n - 1].Begin? {
        CacheTiedBegin(cfg, ss[n - 1], es[n - 1]);
      } else {
        CacheTiedMove(cfg, ss[n - 1], es[n - 1]);
      }
      BreakersTiedStep(cfg, ss[n - 1], es[n - 1]);
    }
  }

  /** A sleeper's nap is over. */
  predicate Rested(s: State, e: Event) {
    e.Wake? && e.id in s.cache.callers && s.cache.callers[e.id].phase.Waiting? ==>
      e.at >= s.cache.callers[e.id].phase.since + CacheManager.Seconds(CacheManager.STAMPEDE_WAIT_MS)
  }

  lemma TiedEnables(cfg: Settings, s: State, e: Event)
    requires CacheTied(cfg, s) && BreakersTied(s) && Expected(cfg, s, e) && Rested(s, e)
    ensures Enabled(cfg, s, e)
  {
    if !e.Begin? && !e.Decide? && !e.Direct? {
      assert FlightAtCache(cfg, s, e.id) && FlightAtBreaker(s, e.id);
    }
  }

  /** The components never stand in the way: whatever comes next to a call at the point it
      speaks of can happen, a sleeper's wake-up once its nap is over. */
  lemma NeverBlocked(cfg: Settings, ss: seq<State>, es: seq<Event>, n: nat, e: Event)
    requires IsRun(cfg, ss, es) && n <= |es| && Expected(cfg, ss[n], e) && Rested(ss[n], e)
    ensures Enabled(cfg, ss[n], e)
  {
    AlwaysTied(cfg, ss, es, n);
    TiedEnables(cfg, ss[n], e);
  }

  // ---------------------------------------------------------------------------------
  // Refinements
  // ---------------------------------------------------------------------------------

  /** `bs` and `bes` are what the first n events do to the breaker of `tool`: entry i comes from
      the server's event `steps[i]`, in order, and no event that reaches the breaker is left out. */
  ghost predicate BreakerProjection(cfg: Settings, ss: seq<State>, es: seq<Event>, tool: string, n: nat,
                                    steps: seq<nat>,
                                    bs: seq<BreakerRuns.System>, bes: seq<BreakerRuns.Event>)
    requires n <= |es| < |ss|
  {
    && |steps| == |bes| == |bs| - 1 && bs[0] == FRESH && bs[|bes|] == SystemOf(ss[n], tool)
    && (forall i :: 0 <= i < |steps| ==>
          && steps[i] < n && Touches(cfg, ss[steps[i]], es[steps[i]], tool)
          && bes[i] == BreakerEvent(cfg, ss[steps[i]], es[steps[i]]).value.1
          && bs[i] == SystemOf(ss[steps[i]], tool) && bs[i + 1] == SystemOf(ss[steps[i] + 1], tool))
    && (forall i, j :: 0 <= i < j < |steps| ==> steps[i] < steps[j])
    && (forall k: nat {:trigger es[k]} :: k < n && Touches(cfg, ss[k], es[k], tool) ==> k in steps)
  }

  lemma StepOf(cfg: Settings, ss: seq<State>, es: seq<Event>, n: nat)
    requires IsRun(cfg, ss, es) && n < |es|
    ensures Enabled(cfg, ss[n], es[n]) && ss[n + 1] == Next(cfg, ss[n], es[n])
  {
    assert StepAt(cfg, ss, es, n);
  }

  /** The clock never goes back, and no call is launched before time zero. */
  lemma {:induction false} ClockAdvances(cfg: Settings, ss: seq<State>, es: seq<Event>, i: nat, n: nat)
    requires IsRun(cfg, ss, es) && i <= n <= |es|
    ensures 0.0 <= ss[i].clock <= ss[n].clock
    ensures forall id :: 0 <= id < |ss[n].flights| ==> ss[n].flights[id].launched >= 0.0
    decreases n
  {
    if n > 0 {
      ClockAdvances(cfg, ss, es, if i < n then i else n - 1, n - 1);
      StepOf(cfg, ss, es, n - 1);
    }
  }

  lemma {:induction false} CallsPersist(cfg: Settings, ss: seq<State>, es: seq<Event>, k: nat, n: nat, id: nat)
    requires IsRun(cfg, ss, es) && k <= n <= |es| && id < |ss[k].flights|
    ensures id < |ss[n].flights| && ss[n].flights[id].call == ss[k].flights[id].call
    decreases n
  {
    if k < n {
      CallsPersist(cfg, ss, es, k, n - 1, id);
      StepOf(cfg, ss, es, n - 1);
      FlightsKept(cfg, ss[n - 1], es[n - 1], id);
    }
  }

  /** Every event that reaches the breaker has its place in the projection. */
  lemma PlaceOf(cfg: Settings, ss: seq<State>, es: seq<Event>, tool: string, n: nat, steps: seq<nat>,
                bs: seq<BreakerRuns.System>, bes: seq<BreakerRuns.Event>, k: nat) returns (i: nat)
    requires k < n <= |es| < |ss| && BreakerProjection(cfg, ss, es, tool, n, steps, bs, bes)
    requires Touches(cfg, ss[k], es[k], tool)
    ensures i < |steps| && steps[i] == k && bes[i] == BreakerEvent(cfg, ss[k], es[k]).value.1
    ensures bs[i] == SystemOf(ss[k], tool) && bs[i + 1] == SystemOf(ss[k + 1], tool)
  {
    i :| 0 <= i < |steps| && steps[i] == k;
  }

  /** Places come in the order of their events. */
  lemma InOrder(steps: seq<nat>, p: nat, q: nat)
    requires forall i, j :: 0 <= i < j < |steps| ==> steps[i] < steps[j]
    requires p < |steps| && q < |steps| && steps[p] < steps[q]
    ensures p < q
  {
  }

  lemma ProjectOne(cfg: Settings, ss: seq<State>, es: seq<Event>, tool: string, n: nat, steps: seq<nat>,
                   bs: seq<BreakerRuns.System>, bes: seq<BreakerRuns.Event>)
    requires n < |es| < |ss| && Touches(cfg, ss[n], es[n], tool)
    requires BreakerProjection(cfg, ss, es, tool, n, steps, bs, bes)
    ensures BreakerProjection(cfg, ss, es, tool, n + 1, steps + [n], bs + [SystemOf(ss[n + 1], tool)],
                              bes + [BreakerEvent(cfg, ss[n], es[n]).value.1])
  {
  }

  lemma ProjectNone(cfg: Settings, ss: seq<State>, es: seq<Event>, tool: string, n: nat, steps: seq<nat>,
                    bs: seq<BreakerRuns.System>, bes: seq<BreakerRuns.Event>)
    requires IsRun(cfg, ss, es) && n < |es| && !Touches(cfg, ss[n], es[n], tool)
    requires BreakerProjection(cfg, ss, es, tool, n, steps, bs, bes)
    ensures BreakerProjection(cfg, ss, es, tool, n + 1, steps, bs, bes)
  {
    StepOf(cfg, ss, es, n);
    SystemStep(cfg, ss[n], es[n], tool);
  }

  lemma ProjectStep(cfg: Settings, ss: seq<State>, es: seq<Event>, tool: string, n: nat, steps: seq<nat>,
                    bs: seq<BreakerRuns.System>, bes: seq<BreakerRuns.Event>)
    returns (steps': seq<nat>, bs': seq<BreakerRuns.System>, bes': seq<BreakerRuns.Event>)
    requires IsRun(cfg, ss, es) && n < |es| && BreakerProjection(cfg, ss, es, tool, n, steps, bs, bes)
    ensures BreakerProjection(cfg, ss, es, tool, n + 1, steps', bs', bes')
  {
    if Touches(cfg, ss[n], es[n], tool) {
      ProjectOne(cfg, ss, es, tool, n, steps, bs, bes);
      steps', bs', bes' := steps + [n], bs + [SystemOf(ss[n + 1], tool)],
                           bes + [BreakerEvent(cfg, ss[n], es[n]).value.1];
    } else {
      ProjectNone(cfg, ss, es, tool, n, steps, bs, bes);
      steps', bs', bes' := steps, bs, bes;
    }
  }

  lemma ProjectStart(cfg: Settings, ss: seq<State>, es: seq<Event>, tool: string)
    requires IsRun(cfg, ss, es)
    ensures BreakerProjection(cfg, ss, es, tool, 0, [], [SystemOf(ss[0], tool)], [])
  {
  }

  lemma {:induction false} Project(cfg: Settings, ss: seq<State>, es: seq<Event>, tool: string, n: nat)
    returns (steps: seq<nat>, bs: seq<BreakerRuns.System>, bes: seq<BreakerRuns.Event>)
    requires IsRun(cfg, ss, es) && n <= |es|
    ensures BreakerProjection(cfg, ss, es, tool, n, steps, bs, bes)
  {
    if n == 0 {
      ProjectStart(cfg, ss, es, tool);
      steps, bs, bes := [], [SystemOf(ss[0], tool)], [];
    } else {
      steps, bs, bes := Project(cfg, ss, es, tool, n - 1);
      steps, bs, bes := ProjectStep(cfg, ss, es, tool, n - 1, steps, bs, bes);
    }
  }

  /** What any run of the server does to one tool's breaker is a run of that breaker. */
  lemma BreakerRefines(cfg: Settings, ss: seq<State>, es: seq<Event>, tool: string, n: nat)
    returns (steps: seq<nat>, bs: seq<BreakerRuns.System>, bes: seq<BreakerRuns.Event>)
    requires IsRun(cfg, ss, es) && n <= |es|
    ensures BreakerRuns.IsRun(cfg.breaker, bs, bes)
    ensures BreakerProjection(cfg, ss, es, tool, n, steps, bs, bes)
  {
    steps, bs, bes := Project(cfg, ss, es, tool, n);
    forall i | 0 <= i < |bes|
      ensures BreakerRuns.Enabled(bs[i], bes[i]) && bs[i + 1] == BreakerRuns.Next(cfg.breaker, bs[i], bes[i])
    {
      StepOf(cfg, ss, es, steps[i]);
      SystemStep(cfg, ss[steps[i]], es[steps[i]], tool);
    }
  }

  /** `cs` and `ces` are what the first n events do to the cache. */
  ghost predicate CacheProjection(cfg: Settings, ss: seq<State>, es: seq<Event>, n: nat, steps: seq<nat>,
                                  cs: seq<SingleFlight.System<Response>>, ces: seq<SingleFlight.Event<Response>>)
    requires n <= |es| < |ss|
  {
    && |steps| == |ces| == |cs| - 1 && cs[0] == INITIAL.cache && cs[|ces|] == ss[n].cache
    && (forall i :: 0 <= i < |steps| ==>
          && steps[i] < n && CacheEvent(cfg, ss[steps[i]], es[steps[i]]) == Some(ces[i])
          && cs[i] == ss[steps[i]].cache && cs[i + 1] == ss[steps[i] + 1].cache)
    && (forall i, j :: 0 <= i < j < |steps| ==> steps[i] < steps[j])
    && (forall k: nat {:trigger es[k]} :: k < n && CacheEvent(cfg, ss[k], es[k]).Some? ==> k in steps)
  }

  lemma OneMoreCacheStep(cfg: Settings, ss: seq<State>, es: seq<Event>, n: nat, steps: seq<nat>)
    requires n < |es| < |ss|
    requires forall k: nat {:trigger es[k]} :: k < n && CacheEvent(cfg, ss[k], es[k]).Some? ==> k in steps
    ensures forall k: nat {:trigger es[k]} :: k < n + 1 && CacheEvent(cfg, ss[k], es[k]).Some? ==> k in steps + [n]
  {
  }

  lemma ProjectCacheOne(cfg: Settings, ss: seq<State>, es: seq<Event>, n: nat, steps: seq<nat>,
                        cs: seq<SingleFlight.System<Response>>, ces: seq<SingleFlight.Event<Response>>)
    requires n < |es| < |ss| && CacheEvent(cfg, ss[n], es[n]).Some?
    requires CacheProjection(cfg, ss, es, n, steps, cs, ces)
    ensures CacheProjection(cfg, ss, es, n + 1, steps + [n], cs + [ss[n + 1].cache],
                            ces + [CacheEvent(cfg, ss[n], es[n]).value])
  {
    OneMoreCacheStep(cfg, ss, es, n, steps);
    var steps', cs', ces' := steps + [n], cs + [ss[n + 1].cache], ces + [CacheEvent(cfg, ss[n], es[n]).value];
    forall i | 0 <= i < |steps'|
      ensures steps'[i] < n + 1 && CacheEvent(cfg, ss[steps'[i]], es[steps'[i]]) == Some(ces'[i])
      ensures cs'[i] == ss[steps'[i]].cache && cs'[i + 1] == ss[steps'[i] + 1].cache
    {
      assert i < |steps| ==> steps'[i] == steps[i] && ces'[i] == ces[i];
    }
  }

  lemma ProjectCacheNone(cfg: Settings, ss: seq<State>, es: seq<Event>, n: nat, steps: seq<nat>,
                         cs: seq<SingleFlight.System<Response>>, ces: seq<SingleFlight.Event<Response>>)
    requires IsRun(cfg, ss, es) && n < |es| && CacheEvent(cfg, ss[n], es[n]).None?
    requires CacheProjection(cfg, ss, es, n, steps, cs, ces)
    ensures CacheProjection(cfg, ss, es, n + 1, steps, cs, ces)
  {
    StepOf(cfg, ss, es, n);
  }

  lemma {:induction false} ProjectCache(cfg: Settings, ss: seq<State>, es: seq<Event>, n: nat)
    returns (steps: seq<nat>, cs: seq<SingleFlight.System<Response>>, ces: seq<SingleFlight.Event<Response>>)
    requires IsRun(cfg, ss, es) && n <= |es|
    ensures CacheProjection(cfg, ss, es, n, steps, cs, ces)
  {
    if n == 0 {
      steps, cs, ces := [], [ss[0].cache], [];
    } else {
      steps, cs, ces := ProjectCache(cfg, ss, es, n - 1);
      if CacheEvent(cfg, ss[n - 1], es[n - 1]).Some? {
        ProjectCacheOne(cfg, ss, es, n - 1, steps, cs, ces);
        steps, cs, ces := steps + [n - 1], cs + [ss[n].cache], ces + [CacheEvent(cfg, ss[n - 1], es[n - 1]).value];
      } else {
        ProjectCacheNone(cfg, ss, es, n - 1, steps, cs, ces);
      }
    }
  }

  /** What any run of the server does to the cache is a run of its callers. */
  lemma CacheRefines(cfg: Settings, ss: seq<State>, es: seq<Event>, n: nat)
    returns (steps: seq<nat>, cs: seq<SingleFlight.System<Response>>, ces: seq<SingleFlight.Event<Response>>)
    requires IsRun(cfg, ss, es) && n <= |es|
    ensures SingleFlight.IsRun(cfg.cache, cs, ces)
    ensures CacheProjection(cfg, ss, es, n, steps, cs, ces)
  {
    steps, cs, ces := ProjectCache(cfg, ss, es, n);
    forall i | 0 <= i < |ces|
      ensures SingleFlight.Enabled(cs[i], ces[i]) && cs[i + 1] == SingleFlight.Next(cfg.cache, cs[i], ces[i])
    {
      StepOf(cfg, ss, es, steps[i]);
    }
  }
}
