/**
  What a dispatched call costs, over every run of the server: attempts, backoff, failures given
  to the breaker, and the attempts a tenant gets out of its rate limit.
*/
module ServerAccounts {
  import opened Errors
  import opened Server
  import opened ServerRuns
  import opened ServerParts
  import opened CacheTransparency
  import TokenBucket
  import BucketRuns
  import BreakerRuns
  import CircuitBreaker
  import Retry
  import Spacing

  // ---------------------------------------------------------------------------------
  // One call
  // ---------------------------------------------------------------------------------

  predicate Blamed(f: Flight) {
    f.stage.Done? && CountedFailure(f.stage.outcome)
  }

  ghost predicate Account(cfg: Settings, f: Flight) {
    && f.pauses <= f.attempts <= Allowance(cfg, f.call)
    && (f.attempts > 0 ==> f.pauses < Allowance(cfg, f.call))
    && (f.stage.Running? && f.attempts > 0 ==> f.pauses == f.attempts - 1)
    && (f.stage.Running? && Allowance(cfg, f.call) > 0 ==> f.attempts > 0)
    && (f.stage.Pausing? ==> 0 < f.pauses == f.attempts)
    && (f.stage.Refused? || f.stage.AtCache? || f.stage.Ready? ==> f.attempts == 0)
    && f.blames == (if Blamed(f) then 1 else 0)
    && 0.0 <= f.pausedMs <= Retry.Caps(cfg.retryBaseMs, Retry.MAX_DELAY_MS, f.pauses) as real
  }

  lemma NewAccount(cfg: Settings, s: State, e: Event)
    requires Enabled(cfg, s, e) && e.Begin?
    ensures Account(cfg, NewFlight(cfg, s, e.call, e.at))
  {
  }

  lemma MovedAccount(cfg: Settings, s: State, e: Event)
    requires Enabled(cfg, s, e) && !e.Begin? && !e.Decide? && !e.Direct? && Account(cfg, s.flights[e.id])
    ensures Account(cfg, FlightAfter(cfg, s, e))
  {
  }

  lemma {:induction false} AlwaysAccounted(cfg: Settings, ss: seq<State>, es: seq<Event>, n: nat, id: nat)
    requires IsRun(cfg, ss, es) && n <= |es| && id < |ss[n].flights|
    ensures Account(cfg, ss[n].flights[id])
  {
    if n > 0 {
      var s, e := ss[n - 1], es[n - 1];
      StepOf(cfg, ss, es, n - 1);
      if id < |s.flights| {
        AlwaysAccounted(cfg, ss, es, n - 1, id);
        if Moves(e, id) {
          MovedAccount(cfg, s, e);
        } else {
          FlightsKept(cfg, s, e, id);
        }
      } else {
        NewAccount(cfg, s, e);
      }
    }
  }

  /** Every dispatched call starts its tool at most `retry_max_attempts` times, once if the tool
      is destructive, and backs off at most the maximum delay after each attempt but the last,
      and at most the geometric sum of the base delay; it gives its breaker at most one failure,
      which is its own outcome. */
  lemma AttemptAccounting(cfg: Settings, ss: seq<State>, es: seq<Event>, n: nat, id: nat)
    requires IsRun(cfg, ss, es) && n <= |es| && id < |ss[n].flights|
    ensures var f := ss[n].flights[id];
            && f.attempts <= Allowance(cfg, f.call)
            && (f.call.tool.Some? && f.call.tool.value.destructive ==> f.attempts <= 1 && f.pausedMs == 0.0)
            && (f.call.tool.None? || !f.call.tool.value.destructive ==>
                  f.attempts <= if cfg.retryMax < 0 then 0 else cfg.retryMax)
            && f.pauses <= f.attempts && (f.attempts > 0 ==> f.pauses < Allowance(cfg, f.call))
            && f.pausedMs <= (f.pauses * Retry.MAX_DELAY_MS) as real
            && f.pausedMs <= (cfg.retryBaseMs * Retry.Pow2(f.pauses) - cfg.retryBaseMs) as real
            && f.blames <= 1
            && (f.blames == 1 <==> f.stage.Done? && CountedFailure(f.stage.outcome))
  {
    AlwaysAccounted(cfg, ss, es, n, id);
    Retry.CapsBound(cfg.retryBaseMs, Retry.MAX_DELAY_MS, ss[n].flights[id].pauses);
  }

  // ---------------------------------------------------------------------------------
  // The retry loop inside a call
  // ---------------------------------------------------------------------------------

  /** How the server reports a call cut by its timeout or its client. */
  predicate Cut(o: Outcome<Response>) {
    o == Raised(TIMED_OUT) || o == Aborted
  }

  /** The last attempt ended, and no other may follow. */
  predicate RanItsCourse(cfg: Settings, f: Flight) {
    && 0 < f.attempts == |f.results|
    && (Destructive(f.call) || Retry.Stops(f.results[f.attempts - 1], f.attempts, cfg.retryMax))
  }

  ghost predicate Looping(cfg: Settings, f: Flight) {
    && (if f.attempts == 0 then f.results == [] else f.attempts - 1 <= |f.results| <= f.attempts)
    && (f.stage.Running? && f.attempts > 0 ==> |f.results| == f.attempts - 1)
    && (f.stage.Pausing? ==> |f.results| == f.attempts && !RanItsCourse(cfg, f))
    && (forall a :: 0 <= a < |f.results| && a + 1 < f.attempts ==> Retry.Retryable(f.results[a]))
    && (f.stage.Done? && f.attempts > 0 ==>
          if RanItsCourse(cfg, f) then f.stage.outcome == f.results[f.attempts - 1] else Cut(f.stage.outcome))
  }

  lemma LoopingMoved(cfg: Settings, s: State, e: Event)
    requires Enabled(cfg, s, e) && !e.Begin? && !e.Decide? && !e.Direct?
    requires Looping(cfg, s.flights[e.id]) && Account(cfg, s.flights[e.id])
    ensures Looping(cfg, FlightAfter(cfg, s, e))
  {
  }

  lemma {:induction false} AlwaysLooping(cfg: Settings, ss: seq<State>, es: seq<Event>, n: nat, id: nat)
    requires IsRun(cfg, ss, es) && n <= |es| && id < |ss[n].flights|
    ensures Looping(cfg, ss[n].flights[id])
  {
    if n > 0 {
      var s, e := ss[n - 1], es[n - 1];
      StepOf(cfg, ss, es, n - 1);
      if id < |s.flights| {
        AlwaysLooping(cfg, ss, es, n - 1, id);
        AlwaysAccounted(cfg, ss, es, n - 1, id);
        if Moves(e, id) {
          LoopingMoved(cfg, s, e);
        } else {
          FlightsKept(cfg, s, e, id);
        }
      } else {
        NewAccount(cfg, s, e);
      }
    }
  }

  /** How attempt a of a call ended; one that did not end was cancelled. */
  function AttemptOf(f: Flight): nat -> Outcome<Response> {
    a => if 1 <= a <= |f.results| then f.results[a - 1] else Aborted
  }

  /** What the loop returned: nothing but the cancellation, if the call was cut. */
  function LoopResult(cfg: Settings, f: Flight): Outcome<Response> {
    if RanItsCourse(cfg, f) then f.results[f.attempts - 1] else Aborted
  }

  /** Every launched call of a tool that is not destructive went through exactly what `with_retry`
      makes of its attempts, and its outcome is the loop's result unless it was cut. */
  lemma CallsFollowTheLoop(cfg: Settings, ss: seq<State>, es: seq<Event>, n: nat, id: nat)
    requires IsRun(cfg, ss, es) && n <= |es| && id < |ss[n].flights|
    requires var f := ss[n].flights[id]; f.stage.Done? && f.attempts > 0 && !Destructive(f.call)
    ensures var f := ss[n].flights[id];
            && Retry.Retried(AttemptOf(f), cfg.retryMax, a => 0.0, a => 0.0, None, a => a == f.attempts,
                             Some(LoopResult(cfg, f)), f.attempts)
            && (RanItsCourse(cfg, f) ==> f.stage.outcome == LoopResult(cfg, f))
            && (!RanItsCourse(cfg, f) ==> Cut(f.stage.outcome))
  {
    AlwaysLooping(cfg, ss, es, n, id);
    AlwaysAccounted(cfg, ss, es, n, id);
    var f := ss[n].flights[id];
    forall a | 1 <= a < f.attempts ensures Retry.Retryable(AttemptOf(f)(a)) {
      assert f.results[a - 1] == AttemptOf(f)(a);
    }
  }

  // ---------------------------------------------------------------------------------
  // The failures a breaker counts
  // ---------------------------------------------------------------------------------

  predicate Mine(f: Flight, tool: string) {
    ToolName(f.call) == tool
  }

  /** The failures the calls of a tool account for. */
  function BlamesOf(flights: seq<Flight>, tool: string): nat {
    if flights == [] then 0
    else
      var last := flights[|flights| - 1];
      BlamesOf(flights[..|flights| - 1], tool) + if Mine(last, tool) then last.blames else 0
  }

  lemma {:induction false} BlamesUpdate(flights: seq<Flight>, id: nat, f: Flight, tool: string)
    requires id < |flights| && f.call == flights[id].call
    ensures BlamesOf(flights[id := f], tool)
            == BlamesOf(flights, tool) + if Mine(f, tool) then f.blames - flights[id].blames else 0
  {
    var init := flights[..|flights| - 1];
    if id == |flights| - 1 {
      assert flights[id := f][..|flights| - 1] == init;
    } else {
      BlamesUpdate(init, id, f, tool);
      assert flights[id := f][..|flights| - 1] == init[id := f];
    }
  }

  lemma BlamesAppend(flights: seq<Flight>, f: Flight, tool: string)
    ensures BlamesOf(flights + [f], tool) == BlamesOf(flights, tool) + if Mine(f, tool) then f.blames else 0
  {
  }

  /** The event gives the tool's breaker a failure it counts. */
  ghost predicate GivesFailure(cfg: Settings, s: State, e: Event, tool: string) {
    Touches(cfg, s, e, tool) && BreakerRuns.Fails(BreakerEvent(cfg, s, e).value.1)
  }

  /** The counted failures among the first n events. */
  ghost function FailuresGiven(cfg: Settings, ss: seq<State>, es: seq<Event>, tool: string, n: nat): nat
    requires n <= |es| < |ss|
  {
    if n == 0 then 0
    else FailuresGiven(cfg, ss, es, tool, n - 1) + if GivesFailure(cfg, ss[n - 1], es[n - 1], tool) then 1 else 0
  }

  lemma MovedBlame(cfg: Settings, s: State, e: Event, tool: string)
    requires Enabled(cfg, s, e) && !e.Begin? && !e.Decide? && !e.Direct? && Account(cfg, s.flights[e.id])
    ensures var f, g := s.flights[e.id], FlightAfter(cfg, s, e);
            (if Mine(f, tool) then g.blames - f.blames else 0) == if GivesFailure(cfg, s, e, tool) then 1 else 0
  {
  }

  ghost predicate AllAccounted(cfg: Settings, flights: seq<Flight>) {
    forall id :: 0 <= id < |flights| ==> Account(cfg, flights[id])
  }

  lemma EveryoneAccounted(cfg: Settings, ss: seq<State>, es: seq<Event>, n: nat)
    requires IsRun(cfg, ss, es) && n <= |es|
    ensures AllAccounted(cfg, ss[n].flights)
  {
    var flights := ss[n].flights;
    forall id | 0 <= id < |flights| ensures Account(cfg, flights[id]) {
      AlwaysAccounted(cfg, ss, es, n, id);
    }
  }

  lemma BlamesStep(cfg: Settings, s: State, e: Event, tool: string)
    requires Enabled(cfg, s, e) && AllAccounted(cfg, s.flights)
    ensures BlamesOf(Next(cfg, s, e).flights, tool)
            == BlamesOf(s.flights, tool) + if GivesFailure(cfg, s, e, tool) then 1 else 0
  {
    if e.Begin? {
      BlamesAppend(s.flights, NewFlight(cfg, s, e.call, e.at), tool);
    } else if !e.Decide? && !e.Direct? {
      MovedBlame(cfg, s, e, tool);
      BlamesUpdate(s.flights, e.id, FlightAfter(cfg, s, e), tool);
    }
  }

  /** The failures a breaker has counted are exactly the calls of its tool that ended in one. */
  lemma {:induction false} FailuresAreCalls(cfg: Settings, ss: seq<State>, es: seq<Event>, tool: string, n: nat)
    requires IsRun(cfg, ss, es) && n <= |es|
    ensures FailuresGiven(cfg, ss, es, tool, n) == BlamesOf(ss[n].flights, tool)
  {
    if n > 0 {
      FailuresAreCalls(cfg, ss, es, tool, n - 1);
      EveryoneAccounted(cfg, ss, es, n - 1);
      StepOf(cfg, ss, es, n - 1);
      BlamesStep(cfg, ss[n - 1], es[n - 1], tool);
    }
  }

  lemma {:induction false} NoneGivenBefore(cfg: Settings, ss: seq<State>, es: seq<Event>, tool: string, k: nat, n: nat)
    requires IsRun(cfg, ss, es) && k < n <= |es| && FailuresGiven(cfg, ss, es, tool, n) == 0
    ensures !GivesFailure(cfg, ss[k], es[k], tool)
    decreases n
  {
    if k < n - 1 {
      NoneGivenBefore(cfg, ss, es, tool, k, n - 1);
    }
  }

  /** As long as no call of a tool has ended in a failure that counts, its breaker has been as
      good as new all along, whatever else happened to the calls: being cut never trips it. */
  lemma UnblamedNeverTrips(cfg: Settings, ss: seq<State>, es: seq<Event>, tool: string, k: nat, n: nat)
    requires IsRun(cfg, ss, es) && k <= n <= |es| && BlamesOf(ss[n].flights, tool) == 0
    ensures SystemOf(ss[k], tool).b == CircuitBreaker.NEW_BREAKER
  {
    FailuresAreCalls(cfg, ss, es, tool, n);
    var steps, bs, bes := BreakerRefines(cfg, ss, es, tool, k);
    forall i | 0 <= i < |bes| ensures !BreakerRuns.Fails(bes[i]) {
      NoneGivenBefore(cfg, ss, es, tool, steps[i], n);
    }
    BreakerRuns.StaysClosed(cfg.breaker, bs, bes, |bes|);
  }

  // ---------------------------------------------------------------------------------
  // Attempts within the rate limit
  // ---------------------------------------------------------------------------------

  /** The call is the tenant's, on the tool, and began in the window. */
  predicate InWindow(f: Flight, tenant: string, tool: string, fromMs: int, toMs: int) {
    f.call.tenant == tenant && ToolName(f.call) == tool && fromMs <= Millis(f.begun) <= toMs
  }

  /** The attempts of the calls begun in the window, whenever they were made. */
  function AttemptsOf(flights: seq<Flight>, tenant: string, tool: string, fromMs: int, toMs: int): nat {
    if flights == [] then 0
    else
      var last := flights[|flights| - 1];
      AttemptsOf(flights[..|flights| - 1], tenant, tool, fromMs, toMs)
      + if InWindow(last, tenant, tool, fromMs, toMs) then last.attempts else 0
  }

  /** The calls begun in the window that got past the guards. */
  function PassedOf(flights: seq<Flight>, tenant: string, tool: string, fromMs: int, toMs: int): nat {
    if flights == [] then 0
    else
      var last := flights[|flights| - 1];
      PassedOf(flights[..|flights| - 1], tenant, tool, fromMs, toMs)
      + if InWindow(last, tenant, tool, fromMs, toMs) && !last.stage.Refused? then 1 else 0
  }

  function MostAttempts(cfg: Settings): nat {
    if cfg.retryMax < 1 then 1 else cfg.retryMax
  }

  lemma {:induction false} AttemptsByPassed(cfg: Settings, flights: seq<Flight>, tenant: string, tool: string,
                                            fromMs: int, toMs: int)
    requires AllAccounted(cfg, flights)
    ensures AttemptsOf(flights, tenant, tool, fromMs, toMs)
            <= MostAttempts(cfg) * PassedOf(flights, tenant, tool, fromMs, toMs)
  {
    if flights != [] {
      var init, last := flights[..|flights| - 1], flights[|flights| - 1];
      AttemptsByPassed(cfg, init, tenant, tool, fromMs, toMs);
      assert Account(cfg, last);
      Spacing.OneMore(MostAttempts(cfg), PassedOf(init, tenant, tool, fromMs, toMs));
    }
  }

  lemma {:induction false} PassedUpdate(flights: seq<Flight>, id: nat, f: Flight, tenant: string, tool: string,
                                        fromMs: int, toMs: int)
    requires id < |flights| && f.call == flights[id].call && f.begun == flights[id].begun
    requires f.stage.Refused? <==> flights[id].stage.Refused?
    ensures PassedOf(flights[id := f], tenant, tool, fromMs, toMs) == PassedOf(flights, tenant, tool, fromMs, toMs)
  {
    var init := flights[..|flights| - 1];
    if id == |flights| - 1 {
      assert flights[id := f][..|flights| - 1] == init;
    } else {
      PassedUpdate(init, id, f, tenant, tool, fromMs, toMs);
      assert flights[id := f][..|flights| - 1] == init[id := f];
    }
  }

  lemma PassedAppend(flights: seq<Flight>, f: Flight, tenant: string, tool: string, fromMs: int, toMs: int)
    ensures PassedOf(flights + [f], tenant, tool, fromMs, toMs)
            == PassedOf(flights, tenant, tool, fromMs, toMs)
               + if InWindow(f, tenant, tool, fromMs, toMs) && !f.stage.Refused? then 1 else 0
  {
  }

  /** The buckets are what the calls that asked the limiter left, in time order. */
  ghost predicate LimiterTied(cfg: Settings, s: State) {
    && s.guards.buckets == BucketRuns.After(cfg.quota, map[], s.limiterLog)
    && BucketRuns.TimesSorted(s.limiterLog)
    && (forall i :: 0 <= i < |s.limiterLog| ==> s.limiterLog[i].nowMs <= Millis(s.clock))
  }

  lemma LimiterTiedStep(cfg: Settings, s: State, e: Event)
    requires Enabled(cfg, s, e) && LimiterTied(cfg, s)
    ensures LimiterTied(cfg, Next(cfg, s, e))
  {
    assert Millis(s.clock) <= Millis(At(e));
    if e.Begin? && AsksLimiter(cfg, e.call) {
      var c := BucketRuns.Call(e.call.tenant, ToolName(e.call), 1, Millis(e.at));
      BucketRuns.AppendCall(cfg.quota, map[], s.limiterLog, c, "", 0, 0);
    } else {
      assert Next(cfg, s, e).limiterLog == s.limiterLog;
    }
  }

  lemma {:induction false} AlwaysLimiterTied(cfg: Settings, ss: seq<State>, es: seq<Event>, n: nat)
    requires IsRun(cfg, ss, es) && n <= |es|
    ensures LimiterTied(cfg, ss[n])
  {
    if n > 0 {
      AlwaysLimiterTied(cfg, ss, es, n - 1);
      StepOf(cfg, ss, es, n - 1);
      LimiterTiedStep(cfg, ss[n - 1], es[n - 1]);
    }
  }

  function AdmittedOf(cfg: Settings, s: State, tenant: string, tool: string, fromMs: int, toMs: int): int {
    BucketRuns.Admitted(cfg.quota, map[], s.limiterLog, TokenBucket.LimiterKey(tenant, tool), fromMs, toMs)
  }

  lemma PassedBegin(cfg: Settings, s: State, e: Event, tenant: string, tool: string, fromMs: int, toMs: int)
    requires Enabled(cfg, s, e) && cfg.rateLimited && LimiterTied(cfg, s) && e.Begin?
    requires PassedOf(s.flights, tenant, tool, fromMs, toMs) <= AdmittedOf(cfg, s, tenant, tool, fromMs, toMs)
    ensures PassedOf(Next(cfg, s, e).flights, tenant, tool, fromMs, toMs)
            <= AdmittedOf(cfg, Next(cfg, s, e), tenant, tool, fromMs, toMs)
  {
    var f := NewFlight(cfg, s, e.call, e.at);
    PassedAppend(s.flights, f, tenant, tool, fromMs, toMs);
    if AsksLimiter(cfg, e.call) {
      var c := BucketRuns.Call(e.call.tenant, ToolName(e.call), 1, Millis(e.at));
      BucketRuns.AppendCall(cfg.quota, map[], s.limiterLog, c, TokenBucket.LimiterKey(tenant, tool), fromMs, toMs);
    }
  }

  lemma PassedMove(cfg: Settings, s: State, e: Event, tenant: string, tool: string, fromMs: int, toMs: int)
    requires Enabled(cfg, s, e) && !e.Begin?
    ensures PassedOf(Next(cfg, s, e).flights, tenant, tool, fromMs, toMs)
            == PassedOf(s.flights, tenant, tool, fromMs, toMs)
    ensures Next(cfg, s, e).limiterLog == s.limiterLog
  {
    if !e.Decide? && !e.Direct? {
      PassedUpdate(s.flights, e.id, FlightAfter(cfg, s, e), tenant, tool, fromMs, toMs);
    }
  }

  lemma {:induction false} PassedWereAdmitted(cfg: Settings, ss: seq<State>, es: seq<Event>, n: nat, tenant: string,
                                              tool: string,
                                              fromMs: int, toMs: int)
    requires IsRun(cfg, ss, es) && n <= |es| && cfg.rateLimited
    ensures PassedOf(ss[n].flights, tenant, tool, fromMs, toMs) <= AdmittedOf(cfg, ss[n], tenant, tool, fromMs, toMs)
  {
    if n > 0 {
      PassedWereAdmitted(cfg, ss, es, n - 1, tenant, tool, fromMs, toMs);
      AlwaysLimiterTied(cfg, ss, es, n - 1);
      StepOf(cfg, ss, es, n - 1);
      if es[n - 1].Begin? {
        PassedBegin(cfg, ss[n - 1], es[n - 1], tenant, tool, fromMs, toMs);
      } else {
        PassedMove(cfg, ss[n - 1], es[n - 1], tenant, tool, fromMs, toMs);
      }
    }
  }

  /** What the limiter can admit on a tool between two times. */
  function RateBound(cfg: Settings, tool: string, fromMs: int, toMs: int): real {
    var q := TokenBucket.QuotaFor(cfg.quota, tool);
    q.capacity as real + TokenBucket.Gain(TokenBucket.RatePerSecond(q), toMs - fromMs)
  }

  lemma AdmittedWithinRate(cfg: Settings, s: State, tenant: string, tool: string, fromMs: int, toMs: int)
    requires LimiterTied(cfg, s) && fromMs <= toMs && cfg.quota.capacity >= 0 && cfg.quota.refillPerMinute >= 0
    requires forall i :: 0 <= i < |s.limiterLog| ==>
               BucketRuns.Apart(s.limiterLog[i].tenant, s.limiterLog[i].tool, tenant, tool)
    ensures AdmittedOf(cfg, s, tenant, tool, fromMs, toMs) as real <= RateBound(cfg, tool, fromMs, toMs)
  {
    BucketRuns.AdmissionBound(cfg.quota, s.limiterLog, tenant, tool, fromMs, toMs);
  }

  /** Tenants, or tools, are colon-free. */
  ghost predicate ApartFrom(es: seq<Event>, tenant: string, tool: string) {
    forall i :: 0 <= i < |es| && es[i].Begin? ==>
      BucketRuns.Apart(es[i].call.tenant, ToolName(es[i].call), tenant, tool)
  }

  lemma {:induction false} LogApart(cfg: Settings, ss: seq<State>, es: seq<Event>, n: nat, tenant: string, tool: string)
    requires IsRun(cfg, ss, es) && ApartFrom(es, tenant, tool) && n <= |es|
    ensures forall i :: 0 <= i < |ss[n].limiterLog| ==>
              BucketRuns.Apart(ss[n].limiterLog[i].tenant, ss[n].limiterLog[i].tool, tenant, tool)
  {
    if n > 0 {
      LogApart(cfg, ss, es, n - 1, tenant, tool);
      StepOf(cfg, ss, es, n - 1);
    }
  }

  /** With colon-free tenants or colon-free tools, the calls a tenant begins on a tool in a window
      and that pass the guards are at most the tool's capacity plus the refill over the window; and the attempts
      they make, retries and late ones included, are at most the attempts per call times those. */
  lemma AttemptsWithinLimit(cfg: Settings, ss: seq<State>, es: seq<Event>, n: nat, tenant: string, tool: string,
                            fromMs: int, toMs: int)
    requires IsRun(cfg, ss, es) && n <= |es| && cfg.rateLimited && fromMs <= toMs
    requires cfg.quota.capacity >= 0 && cfg.quota.refillPerMinute >= 0
    requires ApartFrom(es, tenant, tool)
    ensures AttemptsOf(ss[n].flights, tenant, tool, fromMs, toMs)
            <= MostAttempts(cfg) * PassedOf(ss[n].flights, tenant, tool, fromMs, toMs)
    ensures PassedOf(ss[n].flights, tenant, tool, fromMs, toMs) as real <= RateBound(cfg, tool, fromMs, toMs)
  {
    EveryoneAccounted(cfg, ss, es, n);
    AttemptsByPassed(cfg, ss[n].flights, tenant, tool, fromMs, toMs);
    PassedWereAdmitted(cfg, ss, es, n, tenant, tool, fromMs, toMs);
    AlwaysLimiterTied(cfg, ss, es, n);
    LogApart(cfg, ss, es, n, tenant, tool);
    AdmittedWithinRate(cfg, ss[n], tenant, tool, fromMs, toMs);
  }
}
