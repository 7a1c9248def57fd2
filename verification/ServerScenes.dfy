/**
  Building runs of the server: what one event does to a call of a harmless tool that has the
  server to itself, or nearly. The witnesses of module ServerWitnesses are made of these steps.
*/
module ServerScenes {
  import opened Errors
  import opened Server
  import opened ServerRuns
  import opened ServerParts
  import opened ServerSafety
  import Atba
  import CacheManager
  import CircuitBreaker
  import BreakerRuns
  import SingleFlight
  import TokenBucket

  const TRANSIENT := ToolError(Upstream, "transient", true)

  /** A call of a tool that is not destructive, which the checks before the limiter let through. */
  ghost predicate Harmless(cfg: Settings, c: Call) {
    Screened(cfg, c).None? && !Destructive(c)
  }

  /** The tokens the limiter has for a call at a time. */
  function Tokens(cfg: Settings, s: State, c: Call, at: real): real {
    var q := TokenBucket.QuotaFor(cfg.quota, ToolName(c));
    var stored := TokenBucket.At(s.guards.buckets, TokenBucket.LimiterKey(c.tenant, ToolName(c)));
    TokenBucket.Refilled(TokenBucket.Loaded(stored, q.capacity, Millis(at)), q.capacity, TokenBucket.RatePerSecond(q),
                         Millis(at))
  }

  /** The limiter lets n calls through at once. */
  predicate Room(cfg: Settings, s: State, c: Call, at: real, n: nat) {
    cfg.rateLimited ==> Tokens(cfg, s, c, at) >= n as real
  }

  /** The cache holds no value, and the lock of the call's key is free or has expired. */
  predicate Clear(cfg: Settings, s: State, c: Call, at: real) {
    UsesCache(cfg, c) ==>
      s.cache.c.l1 == [] && s.cache.c.l2 == map[] && CacheManager.LockFree(s.cache.c, KeyOf(cfg, c), at)
  }

  /** The call holds its key's lock, and the cache holds no value. */
  predicate Holding(cfg: Settings, s: State, id: nat)
    requires id < |s.flights|
  {
    UsesCache(cfg, s.flights[id].call) ==>
      && s.cache.c.l1 == [] && s.cache.c.l2 == map[]
      && id in s.cache.callers && s.cache.callers[id].phase.Computing? && s.cache.callers[id].phase.holder
  }

  ghost predicate Tied(cfg: Settings, s: State) {
    CacheTied(cfg, s) && BreakersTied(s)
  }

  lemma StaysTied(cfg: Settings, s: State, e: Event)
    requires Tied(cfg, s) && Enabled(cfg, s, e)
    ensures Tied(cfg, Next(cfg, s, e))
  {
    if e.Begin? {
      CacheTiedBegin(cfg, s, e);
    } else {
      CacheTiedMove(cfg, s, e);
    }
    BreakersTiedStep(cfg, s, e);
  }

  // ---------------------------------------------------------------------------------
  // Beginning
  // ---------------------------------------------------------------------------------

  /** The guards let the call pass. */
  ghost predicate Passes(cfg: Settings, g: Guards, c: Call, at: real) {
    Guarded(cfg, g, c, at).1.None?
  }

  lemma GuardsPass(cfg: Settings, s: State, c: Call, at: real)
    requires Harmless(cfg, c) && Room(cfg, s, c, at, 1)
    ensures Passes(cfg, s.guards, c, at)
  {
  }

  /** A call that passes and finds a clear cache gets to its launch. */
  lemma BeginScene(cfg: Settings, s: State, c: Call, at: real)
    requires Passes(cfg, s.guards, c, at) && Clear(cfg, s, c, at) && Tied(cfg, s) && s.clock <= at
    ensures Enabled(cfg, s, Begin(c, at))
    ensures var t, id := Next(cfg, s, Begin(c, at)), |s.flights|;
            && t.flights == s.flights + [Flight(c, at, |s.approvalLog|, Ready(at), at, 0, 0, 0.0, [], 0)]
            && t.breakers == s.breakers && t.samples == s.samples && t.clock == at && Holding(cfg, t, id)
            && t.guards == Guarded(cfg, s.guards, c, at).0
            && (UsesCache(cfg, c) ==>
                  && t.cache.callers == s.cache.callers[id := SingleFlight.Caller(KeyOf(cfg, c), TtlOf(c),
                                                                                SingleFlight.Computing(true, at))]
                  && t.cache.c.locks == s.cache.c.locks[CacheManager.LockKey(KeyOf(cfg, c)) :=
                                                        at + CacheManager.Seconds(CacheManager.STAMPEDE_LOCK_TTL_MS)])
            && (!UsesCache(cfg, c) ==> t.cache == s.cache)
  {
    TiedEnables(cfg, s, Begin(c, at));
  }

  /** The limiter is left with one token less. */
  lemma PassTakesToken(cfg: Settings, s: State, t: State, c: Call, at: real, n: nat)
    requires Harmless(cfg, c) && Room(cfg, s, c, at, n + 1) && t.guards == Guarded(cfg, s.guards, c, at).0
    ensures Room(cfg, t, c, at, n)
  {
  }

  /** The limiter's bucket for the call is not overdrawn, nor ahead of the clock. */
  predicate Solvent(cfg: Settings, s: State, c: Call) {
    var stored := TokenBucket.At(s.guards.buckets, TokenBucket.LimiterKey(c.tenant, ToolName(c)));
    cfg.rateLimited && stored.Some? ==> stored.value.tokens >= 0.0 && stored.value.lastMs <= Millis(s.clock)
  }

  lemma PassStaysSolvent(cfg: Settings, s: State, t: State, c: Call, at: real)
    requires Harmless(cfg, c) && Room(cfg, s, c, at, 1) && t.guards == Guarded(cfg, s.guards, c, at).0 && t.clock == at
    ensures Solvent(cfg, t, c)
  {
  }

  // ---------------------------------------------------------------------------------
  // Executing
  // ---------------------------------------------------------------------------------

  /** Nothing but one call, its breaker and its cache entry has changed. */
  ghost predicate OnlyMoved(s: State, t: State, id: nat, f: Flight, at: real)
    requires id < |s.flights|
  {
    t.flights == s.flights[id := f] && t.guards == s.guards && t.approvalLog == s.approvalLog && t.clock == at
  }

  lemma LaunchScene(cfg: Settings, s: State, id: nat, at: real)
    requires Tied(cfg, s) && id < |s.flights| && s.flights[id].stage.Ready? && s.clock <= at
    requires SystemOf(s, ToolName(s.flights[id].call)).b.phase.Closed?
    ensures Enabled(cfg, s, Launch(id, at))
    ensures var t, f, tool := Next(cfg, s, Launch(id, at)), s.flights[id], ToolName(s.flights[id].call);
            && OnlyMoved(s, t, id, f.(stage := Running(at + Allotted(s, tool)), launched := at,
                                      attempts := if Allowance(cfg, f.call) > 0 then 1 else 0), at)
            && t.cache == s.cache && t.samples == s.samples
            && SystemOf(t, tool).b == SystemOf(s, tool).b.(
                 failures := CircuitBreaker.DropStale(SystemOf(s, tool).b.failures, at - cfg.breaker.window))
            && SystemOf(t, tool).calls == SystemOf(s, tool).calls[id := BreakerRuns.Call(at, false)]
  {
    TiedEnables(cfg, s, Launch(id, at));
  }

  /** An ordinary call in flight in its tool's breaker. */
  predicate Ordinary(s: State, id: nat)
    requires id < |s.flights|
  {
    var calls := SystemOf(s, ToolName(s.flights[id].call)).calls;
    Executing(s.flights[id]) && id in calls && !calls[id].probe
  }

  /** The lock of an ended call is free again, if it had one. */
  predicate Released(cfg: Settings, s: State, t: State, c: Call) {
    if UsesCache(cfg, c) then
      && t.cache.c.l1 == s.cache.c.l1 && t.cache.c.l2 == s.cache.c.l2
      && t.cache.c.locks == s.cache.c.locks - {CacheManager.LockKey(KeyOf(cfg, c))}
    else t.cache == s.cache
  }

  /** The call's duration is sampled. */
  predicate Sampled(s: State, t: State, f: Flight, at: real) {
    var tool := ToolName(f.call);
    t.samples == s.samples[tool := Atba.Recorded(SamplesOf(s, tool), at - f.launched, Atba.WINDOW)]
  }

  lemma ExpireScene(cfg: Settings, s: State, id: nat, at: real)
    requires Tied(cfg, s) && id < |s.flights| && Ordinary(s, id) && Holding(cfg, s, id)
    requires s.flights[id].stage.until <= at && s.clock <= at
    ensures Enabled(cfg, s, Expire(id, at))
    ensures var t, f, tool := Next(cfg, s, Expire(id, at)), s.flights[id], ToolName(s.flights[id].call);
            && OnlyMoved(s, t, id, f.(stage := Stage.Done(Raised(TIMED_OUT))), at)
            && Released(cfg, s, t, f.call) && Sampled(s, t, f, at) && SystemOf(t, tool).b == SystemOf(s, tool).b
  {
    assert FlightAtCache(cfg, s, id);
    TiedEnables(cfg, s, Expire(id, at));
  }

  /** A retryable failure with attempts to spare, and no jitter: the call pauses. */
  lemma FailPauses(cfg: Settings, s: State, id: nat, error: ToolError, at: real)
    requires Tied(cfg, s) && id < |s.flights| && s.flights[id].stage.Running? && s.clock <= at && error.retryable
    requires 0 < s.flights[id].attempts < cfg.retryMax && !Destructive(s.flights[id].call)
    ensures Enabled(cfg, s, AttemptEnds(id, Failure(error), 0.0, at))
    ensures var t, f := Next(cfg, s, AttemptEnds(id, Failure(error), 0.0, at)), s.flights[id];
            && OnlyMoved(s, t, id, f.(stage := Pausing(f.stage.until, at), pauses := f.pauses + 1,
                                      results := f.results + [Raised(error)]), at)
            && t.cache == s.cache && t.breakers == s.breakers && t.samples == s.samples
  {
    TiedEnables(cfg, s, AttemptEnds(id, Failure(error), 0.0, at));
  }

  /** A failure that ends the call. */
  lemma FailEnds(cfg: Settings, s: State, id: nat, error: ToolError, at: real)
    requires Tied(cfg, s) && id < |s.flights| && s.flights[id].stage.Running? && s.clock <= at
    requires Ordinary(s, id) && Holding(cfg, s, id)
    requires 0 < s.flights[id].attempts && (error.retryable ==> s.flights[id].attempts >= cfg.retryMax)
    ensures Enabled(cfg, s, AttemptEnds(id, Failure(error), 0.0, at))
    ensures var t, f := Next(cfg, s, AttemptEnds(id, Failure(error), 0.0, at)), s.flights[id];
            var tool := ToolName(f.call);
            && OnlyMoved(s, t, id, t.flights[id], at) && t.flights[id].stage == Stage.Done(Raised(error))
            && t.flights[id].call == f.call
            && t.flights[id].blames == f.blames + (if CountedFailure<()>(Raised(error)) then 1 else 0)
            && Released(cfg, s, t, f.call) && Sampled(s, t, f, at)
            && SystemOf(t, tool).b ==
               if CountedFailure<()>(Raised(error)) then
                 CircuitBreaker.AfterCountedFailure(cfg.breaker, SystemOf(s, tool).b, at)
               else SystemOf(s, tool).b
  {
    assert FlightAtCache(cfg, s, id);
    TiedEnables(cfg, s, AttemptEnds(id, Failure(error), 0.0, at));
  }

  lemma ResumeScene(cfg: Settings, s: State, id: nat, at: real)
    requires Tied(cfg, s) && id < |s.flights| && s.flights[id].stage.Pausing? && s.clock <= at
    requires s.flights[id].stage.wakeAt <= at
    ensures Enabled(cfg, s, Resume(id, at))
    ensures var t, f := Next(cfg, s, Resume(id, at)), s.flights[id];
            && OnlyMoved(s, t, id, f.(stage := Running(f.stage.until), attempts := f.attempts + 1), at)
            && t.cache == s.cache && t.breakers == s.breakers && t.samples == s.samples
  {
    TiedEnables(cfg, s, Resume(id, at));
  }

  // ---------------------------------------------------------------------------------
  // Runs
  // ---------------------------------------------------------------------------------

  ghost predicate AllDue(s: State, at: real) {
    forall id :: 0 <= id < |s.flights| ==> Due(s.flights[id], at, 0.0)
  }

  /** One more event, on time. */
  lemma Extend(cfg: Settings, ss: seq<State>, es: seq<Event>, e: Event) returns (ss': seq<State>, es': seq<Event>)
    requires IsRun(cfg, ss, es) && OnTime(ss, es, 0.0) && Enabled(cfg, ss[|es|], e) && AllDue(ss[|es|], At(e))
    ensures es' == es + [e] && ss' == ss + [Next(cfg, ss[|es|], e)]
    ensures IsRun(cfg, ss', es') && OnTime(ss', es', 0.0)
  {
    es', ss' := es + [e], ss + [Next(cfg, ss[|es|], e)];
    forall i | 0 <= i < |es'| ensures StepAt(cfg, ss', es', i) {
      assert i < |es| ==> StepAt(cfg, ss, es, i);
    }
  }

  /** A run, on time, whose last state is `s`. */
  ghost predicate Reaches(cfg: Settings, ss: seq<State>, es: seq<Event>, s: State) {
    IsRun(cfg, ss, es) && OnTime(ss, es, 0.0) && Tied(cfg, s) && ss[|es|] == s
  }

  lemma ReachesInitial(cfg: Settings)
    ensures Reaches(cfg, [INITIAL], [], INITIAL)
  {
    AlwaysTied(cfg, [INITIAL], [], 0);
  }

  lemma ReachNext(cfg: Settings, ss: seq<State>, es: seq<Event>, s: State, e: Event)
    returns (ss': seq<State>, es': seq<Event>)
    requires Reaches(cfg, ss, es, s) && Enabled(cfg, s, e) && AllDue(s, At(e))
    ensures Reaches(cfg, ss', es', Next(cfg, s, e)) && es' == es + [e] && ss' == ss + [Next(cfg, s, e)]
  {
    StaysTied(cfg, s, e);
    ss', es' := Extend(cfg, ss, es, e);
  }

  /** The call as it is once launched. */
  function LaunchedFlight(cfg: Settings, s: State, c: Call, at: real, timeout: real): Flight {
    Flight(c, at, |s.approvalLog|, Running(at + timeout), at, if Allowance(cfg, c) > 0 then 1 else 0, 0, 0.0, [], 0)
  }

  /** From s to t a new call has begun and been launched with a timeout, past a closed breaker. */
  ghost predicate Underway(cfg: Settings, s: State, t: State, c: Call, at: real, timeout: real) {
    var id, tool := |s.flights|, ToolName(c);
    && t.flights == s.flights + [LaunchedFlight(cfg, s, c, at, timeout)] && t.samples == s.samples && t.clock == at
    && SystemOf(t, tool).b == SystemOf(s, tool).b.(
         failures := CircuitBreaker.DropStale(SystemOf(s, tool).b.failures, at - cfg.breaker.window))
    && Ordinary(t, id) && Holding(cfg, t, id)
    && if UsesCache(cfg, c) then
         && t.cache.callers == s.cache.callers[id := SingleFlight.Caller(KeyOf(cfg, c), TtlOf(c),
                                                                       SingleFlight.Computing(true, at))]
         && t.cache.c.locks == s.cache.c.locks[CacheManager.LockKey(KeyOf(cfg, c)) :=
                                                 at + CacheManager.Seconds(CacheManager.STAMPEDE_LOCK_TTL_MS)]
       else t.cache == s.cache
  }

  lemma UnderwayFrom(cfg: Settings, s: State, c: Call, at: real) returns (m: State, t: State)
    requires Tied(cfg, s) && Passes(cfg, s.guards, c, at) && Clear(cfg, s, c, at) && s.clock <= at
    requires SystemOf(s, ToolName(c)).b.phase.Closed?
    ensures Enabled(cfg, s, Begin(c, at)) && m == Next(cfg, s, Begin(c, at))
    ensures Enabled(cfg, m, Launch(|s.flights|, at)) && t == Next(cfg, m, Launch(|s.flights|, at))
    ensures Underway(cfg, s, t, c, at, Allotted(s, ToolName(c))) && t.guards == Guarded(cfg, s.guards, c, at).0
    ensures m.flights[..|s.flights|] == s.flights && |m.flights| == |s.flights| + 1
    ensures m.flights[|s.flights|].stage == Ready(at)
  {
    BeginScene(cfg, s, c, at);
    m := Next(cfg, s, Begin(c, at));
    StaysTied(cfg, s, Begin(c, at));
    LaunchScene(cfg, m, |s.flights|, at);
    t := Next(cfg, m, Launch(|s.flights|, at));
  }

  /** The run that begins and launches one more call, all at one time. */
  lemma PassAndLaunch(cfg: Settings, ss: seq<State>, es: seq<Event>, s: State, c: Call, at: real)
    returns (ss': seq<State>, es': seq<Event>, t: State)
    requires Reaches(cfg, ss, es, s) && Passes(cfg, s.guards, c, at) && Clear(cfg, s, c, at)
    requires s.clock <= at && AllDue(s, at) && SystemOf(s, ToolName(c)).b.phase.Closed?
    ensures Reaches(cfg, ss', es', t) && Underway(cfg, s, t, c, at, Allotted(s, ToolName(c)))
    ensures t.guards == Guarded(cfg, s.guards, c, at).0
    ensures es' == es + [Begin(c, at), Launch(|s.flights|, at)] && ss <= ss'
  {
    var m;
    m, t := UnderwayFrom(cfg, s, c, at);
    ss', es' := ReachNext(cfg, ss, es, s, Begin(c, at));
    forall id | 0 <= id < |m.flights| ensures Due(m.flights[id], at, 0.0) {
      if id < |s.flights| {
        assert m.flights[id] == m.flights[..|s.flights|][id] == s.flights[id];
      }
    }
    ss', es' := ReachNext(cfg, ss', es', m, Launch(|s.flights|, at));
  }

  /** The same, for a call the limiter has room for. */
  lemma BeginAndLaunch(cfg: Settings, ss: seq<State>, es: seq<Event>, s: State, c: Call, at: real, n: nat)
    returns (ss': seq<State>, es': seq<Event>, t: State)
    requires Reaches(cfg, ss, es, s) && Harmless(cfg, c) && Room(cfg, s, c, at, n + 1) && Clear(cfg, s, c, at)
    requires s.clock <= at && AllDue(s, at) && SystemOf(s, ToolName(c)).b.phase.Closed?
    ensures Reaches(cfg, ss', es', t) && Underway(cfg, s, t, c, at, Allotted(s, ToolName(c)))
    ensures Room(cfg, t, c, at, n) && Solvent(cfg, t, c)
    ensures es' == es + [Begin(c, at), Launch(|s.flights|, at)] && ss <= ss'
  {
    GuardsPass(cfg, s, c, at);
    ss', es', t := PassAndLaunch(cfg, ss, es, s, c, at);
    PassTakesToken(cfg, s, t, c, at, n);
    PassStaysSolvent(cfg, s, t, c, at);
  }
}
