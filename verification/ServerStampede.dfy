/**
  "Only one should recompute" in the server: for which calls it holds of every run, and a run,
  on time, in which it fails.
*/
module ServerStampede {
  import opened Errors
  import opened Server
  import opened ServerRuns
  import opened ServerParts
  import opened ServerSafety
  import opened ServerCache
  import opened ServerScenes
  import opened ServerWitnesses
  import CacheManager
  import ServerAccounts
  import SingleFlight

  const SLEEPS: nat := CacheManager.STAMPEDE_MAX_WAITS

  // ---------------------------------------------------------------------------------
  // Scenes
  // ---------------------------------------------------------------------------------

  /** A call that passes, and misses while its lock is held, goes to sleep. */
  lemma QueueScene(cfg: Settings, s: State, c: Call, at: real)
    requires Tied(cfg, s) && UsesCache(cfg, c) && Passes(cfg, s.guards, c, at) && s.clock <= at
    requires s.cache.c.l1 == [] && s.cache.c.l2 == map[] && !CacheManager.LockFree(s.cache.c, KeyOf(cfg, c), at)
    ensures Enabled(cfg, s, Begin(c, at))
    ensures var t, id := Next(cfg, s, Begin(c, at)), |s.flights|;
            && t.flights == s.flights + [Flight(c, at, |s.approvalLog|, AtCache, at, 0, 0, 0.0, [], 0)]
            && t.breakers == s.breakers && t.samples == s.samples && t.clock == at
            && t.cache.c.l1 == [] && t.cache.c.l2 == map[]
            && t.cache.callers == s.cache.callers[id := SingleFlight.Caller(KeyOf(cfg, c), TtlOf(c),
                                                                          SingleFlight.Waiting(SLEEPS, at))]
  {
    TiedEnables(cfg, s, Begin(c, at));
  }

  /** It wakes to a miss, and sleeps again or, its patience at an end, gets ready to execute. */
  lemma WakeScene(cfg: Settings, s: State, id: nat, at: real)
    requires Tied(cfg, s) && id < |s.flights| && s.flights[id].stage.AtCache? && s.clock <= at
    requires s.cache.c.l1 == [] && s.cache.c.l2 == map[] && Rested(s, Wake(id, at))
    ensures Enabled(cfg, s, Wake(id, at)) && id in s.cache.callers && s.cache.callers[id].phase.Waiting?
    ensures var t, caller := Next(cfg, s, Wake(id, at)), s.cache.callers[id];
            && t.flights == s.flights[id := s.flights[id].(stage := if caller.phase.left == 1 then Ready(at)
                                                                   else AtCache)]
            && t.breakers == s.breakers && t.samples == s.samples && t.clock == at
            && t.cache.c.l1 == [] && t.cache.c.l2 == map[]
            && t.cache.callers == s.cache.callers[id := caller.(phase :=
                 if caller.phase.left == 1 then SingleFlight.Computing(false, at)
                 else SingleFlight.Waiting(caller.phase.left - 1, at))]
  {
    assert FlightAtCache(cfg, s, id);
    TiedEnables(cfg, s, Wake(id, at));
  }

  // ---------------------------------------------------------------------------------
  // A run in which two calls execute
  // ---------------------------------------------------------------------------------

  /** Call 0 has executed since time zero, and call 1 has slept k times. */
  ghost predicate Queued(cfg: Settings, c: Call, s: State, k: nat) {
    && |s.flights| == 2 && s.flights[0] == LaunchedFlight(cfg, INITIAL, c, 0.0, 7.5) && s.flights[1].call == c
    && s.flights[1].attempts == 0 && s.clock == SingleFlight.Naps(k) && s.samples == map[]
    && SystemOf(s, ToolName(c)).b.phase.Closed? && s.cache.c.l1 == [] && s.cache.c.l2 == map[]
    && 1 in s.cache.callers
    && if k < SLEEPS then
         s.flights[1].stage.AtCache? && s.cache.callers[1].phase == SingleFlight.Waiting(SLEEPS - k, s.clock)
       else s.flights[1].stage == Ready(s.clock)
  }

  lemma Queues(cfg: Settings, c: Call) returns (ss: seq<State>, es: seq<Event>, s: State)
    requires Harmless(cfg, c) && UsesCache(cfg, c) && (cfg.rateLimited ==> QuotaOf(cfg, c).capacity >= 2)
    ensures Reaches(cfg, ss, es, s) && Queued(cfg, c, s, 0)
    ensures es == [Begin(c, 0.0), Launch(0, 0.0), Begin(c, 0.0)]
  {
    ss, es, s := FirstLaunched(cfg, c, 1);
    GuardsPass(cfg, s, c, 0.0);
    QueueScene(cfg, s, c, 0.0);
    ss, es := ReachNext(cfg, ss, es, s, Begin(c, 0.0));
    s := Next(cfg, s, Begin(c, 0.0));
  }

  lemma SleepsOn(cfg: Settings, c: Call, ss: seq<State>, es: seq<Event>, s: State, k: nat)
    returns (ss': seq<State>, es': seq<Event>, t: State)
    requires Reaches(cfg, ss, es, s) && Queued(cfg, c, s, k) && k < SLEEPS
    ensures Reaches(cfg, ss', es', t) && Queued(cfg, c, t, k + 1) && es' == es + [Wake(1, SingleFlight.Naps(k + 1))]
  {
    var at := SingleFlight.Naps(k + 1);
    SingleFlight.NapsAdd(k + 1);
    WakeScene(cfg, s, 1, at);
    ss', es' := ReachNext(cfg, ss, es, s, Wake(1, at));
    t := Next(cfg, s, Wake(1, at));
  }

  /** Arrivals, launches and wake-ups only. */
  predicate Patient(es: seq<Event>) {
    forall i :: 0 <= i < |es| ==> es[i].Begin? || es[i].Launch? || es[i].Wake?
  }

  lemma {:induction false} SleepsOut(cfg: Settings, c: Call, k: nat)
    returns (ss: seq<State>, es: seq<Event>, s: State)
    requires Harmless(cfg, c) && UsesCache(cfg, c) && (cfg.rateLimited ==> QuotaOf(cfg, c).capacity >= 2)
    requires k <= SLEEPS
    ensures Reaches(cfg, ss, es, s) && Queued(cfg, c, s, k) && Patient(es)
  {
    if k == 0 {
      ss, es, s := Queues(cfg, c);
    } else {
      ss, es, s := SleepsOut(cfg, c, k - 1);
      ss, es, s := SleepsOn(cfg, c, ss, es, s, k - 1);
    }
  }

  /** The two calls execute: the first has been at it for one second of its 7.5. */
  ghost predicate BothExecute(cfg: Settings, c: Call, s: State) {
    && |s.flights| == 2 && s.flights[0] == LaunchedFlight(cfg, INITIAL, c, 0.0, 7.5)
    && s.flights[1].call == c && s.flights[1].stage == Running(s.clock + 7.5) && s.flights[1].attempts == 1
    && s.flights[1].launched == s.clock == SingleFlight.Patience()
  }

  lemma SecondLaunches(cfg: Settings, c: Call, ss: seq<State>, es: seq<Event>, s: State)
    returns (ss': seq<State>, es': seq<Event>)
    requires Reaches(cfg, ss, es, s) && Queued(cfg, c, s, SLEEPS) && Allowance(cfg, c) > 0
    ensures IsRun(cfg, ss', es') && OnTime(ss', es', 0.0) && es' == es + [Launch(1, SingleFlight.Patience())]
    ensures BothExecute(cfg, c, ss'[|es'|])
  {
    SingleFlight.NapsAdd(SLEEPS);
    LaunchScene(cfg, s, 1, s.clock);
    assert Allotted(s, ToolName(c)) == 7.5;
    ss', es' := ReachNext(cfg, ss, es, s, Launch(1, s.clock));
  }

  /** Two calls of one key both execute, on time, although the first is well within its timeout, so
      nobody holds a lock that has expired: the second merely ran out of patience. */
  lemma ImpatientCallExecutes(cfg: Settings, c: Call) returns (ss: seq<State>, es: seq<Event>)
    requires Harmless(cfg, c) && UsesCache(cfg, c) && cfg.retryMax >= 1
    requires cfg.rateLimited ==> QuotaOf(cfg, c).capacity >= 2
    ensures IsRun(cfg, ss, es) && OnTime(ss, es, 0.0) && Patient(es) && BothExecute(cfg, c, ss[|es|])
  {
    var s;
    ss, es, s := SleepsOut(cfg, c, SLEEPS);
    ss, es := SecondLaunches(cfg, c, ss, es, s);
  }

  // ---------------------------------------------------------------------------------
  // The exact bound
  // ---------------------------------------------------------------------------------

  /** At most one call of the key has executed. */
  ghost predicate OneExecutes(cfg: Settings, s: State, key: string) {
    forall p: nat, q: nat :: ExecutedKey(cfg, s, key, p) && ExecutedKey(cfg, s, key, q) ==> p == q
  }

  predicate ExecutedKey(cfg: Settings, s: State, key: string, id: nat) {
    id < |s.flights| && OfKey(cfg, key)(s.flights[id].call) && s.flights[id].attempts > 0
  }

  /** A run, on time, calm within a bound. */
  ghost predicate CalmRun(cfg: Settings, ss: seq<State>, es: seq<Event>, key: string, bound: real) {
    IsRun(cfg, ss, es) && OnTime(ss, es, 0.0) && CalmWithin(cfg, ss, es, key, bound)
  }

  lemma CalmRunExecutesOnce(cfg: Settings, ss: seq<State>, es: seq<Event>, key: string, bound: real)
    requires CalmRun(cfg, ss, es, key, bound) && bound <= SingleFlight.Patience()
    ensures OneExecutes(cfg, ss[|es|], key)
  {
    assert Calm(cfg, ss, es, key);
    var s := ss[|es|];
    ExecutedOnce(cfg, ss, es, key, 0.0, |es|);
    forall p: nat, q: nat | ExecutedKey(cfg, s, key, p) && ExecutedKey(cfg, s, key, q) ensures p == q {
      assert Asks(cfg, s, key, p) && Asks(cfg, s, key, q) by {
        ServerAccounts.AlwaysAccounted(cfg, ss, es, |es|, p);
        ServerAccounts.AlwaysAccounted(cfg, ss, es, |es|, q);
      }
      var leader :| Leads(cfg, s, key, leader);
    }
  }

  lemma {:induction false} DoneStays(cfg: Settings, ss: seq<State>, es: seq<Event>, m: nat, n: nat, id: nat)
    requires IsRun(cfg, ss, es) && m <= n <= |es| && id < |ss[m].flights| && ss[m].flights[id].stage.Done?
    ensures id < |ss[n].flights| && ss[n].flights[id].stage.Done?
    decreases n
  {
    if m < n {
      DoneStays(cfg, ss, es, m, n - 1, id);
      StepOf(cfg, ss, es, n - 1);
      FlightsKept(cfg, ss[n - 1], es[n - 1], id);
    }
  }

  lemma ImpatientRunIsCalm(cfg: Settings, c: Call, ss: seq<State>, es: seq<Event>, bound: real)
    requires IsRun(cfg, ss, es) && Patient(es) && BothExecute(cfg, c, ss[|es|]) && bound > SingleFlight.Patience()
    ensures CalmWithin(cfg, ss, es, KeyOf(cfg, c), bound)
  {
    var key := KeyOf(cfg, c);
    forall k, id | 0 <= k < |es| && 0 <= id < |ss[k].flights| && OfKey(cfg, key)(ss[k].flights[id].call) &&
                   Executing(ss[k].flights[id])
      ensures At(es[k]) - ss[k].flights[id].launched < bound
    {
      ClockAdvances(cfg, ss, es, k, k);
      StepOf(cfg, ss, es, k);
      ClockAdvances(cfg, ss, es, k + 1, |es|);
    }
    forall k | 0 <= k < |es| ensures !Ends(cfg, ss, es, k, key) {
      if Ends(cfg, ss, es, k, key) {
        DoneStays(cfg, ss, es, k + 1, |es|, es[k].id);
      }
    }
  }

  /** In every run that is on time and calm, with executions below a bound, at most one call of the
      key executes, if and only if the bound is within a sleeper's patience of one second; but the
      server allots 7.5 s to a tool without samples. */
  lemma ExecutedOnceIff(cfg: Settings, c: Call, bound: real)
    requires Harmless(cfg, c) && UsesCache(cfg, c) && cfg.retryMax >= 1
    requires cfg.rateLimited ==> QuotaOf(cfg, c).capacity >= 2
    ensures (forall ss, es :: CalmRun(cfg, ss, es, KeyOf(cfg, c), bound) ==> OneExecutes(cfg, ss[|es|], KeyOf(cfg, c)))
            <==> bound <= SingleFlight.Patience()
  {
    var key := KeyOf(cfg, c);
    if bound <= SingleFlight.Patience() {
      forall ss, es | CalmRun(cfg, ss, es, key, bound) ensures OneExecutes(cfg, ss[|es|], key) {
        CalmRunExecutesOnce(cfg, ss, es, key, bound);
      }
    } else {
      var ss, es := ImpatientCallExecutes(cfg, c);
      ImpatientRunIsCalm(cfg, c, ss, es, bound);
      assert ExecutedKey(cfg, ss[|es|], key, 0) && ExecutedKey(cfg, ss[|es|], key, 1);
    }
  }
}
