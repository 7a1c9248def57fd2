/**
  What the cache promises dispatched calls: how old an answer can be, and that a miss is computed
  once.
*/
module ServerCache {
  import opened Errors
  import opened Server
  import opened ServerRuns
  import opened ServerParts
  import opened ServerSafety
  import opened ServerLocks
  import opened CacheTransparency
  import CacheAge
  import CacheFreshness
  import CacheManager
  import SingleFlight

  // ---------------------------------------------------------------------------------
  // The age of an answer
  // ---------------------------------------------------------------------------------

  /** Event k answers a call from the cache: at once, or when it wakes behind another caller. */
  predicate Answered(cfg: Settings, ss: seq<State>, es: seq<Event>, k: nat, id: nat)
    requires k < |es| && |ss| == |es| + 1
  {
    && id < |ss[k + 1].flights| && UsesCache(cfg, ss[k + 1].flights[id].call) && ss[k + 1].flights[id].stage.Done?
    && match es[k]
       case Begin(_, _) => id == |ss[k].flights|
       case Wake(i, _) => id == i
       case _ => false
  }

  lemma AnswerIsRead(cfg: Settings, ss: seq<State>, es: seq<Event>, k: nat, id: nat)
    requires IsRun(cfg, ss, es) && k < |es| && Answered(cfg, ss, es, k, id)
    ensures var f := ss[k + 1].flights[id];
            var r := CacheManager.CacheGet(cfg.cache, ss[k].cache.c, KeyOf(cfg, f.call), At(es[k])).1;
            r.Some? && f.stage == Stage.Done(Returned(r.value)) && ss[k].cache.clock <= At(es[k])
  {
    StepOf(cfg, ss, es, k);
    AlwaysTied(cfg, ss, es, k);
    if es[k].Wake? {
      assert FlightAtCache(cfg, ss[k], id);
    }
  }

  /** Event k ends a call of `key` with a value, at a time. */
  predicate Produces(cfg: Settings, ss: seq<State>, es: seq<Event>, k: nat, key: string, v: Response, at: real)
    requires k < |es| && |ss| == |es| + 1
  {
    && es[k].AttemptEnds? && At(es[k]) == at && es[k].id < |ss[k].flights| && es[k].id < |ss[k + 1].flights|
    && OfKey(cfg, key)(ss[k].flights[es[k].id].call) && ss[k + 1].flights[es[k].id].stage == Stage.Done(Returned(v))
  }

  /** Only a call's own execution writes to the cache. */
  lemma WriteIsProduced(cfg: Settings, ss: seq<State>, es: seq<Event>, k: nat, key: string, v: Response,
                        ttl: Option<int>,
                        at: real)
    requires IsRun(cfg, ss, es) && k < |es| && CacheEvent(cfg, ss[k], es[k]).Some?
    requires CacheAge.OpOf(ss[k].cache, CacheEvent(cfg, ss[k], es[k]).value)
             == Some(CacheFreshness.SetOp(key, v, ttl, at))
    ensures Produces(cfg, ss, es, k, key, v, at) && ttl == TtlOf(ss[k].flights[es[k].id].call)
  {
    StepOf(cfg, ss, es, k);
    AlwaysTied(cfg, ss, es, k);
    assert !es[k].Begin? && !es[k].Decide? && !es[k].Direct?;
    assert FlightAtCache(cfg, ss[k], es[k].id);
  }

  /** Event m drops the key: it is deleted, or a prefix of it invalidated. */
  predicate Drops(es: seq<Event>, m: nat, key: string)
    requires m < |es|
  {
    es[m].Direct? && SingleFlight.Disturbs(SingleFlight.Direct(es[m].op), key)
  }

  /** Event m leaves the key as it is: no call of the key ends with a value, and nobody drops it. */
  ghost predicate Keeps(cfg: Settings, ss: seq<State>, es: seq<Event>, m: nat, key: string)
    requires m < |es| && |ss| == |es| + 1
  {
    !Drops(es, m, key) && forall v :: !Produces(cfg, ss, es, m, key, v, At(es[m]))
  }

  ghost predicate KeptSince(cfg: Settings, ss: seq<State>, es: seq<Event>, i: nat, k: nat, key: string)
    requires k <= |es| && |ss| == |es| + 1
  {
    forall m :: i < m < k ==> Keeps(cfg, ss, es, m, key)
  }

  /** What produces or drops reaches the cache. */
  lemma ChangesReachCache(cfg: Settings, ss: seq<State>, es: seq<Event>, m: nat, key: string)
    requires IsRun(cfg, ss, es) && m < |es|
    ensures !Keeps(cfg, ss, es, m, key) ==>
              CacheEvent(cfg, ss[m], es[m]).Some? &&
              !CacheAge.Keeps(ss[m].cache, CacheEvent(cfg, ss[m], es[m]).value, key)
  {
    StepOf(cfg, ss, es, m);
    AlwaysTied(cfg, ss, es, m);
    if v :| Produces(cfg, ss, es, m, key, v, At(es[m])) {
      assert FlightAtCache(cfg, ss[m], es[m].id);
    }
  }

  lemma KeptInServer(cfg: Settings, ss: seq<State>, es: seq<Event>, n: nat, key: string, steps: seq<nat>,
                     cs: seq<SingleFlight.System<Response>>, ces: seq<SingleFlight.Event<Response>>, j: nat)
    requires IsRun(cfg, ss, es) && n <= |es| && CacheProjection(cfg, ss, es, n, steps, cs, ces) && j < |steps|
    requires CacheAge.KeptSince(cs, ces, j, |ces|, key)
    ensures KeptSince(cfg, ss, es, steps[j], n, key)
  {
    forall m: nat | steps[j] < m < n ensures Keeps(cfg, ss, es, m, key) {
      if CacheEvent(cfg, ss[m], es[m]).Some? {
        var i :| 0 <= i < |steps| && steps[i] == m;
        assert CacheAge.Keeps(cs[i], ces[i], key);
      }
      ChangesReachCache(cfg, ss, es, m, key);
    }
  }

  /** In every run, a call answered from the cache gets the value that the last call of its key to
      end with one produced, which nobody has deleted or invalidated since, no longer ago than that
      call's ttl and the in-process ttl together. */
  lemma AnswersAreFresh(cfg: Settings, ss: seq<State>, es: seq<Event>, k: nat, id: nat) returns (i: nat, v: Response)
    requires IsRun(cfg, ss, es) && k < |es| && Answered(cfg, ss, es, k, id)
    ensures ss[k + 1].flights[id].stage == Stage.Done(Returned(v))
    ensures i < k && Produces(cfg, ss, es, i, KeyOf(cfg, ss[k + 1].flights[id].call), v, At(es[i]))
    ensures At(es[k]) <= At(es[i]) + CacheManager.L2Ttl(cfg.cache, TtlOf(ss[i].flights[es[i].id].call)) as real
                         + CacheFreshness.Stretch(cfg.cache)
    ensures CacheManager.L2Ttl(cfg.cache, TtlOf(ss[i].flights[es[i].id].call)) >= 0
    ensures KeptSince(cfg, ss, es, i, k, KeyOf(cfg, ss[k + 1].flights[id].call))
  {
    var key := KeyOf(cfg, ss[k + 1].flights[id].call);
    AnswerIsRead(cfg, ss, es, k, id);
    v := CacheManager.CacheGet(cfg.cache, ss[k].cache.c, key, At(es[k])).1.value;
    var steps, cs, ces := CacheRefines(cfg, ss, es, k);
    var j, ttl, written := CacheAge.AnswersAreFresh(cfg.cache, cs, ces, |ces|, key, At(es[k]));
    i := steps[j];
    WriteIsProduced(cfg, ss, es, i, key, v, ttl, written);
    KeptInServer(cfg, ss, es, k, key, steps, cs, ces, j);
  }

  // ---------------------------------------------------------------------------------
  // One execution per miss
  // ---------------------------------------------------------------------------------

  /** A call that executed ran the computation of its key. */
  predicate AttemptsRan(cfg: Settings, s: State, id: nat)
    requires id < |s.flights|
  {
    UsesCache(cfg, s.flights[id].call) && s.flights[id].attempts > 0 ==>
      SingleFlight.Ran(s.cache, id, KeyOf(cfg, s.flights[id].call))
  }

  lemma MovedRan(cfg: Settings, s: State, e: Event, id: nat)
    requires Enabled(cfg, s, e) && Moves(e, id) && id < |s.flights|
    requires AttemptsRan(cfg, s, id) && FlightAtCache(cfg, s, id)
    ensures id < |Next(cfg, s, e).flights| && AttemptsRan(cfg, Next(cfg, s, e), id)
  {
  }

  lemma OthersRan(cfg: Settings, s: State, e: Event, id: nat)
    requires Enabled(cfg, s, e) && !Moves(e, id) && id < |Next(cfg, s, e).flights|
    requires id < |s.flights| ==> AttemptsRan(cfg, s, id)
    ensures AttemptsRan(cfg, Next(cfg, s, e), id)
  {
    if !e.Begin? {
      FlightsKept(cfg, s, e, id);
      OtherCallersKept(cfg, s, e, id);
    }
  }

  lemma {:induction false} AlwaysRan(cfg: Settings, ss: seq<State>, es: seq<Event>, n: nat, id: nat)
    requires IsRun(cfg, ss, es) && n <= |es| && id < |ss[n].flights|
    ensures AttemptsRan(cfg, ss[n], id)
  {
    if n > 0 {
      StepOf(cfg, ss, es, n - 1);
      if id < |ss[n - 1].flights| {
        AlwaysRan(cfg, ss, es, n - 1, id);
        AlwaysTied(cfg, ss, es, n - 1);
      }
      if Moves(es[n - 1], id) {
        MovedRan(cfg, ss[n - 1], es[n - 1], id);
      } else {
        OthersRan(cfg, ss[n - 1], es[n - 1], id);
      }
    }
  }

  /** Event k ends a call of `key` that was not asleep behind another. */
  predicate Ends(cfg: Settings, ss: seq<State>, es: seq<Event>, k: nat, key: string)
    requires k < |es| && |ss| == |es| + 1
  {
    && !es[k].Begin? && !es[k].Decide? && !es[k].Direct? && es[k].id < |ss[k].flights| && es[k].id < |ss[k + 1].flights|
    && OfKey(cfg, key)(ss[k].flights[es[k].id].call) && !ss[k].flights[es[k].id].stage.AtCache?
    && ss[k + 1].flights[es[k].id].stage.Done?
  }

  predicate EndsWell(cfg: Settings, ss: seq<State>, es: seq<Event>, k: nat, key: string)
    requires k < |es| && |ss| == |es| + 1
  {
    Ends(cfg, ss, es, k, key) ==> ss[k + 1].flights[es[k].id].stage.outcome.Returned?
  }

  predicate EndsLate(cfg: Settings, ss: seq<State>, es: seq<Event>, k: nat, m: nat, key: string)
    requires k < m < |es| && |ss| == |es| + 1
  {
    Ends(cfg, ss, es, k, key) ==>
      At(es[m]) <= At(es[k]) + CacheManager.L2Ttl(cfg.cache, TtlOf(ss[k].flights[es[k].id].call)) as real
  }

  /** Every call of the key that executes returns a value within the bound of its launch, nobody
      drops the key, and no event comes after the value has expired. */
  ghost predicate CalmWithin(cfg: Settings, ss: seq<State>, es: seq<Event>, key: string, bound: real)
    requires |ss| == |es| + 1
  {
    && (forall k :: 0 <= k < |es| && es[k].Direct? ==> !SingleFlight.Disturbs(SingleFlight.Direct(es[k].op), key))
    && (forall k, id {:trigger es[k], ss[k].flights[id]} ::
          0 <= k < |es| && 0 <= id < |ss[k].flights| && OfKey(cfg, key)(ss[k].flights[id].call) &&
          Executing(ss[k].flights[id])
          ==> At(es[k]) - ss[k].flights[id].launched < bound)
    && (forall k :: 0 <= k < |es| ==> EndsWell(cfg, ss, es, k, key))
    && (forall k, m :: 0 <= k < m < |es| ==> EndsLate(cfg, ss, es, k, m, key))
  }

  /** Within a waiter's patience. */
  ghost predicate Calm(cfg: Settings, ss: seq<State>, es: seq<Event>, key: string)
    requires |ss| == |es| + 1
  {
    CalmWithin(cfg, ss, es, key, SingleFlight.Patience())
  }

  lemma CalmComputes(cfg: Settings, ss: seq<State>, es: seq<Event>, key: string, lag: real, k: nat, id: nat)
    requires IsRun(cfg, ss, es) && OnTime(ss, es, lag) && Calm(cfg, ss, es, key) && k < |es|
    requires SingleFlight.CallerOn(ss[k].cache, id, key) && ss[k].cache.callers[id].phase.Computing?
    ensures At(es[k]) - ss[k].cache.callers[id].phase.since < SingleFlight.Patience()
  {
    AlwaysTied(cfg, ss, es, k);
    assert FlightAtCache(cfg, ss[k], id);
    AlwaysComputesSince(cfg, ss, es, lag, k, id);
    assert Due(ss[k].flights[id], At(es[k]), lag);
  }

  /** The cache sees the end of a call as the server does. */
  lemma ReturnIsEnd(cfg: Settings, ss: seq<State>, es: seq<Event>, key: string, k: nat)
    requires IsRun(cfg, ss, es) && k < |es| && CacheEvent(cfg, ss[k], es[k]).Some?
    requires SingleFlight.ReturnsOn(ss[k].cache, CacheEvent(cfg, ss[k], es[k]).value, key)
    ensures Ends(cfg, ss, es, k, key)
    ensures var ce := CacheEvent(cfg, ss[k], es[k]).value;
            && ce.outcome == ss[k + 1].flights[es[k].id].stage.outcome && ce.id == es[k].id
            && ss[k].cache.callers[ce.id].ttl == TtlOf(ss[k].flights[es[k].id].call)
  {
    StepOf(cfg, ss, es, k);
    AlwaysTied(cfg, ss, es, k);
    assert !es[k].Begin? && !es[k].Decide? && !es[k].Direct?;
    assert FlightAtCache(cfg, ss[k], es[k].id);
  }

  lemma CacheEventTime(cfg: Settings, s: State, e: Event)
    requires CacheEvent(cfg, s, e).Some?
    ensures SingleFlight.At(CacheEvent(cfg, s, e).value) == At(e)
    ensures CacheEvent(cfg, s, e).value.Direct? ==> e.Direct? && CacheEvent(cfg, s, e).value.op == e.op
  {
  }

  lemma ComputesProject(cfg: Settings, ss: seq<State>, es: seq<Event>, key: string, lag: real, n: nat, steps: seq<nat>,
                        cs: seq<SingleFlight.System<Response>>, ces: seq<SingleFlight.Event<Response>>, i: nat)
    requires IsRun(cfg, ss, es) && OnTime(ss, es, lag) && Calm(cfg, ss, es, key) && i < |ces|
    requires n <= |es| && CacheProjection(cfg, ss, es, n, steps, cs, ces)
    ensures !SingleFlight.Disturbs(ces[i], key)
    ensures forall id :: SingleFlight.CallerOn(cs[i], id, key) && cs[i].callers[id].phase.Computing? ==>
              SingleFlight.At(ces[i]) - cs[i].callers[id].phase.since < SingleFlight.Patience()
  {
    CacheEventTime(cfg, ss[steps[i]], es[steps[i]]);
    forall id | SingleFlight.CallerOn(cs[i], id, key) && cs[i].callers[id].phase.Computing?
      ensures SingleFlight.At(ces[i]) - cs[i].callers[id].phase.since < SingleFlight.Patience()
    {
      CalmComputes(cfg, ss, es, key, lag, steps[i], id);
    }
  }

  lemma ReturnExpires(cfg: Settings, ss: seq<State>, es: seq<Event>, key: string, lag: real, k: nat, m: nat)
    requires IsRun(cfg, ss, es) && OnTime(ss, es, lag) && Calm(cfg, ss, es, key) && k < m < |es|
    requires CacheEvent(cfg, ss[k], es[k]).Some? && CacheEvent(cfg, ss[m], es[m]).Some?
    requires SingleFlight.ReturnsOn(ss[k].cache, CacheEvent(cfg, ss[k], es[k]).value, key)
    ensures var ce, later := CacheEvent(cfg, ss[k], es[k]).value, CacheEvent(cfg, ss[m], es[m]).value;
            SingleFlight.At(later) <= SingleFlight.At(ce)
                                      + CacheManager.L2Ttl(cfg.cache, ss[k].cache.callers[ce.id].ttl) as real
  {
    ReturnIsEnd(cfg, ss, es, key, k);
    CacheEventTime(cfg, ss[k], es[k]);
    CacheEventTime(cfg, ss[m], es[m]);
    assert EndsLate(cfg, ss, es, k, m, key);
  }

  lemma ReturnsProject(cfg: Settings, ss: seq<State>, es: seq<Event>, key: string, lag: real, n: nat, steps: seq<nat>,
                       cs: seq<SingleFlight.System<Response>>, ces: seq<SingleFlight.Event<Response>>, i: nat)
    requires IsRun(cfg, ss, es) && OnTime(ss, es, lag) && Calm(cfg, ss, es, key)
    requires n <= |es| && CacheProjection(cfg, ss, es, n, steps, cs, ces)
    requires i < |ces| && SingleFlight.ReturnsOn(cs[i], ces[i], key)
    ensures ces[i].outcome.Returned?
    ensures forall j :: i < j < |ces| ==>
              SingleFlight.At(ces[j]) <= SingleFlight.At(ces[i])
                                         + CacheManager.L2Ttl(cfg.cache, cs[i].callers[ces[i].id].ttl) as real
  {
    ReturnIsEnd(cfg, ss, es, key, steps[i]);
    assert EndsWell(cfg, ss, es, steps[i], key);
    forall j | i < j < |ces|
      ensures SingleFlight.At(ces[j]) <= SingleFlight.At(ces[i])
                                         + CacheManager.L2Ttl(cfg.cache, cs[i].callers[ces[i].id].ttl) as real
    {
      ReturnExpires(cfg, ss, es, key, lag, steps[i], steps[j]);
    }
  }

  lemma CalmProjects(cfg: Settings, ss: seq<State>, es: seq<Event>, key: string, lag: real, n: nat, steps: seq<nat>,
                     cs: seq<SingleFlight.System<Response>>, ces: seq<SingleFlight.Event<Response>>)
    requires IsRun(cfg, ss, es) && OnTime(ss, es, lag) && Calm(cfg, ss, es, key)
    requires n <= |es| && CacheProjection(cfg, ss, es, n, steps, cs, ces)
    ensures SingleFlight.Calm(cfg.cache, cs, ces, key)
  {
    forall i | 0 <= i < |ces|
      ensures !SingleFlight.Disturbs(ces[i], key)
      ensures forall id :: SingleFlight.CallerOn(cs[i], id, key) && cs[i].callers[id].phase.Computing? ==>
                SingleFlight.At(ces[i]) - cs[i].callers[id].phase.since < SingleFlight.Patience()
    {
      ComputesProject(cfg, ss, es, key, lag, n, steps, cs, ces, i);
    }
    forall i | 0 <= i < |ces| && SingleFlight.ReturnsOn(cs[i], ces[i], key)
      ensures ces[i].outcome.Returned?
      ensures forall j :: i < j < |ces| ==>
                SingleFlight.At(ces[j]) <= SingleFlight.At(ces[i])
                                           + CacheManager.L2Ttl(cfg.cache, cs[i].callers[ces[i].id].ttl) as real
    {
      ReturnsProject(cfg, ss, es, key, lag, n, steps, cs, ces, i);
    }
  }

  /** A call of the key past the guards. */
  predicate Asks(cfg: Settings, s: State, key: string, id: nat) {
    id < |s.flights| && OfKey(cfg, key)(s.flights[id].call) && !s.flights[id].stage.Refused?
  }

  /** Only the leader executes, and whoever is answered gets its outcome. */
  ghost predicate Leads(cfg: Settings, s: State, key: string, leader: nat) {
    && Asks(cfg, s, key, leader)
    && forall id: nat :: Asks(cfg, s, key, id) && id != leader ==>
         && s.flights[id].attempts == 0
         && (s.flights[id].stage.Done? && s.flights[id].stage.outcome != Aborted ==>
               s.flights[leader].stage == s.flights[id].stage)
  }

  lemma SoleIsLeader(cfg: Settings, ss: seq<State>, es: seq<Event>, n: nat, key: string, leader: nat)
    requires IsRun(cfg, ss, es) && n <= |es| && SingleFlight.SoleComputation(ss[n].cache, key, leader)
    ensures Leads(cfg, ss[n], key, leader)
  {
    AlwaysTied(cfg, ss, es, n);
    assert FlightAtCache(cfg, ss[n], leader);
    forall id: nat | Asks(cfg, ss[n], key, id) && id != leader
      ensures ss[n].flights[id].attempts == 0
      ensures ss[n].flights[id].stage.Done? && ss[n].flights[id].stage.outcome != Aborted ==>
                ss[n].flights[leader].stage == ss[n].flights[id].stage
    {
      AlwaysRan(cfg, ss, es, n, id);
      assert FlightAtCache(cfg, ss[n], id) && SingleFlight.CallerOn(ss[n].cache, id, key);
    }
  }

  /** In a calm run, on time, however many calls of one key get past the guards in whatever
      interleaving, one of them executes and the others are answered with its value, or are
      abandoned by their clients while asleep. */
  lemma ExecutedOnce(cfg: Settings, ss: seq<State>, es: seq<Event>, key: string, lag: real, n: nat)
    requires IsRun(cfg, ss, es) && OnTime(ss, es, lag) && Calm(cfg, ss, es, key) && n <= |es|
    ensures (forall id: nat :: !Asks(cfg, ss[n], key, id)) || exists leader :: Leads(cfg, ss[n], key, leader)
  {
    var steps, cs, ces := CacheRefines(cfg, ss, es, n);
    CalmProjects(cfg, ss, es, key, lag, n, steps, cs, ces);
    SingleFlight.ComputedOnce(cfg.cache, cs, ces, key, |ces|);
    if leader :| SingleFlight.SoleComputation(ss[n].cache, key, leader) {
      SoleIsLeader(cfg, ss, es, n, key, leader);
    } else {
      NoCallersNoCalls(cfg, ss, es, n, key);
    }
  }

  lemma NoCallersNoCalls(cfg: Settings, ss: seq<State>, es: seq<Event>, n: nat, key: string)
    requires IsRun(cfg, ss, es) && n <= |es| && forall id :: !SingleFlight.CallerOn(ss[n].cache, id, key)
    ensures forall id: nat :: !Asks(cfg, ss[n], key, id)
  {
    AlwaysTied(cfg, ss, es, n);
    forall id: nat ensures !Asks(cfg, ss[n], key, id) {
      if Asks(cfg, ss[n], key, id) {
        assert FlightAtCache(cfg, ss[n], id);
        assert SingleFlight.CallerOn(ss[n].cache, id, key);
      }
    }
  }
}
