/**
  The stampede locks in the server: when no two dispatched calls hold the lock of one cache key.
*/
module ServerLocks {
  import opened Errors
  import opened Server
  import opened ServerRuns
  import opened ServerParts
  import opened ServerSafety
  import CacheManager
  import SingleFlight

  const LOCK_TTL := CacheManager.Seconds(CacheManager.STAMPEDE_LOCK_TTL_MS)

  // ---------------------------------------------------------------------------------
  // The exact condition
  // ---------------------------------------------------------------------------------

  /** A call of `key` gets past the guards and misses both tiers while a call has held the key's
      lock for the lock's time to live or longer. */
  ghost predicate LateBegin(cfg: Settings, s: State, e: Event, key: string) {
    && e.Begin? && OfKey(cfg, key)(e.call) && Guarded(cfg, s.guards, e.call, e.at).1.None?
    && CacheManager.CacheGet(cfg.cache, s.cache.c, key, e.at).1.None?
    && exists id :: SingleFlight.Holds(s.cache, id, key) && e.at - s.cache.callers[id].phase.since >= LOCK_TTL
  }

  lemma LateBeginIsLateArrival(cfg: Settings, s: State, e: Event, key: string)
    ensures LateBegin(cfg, s, e, key) <==>
            CacheEvent(cfg, s, e).Some? &&
            SingleFlight.LateArrival(cfg.cache, s.cache, CacheEvent(cfg, s, e).value, key)
  {
  }

  lemma NoLateArrivals(cfg: Settings, ss: seq<State>, es: seq<Event>, key: string, n: nat)
    requires IsRun(cfg, ss, es) && n <= |es|
    requires forall k :: 0 <= k < |es| ==> !LateBegin(cfg, ss[k], es[k], key)
    ensures SingleFlight.LockExclusive(ss[n].cache, key)
  {
    var steps, cs, ces := CacheRefines(cfg, ss, es, n);
    forall i | 0 <= i < |ces| ensures !SingleFlight.LateArrival(cfg.cache, cs[i], ces[i], key) {
      LateBeginIsLateArrival(cfg, ss[steps[i]], es[steps[i]], key);
    }
    SingleFlight.ExclusiveIffNoLateArrival(cfg.cache, cs, ces, key);
    assert SingleFlight.LockExclusive(cs[|ces|], key);
  }

  lemma ExclusiveMeansNotLate(cfg: Settings, ss: seq<State>, es: seq<Event>, key: string, k: nat)
    requires IsRun(cfg, ss, es) && k < |es|
    requires forall n :: 0 <= n <= |es| ==> SingleFlight.LockExclusive(ss[n].cache, key)
    ensures !LateBegin(cfg, ss[k], es[k], key)
  {
    var steps, cs, ces := CacheRefines(cfg, ss, es, |es|);
    forall i | 0 <= i <= |ces| ensures SingleFlight.LockExclusive(cs[i], key) {
      assert cs[i] == if i < |ces| then ss[steps[i]].cache else ss[|es|].cache;
    }
    SingleFlight.ExclusiveIffNoLateArrival(cfg.cache, cs, ces, key);
    LateBeginIsLateArrival(cfg, ss[k], es[k], key);
    if CacheEvent(cfg, ss[k], es[k]).Some? {
      var i :| 0 <= i < |steps| && steps[i] == k;
      assert !SingleFlight.LateArrival(cfg.cache, cs[i], ces[i], key);
    }
  }

  /** In any run of the server no two dispatched calls ever hold the lock of a key if and only if
      no call of the key begins, past the guards and at a miss, while a call has held it for the
      lock's time to live or longer. */
  lemma LocksExclusiveIff(cfg: Settings, ss: seq<State>, es: seq<Event>, key: string)
    requires IsRun(cfg, ss, es)
    ensures (forall n :: 0 <= n <= |es| ==> SingleFlight.LockExclusive(ss[n].cache, key))
            <==> (forall k :: 0 <= k < |es| ==> !LateBegin(cfg, ss[k], es[k], key))
  {
    if forall k :: 0 <= k < |es| ==> !LateBegin(cfg, ss[k], es[k], key) {
      forall n | 0 <= n <= |es| ensures SingleFlight.LockExclusive(ss[n].cache, key) {
        NoLateArrivals(cfg, ss, es, key, n);
      }
    }
    if forall n :: 0 <= n <= |es| ==> SingleFlight.LockExclusive(ss[n].cache, key) {
      forall k | 0 <= k < |es| ensures !LateBegin(cfg, ss[k], es[k], key) {
        ExclusiveMeansNotLate(cfg, ss, es, key, k);
      }
    }
  }

  // ---------------------------------------------------------------------------------
  // Timeouts below the lock's time to live
  // ---------------------------------------------------------------------------------

  /** A computation began when its call became ready, or was launched. */
  predicate ComputesSince(cfg: Settings, s: State, id: nat)
    requires id < |s.flights|
  {
    var f := s.flights[id];
    UsesCache(cfg, f.call) && id in s.cache.callers && s.cache.callers[id].phase.Computing? ==>
      match f.stage
      case Ready(since) => s.cache.callers[id].phase.since == since
      case Running(_) => s.cache.callers[id].phase.since == f.launched
      case Pausing(_, _) => s.cache.callers[id].phase.since == f.launched
      case _ => true
  }

  lemma OthersComputeSince(cfg: Settings, s: State, e: Event, id: nat)
    requires Enabled(cfg, s, e) && !e.Begin? && !Moves(e, id) && id < |s.flights| && ComputesSince(cfg, s, id)
    ensures id < |Next(cfg, s, e).flights| && ComputesSince(cfg, Next(cfg, s, e), id)
  {
    FlightsKept(cfg, s, e, id);
    OtherCallersKept(cfg, s, e, id);
  }

  lemma ComputesSinceStep(cfg: Settings, s: State, e: Event, lag: real, id: nat)
    requires Enabled(cfg, s, e) && id < |Next(cfg, s, e).flights| && (e.Begin? || Moves(e, id))
    requires id < |s.flights| ==>
               ComputesSince(cfg, s, id) && Due(s.flights[id], At(e), lag) && FlightAtCache(cfg, s, id)
    ensures ComputesSince(cfg, Next(cfg, s, e), id)
  {
  }

  lemma {:induction false} AlwaysComputesSince(cfg: Settings, ss: seq<State>, es: seq<Event>, lag: real, n: nat,
                                               id: nat)
    requires IsRun(cfg, ss, es) && OnTime(ss, es, lag) && n <= |es| && id < |ss[n].flights|
    ensures ComputesSince(cfg, ss[n], id)
  {
    if n > 0 {
      var s, e := ss[n - 1], es[n - 1];
      StepOf(cfg, ss, es, n - 1);
      if id < |s.flights| {
        AlwaysComputesSince(cfg, ss, es, lag, n - 1, id);
        AlwaysTied(cfg, ss, es, n - 1);
        assert Due(s.flights[id], At(e), lag) && FlightAtCache(cfg, s, id);
      }
      if e.Begin? || Moves(e, id) {
        ComputesSinceStep(cfg, s, e, lag, id);
      } else {
        OthersComputeSince(cfg, s, e, id);
      }
    }
  }

  lemma ComputesShort(cfg: Settings, ss: seq<State>, es: seq<Event>, key: string, lag: real, n: nat, id: nat)
    requires IsRun(cfg, ss, es) && OnTime(ss, es, lag) && n < |es| && SingleFlight.Holds(ss[n].cache, id, key)
    requires AllottedBelow(ss, es, OfKey(cfg, key), LOCK_TTL - lag) && lag >= 0.0
    ensures At(es[n]) - ss[n].cache.callers[id].phase.since < LOCK_TTL
  {
    AlwaysTied(cfg, ss, es, n);
    assert FlightAtCache(cfg, ss[n], id);
    AlwaysComputesSince(cfg, ss, es, lag, n, id);
    AlwaysCutBelow(cfg, ss, es, OfKey(cfg, key), LOCK_TTL - lag, n, id);
    assert Due(ss[n].flights[id], At(es[n]), lag);
  }

  lemma NeverLate(cfg: Settings, ss: seq<State>, es: seq<Event>, key: string, lag: real, k: nat)
    requires IsRun(cfg, ss, es) && OnTime(ss, es, lag) && k < |es|
    requires AllottedBelow(ss, es, OfKey(cfg, key), LOCK_TTL - lag) && lag >= 0.0
    ensures !LateBegin(cfg, ss[k], es[k], key)
  {
    forall id | SingleFlight.Holds(ss[k].cache, id, key)
      ensures At(es[k]) - ss[k].cache.callers[id].phase.since < LOCK_TTL
    {
      ComputesShort(cfg, ss, es, key, lag, k, id);
    }
  }

  /** If every timeout that the calls of one key are allotted stays, with the lag of its cut, below
      the lock's time to live, no two of them ever hold the key's lock. Calls of other keys are
      unrestricted. */
  lemma LocksExclusive(cfg: Settings, ss: seq<State>, es: seq<Event>, key: string, lag: real, n: nat)
    requires IsRun(cfg, ss, es) && OnTime(ss, es, lag) && n <= |es|
    requires AllottedBelow(ss, es, OfKey(cfg, key), LOCK_TTL - lag) && lag >= 0.0
    ensures SingleFlight.LockExclusive(ss[n].cache, key)
  {
    forall k | 0 <= k < |es| ensures !LateBegin(cfg, ss[k], es[k], key) {
      NeverLate(cfg, ss, es, key, lag, k);
    }
    NoLateArrivals(cfg, ss, es, key, n);
  }
}
