/**
  Every interleaving of `get_or_compute` callers, on any keys, with direct operations on the
  cache. A caller suspends only while it computes or sleeps, so each event below is one
  uninterrupted stretch of its body; times never go back.
*/
module SingleFlight {
  import opened Errors
  import opened Lru
  import opened CacheManager
  import opened CacheFacts
  import opened CacheFreshness

  /** Where a caller is: computing (with or without the lock), asleep with `left` re-reads to
      go, or finished; `computed` tells whether it ran the computation itself. */
  datatype Phase<V> =
    | Computing(holder: bool, since: real)
    | Waiting(left: nat, since: real)
    | Done(outcome: Outcome<V>, computed: bool)

  datatype Caller<V> = Caller(key: Key, ttl: Option<int>, phase: Phase<V>)

  datatype Event<V> =
    | Arrive(id: nat, key: Key, ttl: Option<int>, time: real)
    | Wake(id: nat, time: real)
    | Return(id: nat, outcome: Outcome<V>, time: real)
    | Cancel(id: nat, time: real)
    | Direct(op: Op<V>)

  datatype System<V> = System(c: Cache<V>, clock: real, callers: map<nat, Caller<V>>)

  function At<V>(e: Event<V>): real {
    if e.Direct? then e.op.at else e.time
  }

  predicate Enabled<V>(s: System<V>, e: Event<V>) {
    && At(e) >= s.clock
    && match e
       case Arrive(id, _, _, _) => id !in s.callers
       case Wake(id, at) =>
         id in s.callers && s.callers[id].phase.Waiting? && s.callers[id].phase.left > 0
         && at >= s.callers[id].phase.since + Seconds(STAMPEDE_WAIT_MS)
       case Return(id, _, _) => id in s.callers && s.callers[id].phase.Computing?
       case Cancel(id, _) => id in s.callers && s.callers[id].phase.Waiting?
       case Direct(_) => true
  }

  function Moved<V>(s: System<V>, c: Cache<V>, at: real, id: nat, caller: Caller<V>): System<V> {
    System(c, at, s.callers[id := caller])
  }

  function Next<V>(cfg: Settings, s: System<V>, e: Event<V>): System<V>
    requires Enabled(s, e)
  {
    match e
    case Arrive(id, key, ttl, at) =>
      var (d, a) := CacheArrive(cfg, s.c, key, at);
      var phase := match a
                   case Hit(v) => Done(Returned(v), false)
                   case Compute => Computing(true, at)
                   case Wait => Waiting(STAMPEDE_MAX_WAITS, at);
      Moved(s, d, at, id, Caller(key, ttl, phase))
    case Wake(id, at) =>
      var caller := s.callers[id];
      var (d, hit) := CacheGet(cfg, s.c, caller.key, at);
      var phase := if hit.Some? then Done(Returned(hit.value), false)
                   else if caller.phase.left == 1 then Computing(false, at)
                   else Waiting(caller.phase.left - 1, at);
      Moved(s, d, at, id, caller.(phase := phase))
    case Return(id, outcome, at) =>
      var caller := s.callers[id];
      Moved(s, CacheComplete(cfg, s.c, caller.key, caller.phase.holder, outcome, caller.ttl, at), at, id,
            caller.(phase := Done(outcome, true)))
    case Cancel(id, at) =>
      Moved(s, s.c, at, id, s.callers[id].(phase := Done(Aborted, false)))
    case Direct(op) => s.(c := Apply(cfg, s.c, op), clock := op.at)
  }

  ghost predicate IsRun<V>(cfg: Settings, ss: seq<System<V>>, es: seq<Event<V>>) {
    && |ss| == |es| + 1
    && ss[0].callers == map[] && DistinctKeys(ss[0].c.l1)
    && forall i {:trigger es[i]} :: 0 <= i < |es| ==> Enabled(ss[i], es[i]) && ss[i + 1] == Next(cfg, ss[i], es[i])
  }

  /** The key an event reads or writes through a caller or directly; None for prefix invalidation. */
  function Touches<V>(s: System<V>, e: Event<V>): Option<Key>
    requires Enabled(s, e)
  {
    match e
    case Arrive(_, key, _, _) => Some(key)
    case Wake(id, _) => Some(s.callers[id].key)
    case Return(id, _, _) => Some(s.callers[id].key)
    case Cancel(id, _) => Some(s.callers[id].key)
    case Direct(GetOp(key, _)) => Some(key)
    case Direct(SetOp(key, _, _, _)) => Some(key)
    case Direct(DeleteOp(key, _)) => Some(key)
    case Direct(InvalidateOp(_, _)) => None
  }

  lemma LockKeyInjective(a: Key, b: Key)
    requires LockKey(a) == LockKey(b)
    ensures a == b
  {
    assert a == LockKey(a)[..|LockKey(a)| - 5] && b == LockKey(b)[..|LockKey(b)| - 5];
  }

  // ---------------------------------------------------------------------------------
  // At most one caller holds the lock of a key
  // ---------------------------------------------------------------------------------

  predicate Holds<V>(s: System<V>, id: nat, key: Key) {
    id in s.callers && s.callers[id].key == key && s.callers[id].phase.Computing? && s.callers[id].phase.holder
  }

  ghost predicate LockExclusive<V>(s: System<V>, key: Key) {
    forall p, q :: Holds(s, p, key) && Holds(s, q, key) ==> p == q
  }

  /** A caller arrives for `key`, misses both tiers, and finds a holder of age 5 s or more. */
  ghost predicate LateArrival<V>(cfg: Settings, s: System<V>, e: Event<V>, key: Key) {
    && e.Arrive? && e.key == key && CacheGet(cfg, s.c, key, e.time).1.None?
    && exists id :: Holds(s, id, key) && e.time - s.callers[id].phase.since >= Seconds(STAMPEDE_LOCK_TTL_MS)
  }

  ghost predicate LockInv<V>(s: System<V>, key: Key) {
    && LockExclusive(s, key)
    && forall id :: Holds(s, id, key) ==>
         LockKey(key) in s.c.locks
         && s.c.locks[LockKey(key)] == s.callers[id].phase.since + Seconds(STAMPEDE_LOCK_TTL_MS)
  }

  /** The lock entry of `key` changes only when a caller of that key acquires or releases it. */
  lemma LocksOf<V>(cfg: Settings, s: System<V>, e: Event<V>, key: Key)
    requires Enabled(s, e) && Touches(s, e) != Some(key)
    ensures var d := Next(cfg, s, e).c;
            (LockKey(key) in d.locks <==> LockKey(key) in s.c.locks)
            && (LockKey(key) in s.c.locks ==> d.locks[LockKey(key)] == s.c.locks[LockKey(key)])
  {
    if Touches(s, e).Some? && LockKey(Touches(s, e).value) == LockKey(key) {
      LockKeyInjective(Touches(s, e).value, key);
    }
  }

  lemma HoldersOf<V>(cfg: Settings, s: System<V>, e: Event<V>, key: Key, id: nat)
    requires Enabled(s, e)
    requires !(e.Arrive? && e.id == id) && !(e.Return? && e.id == id)
    ensures Holds(Next(cfg, s, e), id, key) <==> Holds(s, id, key)
    ensures Holds(s, id, key) ==> Next(cfg, s, e).callers[id] == s.callers[id]
  {
  }

  lemma LockArrival<V>(cfg: Settings, s: System<V>, e: Event<V>, key: Key)
    requires Enabled(s, e) && LockInv(s, key) && e.Arrive? && e.key == key
    ensures LateArrival(cfg, s, e, key) ==> !LockExclusive(Next(cfg, s, e), key)
    ensures !LateArrival(cfg, s, e, key) ==> LockInv(Next(cfg, s, e), key)
  {
    var t := Next(cfg, s, e);
    if LateArrival(cfg, s, e, key) {
      var id :| Holds(s, id, key) && e.time - s.callers[id].phase.since >= Seconds(STAMPEDE_LOCK_TTL_MS);
      assert Holds(t, id, key) && Holds(t, e.id, key);
    } else {
      forall id | Holds(t, id, key) && id != e.id ensures Holds(s, id, key) && !Holds(t, e.id, key) {
        HoldersOf(cfg, s, e, key, id);
      }
    }
  }

  lemma LockReturn<V>(cfg: Settings, s: System<V>, e: Event<V>, key: Key)
    requires Enabled(s, e) && LockInv(s, key) && e.Return? && s.callers[e.id].key == key
    ensures LockInv(Next(cfg, s, e), key)
  {
    var t := Next(cfg, s, e);
    forall id | Holds(t, id, key) ensures id != e.id && Holds(s, id, key) && t.callers[id] == s.callers[id] {
      if id != e.id {
        HoldersOf(cfg, s, e, key, id);
      }
    }
  }

  lemma LockElsewhere<V>(cfg: Settings, s: System<V>, e: Event<V>, key: Key)
    requires Enabled(s, e) && LockInv(s, key)
    requires !(e.Arrive? && e.key == key) && !(e.Return? && s.callers[e.id].key == key)
    ensures LockInv(Next(cfg, s, e), key)
  {
    var t := Next(cfg, s, e);
    if Touches(s, e) != Some(key) {
      LocksOf(cfg, s, e, key);
    } else {
      assert t.c.locks == s.c.locks;
    }
    forall id | Holds(t, id, key) ensures Holds(s, id, key) && t.callers[id] == s.callers[id] {
      if !(e.Arrive? && e.id == id) && !(e.Return? && e.id == id) {
        HoldersOf(cfg, s, e, key, id);
      }
    }
  }

  lemma LockStep<V>(cfg: Settings, s: System<V>, e: Event<V>, key: Key)
    requires Enabled(s, e) && LockInv(s, key)
    ensures LockInv(Next(cfg, s, e), key) <==> !LateArrival(cfg, s, e, key)
    ensures LateArrival(cfg, s, e, key) ==> !LockExclusive(Next(cfg, s, e), key)
  {
    if e.Arrive? && e.key == key {
      LockArrival(cfg, s, e, key);
    } else if e.Return? && s.callers[e.id].key == key {
      LockReturn(cfg, s, e, key);
    } else {
      LockElsewhere(cfg, s, e, key);
    }
  }

  lemma {:induction false} LockHolds<V>(cfg: Settings, ss: seq<System<V>>, es: seq<Event<V>>, key: Key, n: nat)
    requires IsRun(cfg, ss, es) && n <= |es|
    ensures LockInv(ss[n], key) ||
            exists i :: 0 <= i < n && LateArrival(cfg, ss[i], es[i], key) && !LockExclusive(ss[i + 1], key)
  {
    if n > 0 {
      LockHolds(cfg, ss, es, key, n - 1);
      assert Enabled(ss[n - 1], es[n - 1]);
      if LockInv(ss[n - 1], key) {
        LockStep(cfg, ss[n - 1], es[n - 1], key);
      }
    }
  }

  /** With failures, fallbacks, cancellations and invalidations allowed, no two callers ever
      hold the lock of a key if and only if nobody arrives at a miss while a holder has been
      computing for the lock's time to live or longer. */
  lemma ExclusiveIffNoLateArrival<V>(cfg: Settings, ss: seq<System<V>>, es: seq<Event<V>>, key: Key)
    requires IsRun(cfg, ss, es)
    ensures (forall n :: 0 <= n <= |es| ==> LockExclusive(ss[n], key))
            <==> (forall i :: 0 <= i < |es| ==> !LateArrival(cfg, ss[i], es[i], key))
  {
    forall n | 0 <= n <= |es|
      ensures LockInv(ss[n], key) ||
              exists i :: 0 <= i < n && LateArrival(cfg, ss[i], es[i], key) && !LockExclusive(ss[i + 1], key)
    {
      LockHolds(cfg, ss, es, key, n);
    }
    if (forall n :: 0 <= n <= |es| ==> LockExclusive(ss[n], key)) {
      forall i | 0 <= i < |es| ensures !LateArrival(cfg, ss[i], es[i], key) {
        assert LockInv(ss[i], key);
        assert Enabled(ss[i], es[i]);
        LockStep(cfg, ss[i], es[i], key);
        assert LockExclusive(ss[i + 1], key);
      }
    }
  }

  /** Computations under the lock's time to live never let two callers hold one key's lock. */
  lemma ShortComputesExclusive<V>(cfg: Settings, ss: seq<System<V>>, es: seq<Event<V>>, key: Key, n: nat)
    requires IsRun(cfg, ss, es) && n <= |es|
    requires forall i, id {:trigger es[i], ss[i].callers[id]} :: 0 <= i < |es| && Holds(ss[i], id, key) ==>
               At(es[i]) - ss[i].callers[id].phase.since < Seconds(STAMPEDE_LOCK_TTL_MS)
    ensures LockExclusive(ss[n], key)
  {
    forall i | 0 <= i < |es| ensures !LateArrival(cfg, ss[i], es[i], key) {
      assert Enabled(ss[i], es[i]);
      forall id | Holds(ss[i], id, key)
        ensures At(es[i]) - ss[i].callers[id].phase.since < Seconds(STAMPEDE_LOCK_TTL_MS)
      {
        assert ss[i].callers[id].key == key;
      }
    }
    ExclusiveIffNoLateArrival(cfg, ss, es, key);
  }

  /** The lock has no owner: a holder that outlives it releases the lock of its successor, so a
      third caller holds it together with a second one that is well within its time. */
  lemma StrangersRelease<V>(cfg: Settings, key: Key, failure: ToolError)
    returns (ss: seq<System<V>>, es: seq<Event<V>>)
    ensures IsRun(cfg, ss, es) && |es| == 4
    ensures Holds(ss[4], 1, key) && Holds(ss[4], 2, key) && ss[4].clock - ss[4].callers[1].phase.since == 1.0
  {
    var c0: Cache<V> := Cache([], map[], map[], 0, 0);
    es := [Arrive(0, key, None, 0.0), Arrive(1, key, None, 5.0), Return(0, Raised(failure), 6.0),
           Arrive(2, key, None, 6.0)];
    var s0 := System(c0, 0.0, map[]);
    var s1 := Next(cfg, s0, es[0]);
    assert s1.c.l1 == [] && s1.c.l2 == map[] && s1.callers[0].phase == Computing(true, 0.0);
    var s2 := Next(cfg, s1, es[1]);
    assert s2.c.l1 == [] && s2.c.l2 == map[] && s2.callers[1].phase == Computing(true, 5.0);
    var s3 := Next(cfg, s2, es[2]);
    assert s3.c.l1 == [] && s3.c.l2 == map[] && LockKey(key) !in s3.c.locks;
    var s4 := Next(cfg, s3, es[3]);
    ss := [s0, s1, s2, s3, s4];
  }

  // ---------------------------------------------------------------------------------
  // One computation per miss
  // ---------------------------------------------------------------------------------

  predicate CallerOn<V>(s: System<V>, id: nat, key: Key) {
    id in s.callers && s.callers[id].key == key
  }

  /** The caller runs, or has run, the computation. */
  predicate Ran<V>(s: System<V>, id: nat, key: Key) {
    && CallerOn(s, id, key)
    && (s.callers[id].phase.Computing? || (s.callers[id].phase.Done? && s.callers[id].phase.computed))
  }

  predicate Cancelled<V>(p: Phase<V>) {
    p == Done(Aborted, false)
  }

  /** A direct operation that could change what `key` maps to. */
  predicate Disturbs<V>(e: Event<V>, key: Key) {
    e.Direct? &&
    match e.op
    case GetOp(_, _) => false
    case SetOp(k, _, _, _) => k == key
    case DeleteOp(k, _) => k == key
    case InvalidateOp(prefix, _) => StartsWith(key, prefix)
  }

  function Patience(): real {
    STAMPEDE_MAX_WAITS as real * Seconds(STAMPEDE_WAIT_MS)
  }

  predicate ReturnsOn<V>(s: System<V>, e: Event<V>, key: Key) {
    e.Return? && CallerOn(s, e.id, key)
  }

  /** Every computation for `key` succeeds, within the bound, nothing else writes or drops the key,
      and no event comes after the stored entry has expired. */
  ghost predicate CalmWithin<V>(cfg: Settings, ss: seq<System<V>>, es: seq<Event<V>>, key: Key, bound: real)
    requires |ss| == |es| + 1
  {
    && (forall i :: 0 <= i < |es| ==> !Disturbs(es[i], key))
    && (forall i, id {:trigger es[i], ss[i].callers[id]} ::
          0 <= i < |es| && CallerOn(ss[i], id, key) && ss[i].callers[id].phase.Computing?
          ==> At(es[i]) - ss[i].callers[id].phase.since < bound)
    && (forall i :: 0 <= i < |es| && ReturnsOn(ss[i], es[i], key) ==> es[i].outcome.Returned?)
    && (forall i, j :: 0 <= i < j < |es| && ReturnsOn(ss[i], es[i], key)
          ==> At(es[j]) <= At(es[i]) + L2Ttl(cfg, ss[i].callers[es[i].id].ttl) as real)
  }

  /** Within a waiter's patience. */
  ghost predicate Calm<V>(cfg: Settings, ss: seq<System<V>>, es: seq<Event<V>>, key: Key)
    requires |ss| == |es| + 1
  {
    CalmWithin(cfg, ss, es, key, Patience())
  }

  ghost predicate Quiet<V>(s: System<V>, key: Key) {
    Dead(s.c, key, s.clock) && LockFree(s.c, key, s.clock) && forall id :: !CallerOn(s, id, key)
  }

  /** One caller computes under the lock; the others sleep, none for as long as it has computed. */
  ghost predicate InFlight<V>(s: System<V>, key: Key, leader: nat) {
    && CallerOn(s, leader, key)
    && var p := s.callers[leader].phase;
       && p.Computing? && p.holder && p.since <= s.clock
       && LockKey(key) in s.c.locks && s.c.locks[LockKey(key)] == p.since + Seconds(STAMPEDE_LOCK_TTL_MS)
       && Dead(s.c, key, s.clock)
       && forall id :: CallerOn(s, id, key) && id != leader ==> Sleeps(s.callers[id].phase, p.since)
  }

  ghost predicate Sleeps<V>(p: Phase<V>, leaderSince: real) {
    Cancelled(p)
    || (p.Waiting? && 1 <= p.left <= STAMPEDE_MAX_WAITS
        && p.since >= leaderSince + (STAMPEDE_MAX_WAITS - p.left) as real * Seconds(STAMPEDE_WAIT_MS))
  }

  /** The computation has ended with `value`, which both tiers agree on. */
  ghost predicate Landed<V>(s: System<V>, key: Key, leader: nat, value: V, expiresAt: real) {
    && CallerOn(s, leader, key) && s.callers[leader].phase == Done(Returned(value), true)
    && key in s.c.l2 && s.c.l2[key] == Stored(value, expiresAt)
    && (forall e :: e in s.c.l1 && e.key == key ==> e.value == value)
    && forall id :: CallerOn(s, id, key) && id != leader ==>
         || s.callers[id].phase.Waiting? || Cancelled(s.callers[id].phase)
         || s.callers[id].phase == Done(Returned(value), false)
  }

  /** What a get of `key`, or an event of another key, leaves of `key`. */
  ghost predicate KeyKept<V>(c: Cache<V>, d: Cache<V>, key: Key) {
    && DistinctKeys(d.l1)
    && (forall e :: e in d.l1 && e.key == key ==> e in c.l1)
    && (key in d.l2 <==> key in c.l2) && (key in c.l2 ==> d.l2[key] == c.l2[key])
  }

  lemma OtherKey<V>(cfg: Settings, s: System<V>, e: Event<V>, key: Key)
    requires Enabled(s, e) && DistinctKeys(s.c.l1) && Touches(s, e) != Some(key) && !Disturbs(e, key)
    ensures KeyKept(s.c, Next(cfg, s, e).c, key)
  {
    match e
    case Arrive(_, k, _, at) => GetFacts(cfg, s.c, k, at);
    case Wake(id, at) => GetFacts(cfg, s.c, s.callers[id].key, at);
    case Return(id, outcome, at) =>
      if outcome.Returned? {
        SetFacts(cfg, s.c, s.callers[id].key, outcome.value, s.callers[id].ttl, at);
      }
    case Cancel(_, _) =>
    case Direct(op) =>
      match op
      case GetOp(k, at) => GetFacts(cfg, s.c, k, at);
      case SetOp(k, value, ttl, at) => SetFacts(cfg, s.c, k, value, ttl, at);
      case DeleteOp(k, _) => DeleteFacts(s.c, k);
      case InvalidateOp(prefix, _) => InvalidateFacts(s.c, prefix);
  }

  lemma StaysDistinct<V>(cfg: Settings, s: System<V>, e: Event<V>)
    requires Enabled(s, e) && DistinctKeys(s.c.l1)
    ensures DistinctKeys(Next(cfg, s, e).c.l1)
  {
    match e
    case Arrive(_, k, _, at) => GetFacts(cfg, s.c, k, at);
    case Wake(id, at) => GetFacts(cfg, s.c, s.callers[id].key, at);
    case Return(id, outcome, at) =>
      if outcome.Returned? {
        SetFacts(cfg, s.c, s.callers[id].key, outcome.value, s.callers[id].ttl, at);
      }
    case Cancel(_, _) =>
    case Direct(op) =>
      match op
      case GetOp(k, at) => GetFacts(cfg, s.c, k, at);
      case SetOp(k, value, ttl, at) => SetFacts(cfg, s.c, k, value, ttl, at);
      case DeleteOp(k, _) => DeleteFacts(s.c, k);
      case InvalidateOp(prefix, _) => InvalidateFacts(s.c, prefix);
  }

  lemma {:induction false} AlwaysDistinct<V>(cfg: Settings, ss: seq<System<V>>, es: seq<Event<V>>, n: nat)
    requires IsRun(cfg, ss, es) && n <= |es|
    ensures DistinctKeys(ss[n].c.l1)
  {
    if n > 0 {
      AlwaysDistinct(cfg, ss, es, n - 1);
      assert Enabled(ss[n - 1], es[n - 1]);
      StaysDistinct(cfg, ss[n - 1], es[n - 1]);
    }
  }

  /** Reading a dead key finds nothing and leaves it dead. */
  lemma DeadGet<V>(cfg: Settings, c: Cache<V>, key: Key, clock: real, at: real)
    requires DistinctKeys(c.l1) && Dead(c, key, clock) && clock <= at
    ensures CacheGet(cfg, c, key, at).1.None?
    ensures Dead(CacheGet(cfg, c, key, at).0, key, at)
    ensures CacheGet(cfg, c, key, at).0.locks == c.locks
  {
    GetAnswer(cfg, c, key, at);
    GetFacts(cfg, c, key, at);
  }

  lemma DeadKept<V>(c: Cache<V>, d: Cache<V>, key: Key, clock: real, at: real)
    requires Dead(c, key, clock) && KeyKept(c, d, key) && clock <= at
    ensures Dead(d, key, at)
  {
  }

  lemma QuietStep<V>(cfg: Settings, s: System<V>, e: Event<V>, key: Key)
    requires Enabled(s, e) && DistinctKeys(s.c.l1) && Quiet(s, key) && !Disturbs(e, key)
    ensures var t := Next(cfg, s, e);
            if e.Arrive? && e.key == key then InFlight(t, key, e.id) else Quiet(t, key)
  {
    var t := Next(cfg, s, e);
    if Touches(s, e) == Some(key) {
      assert e.Wake? || e.Return? || e.Cancel? ==> CallerOn(s, e.id, key);
      DeadGet(cfg, s.c, key, s.clock, At(e));
    } else {
      OtherKey(cfg, s, e, key);
      LocksOf(cfg, s, e, key);
      DeadKept(s.c, t.c, key, s.clock, At(e));
    }
    if !(e.Arrive? && e.key == key) {
      forall id ensures !CallerOn(t, id, key) {
        assert !CallerOn(s, id, key);
      }
    } else {
      forall id | id != e.id ensures !CallerOn(t, id, key) {
        assert !CallerOn(s, id, key);
      }
    }
  }

  /** While the leader computes, whatever is not its return keeps it alone. */
  lemma InFlightStep<V>(cfg: Settings, s: System<V>, e: Event<V>, key: Key, leader: nat)
    requires Enabled(s, e) && DistinctKeys(s.c.l1) && InFlight(s, key, leader) && !Disturbs(e, key)
    requires At(e) - s.callers[leader].phase.since < Patience()
    requires !(e.Return? && e.id == leader)
    ensures InFlight(Next(cfg, s, e), key, leader)
  {
    var t := Next(cfg, s, e);
    if e.Cancel? {
    } else if Touches(s, e) == Some(key) {
      assert !e.Return?;
      DeadGet(cfg, s.c, key, s.clock, At(e));
    } else {
      OtherKey(cfg, s, e, key);
      LocksOf(cfg, s, e, key);
      DeadKept(s.c, t.c, key, s.clock, At(e));
    }
    assert t.callers[leader] == s.callers[leader];
    forall id | CallerOn(t, id, key) && id != leader
      ensures Sleeps(t.callers[id].phase, s.callers[leader].phase.since)
    {
      if CallerOn(s, id, key) {
        assert Sleeps(s.callers[id].phase, s.callers[leader].phase.since);
      }
    }
  }

  lemma LeaderReturns<V>(cfg: Settings, s: System<V>, e: Event<V>, key: Key, leader: nat)
    requires Enabled(s, e) && DistinctKeys(s.c.l1) && InFlight(s, key, leader)
    requires e.Return? && e.id == leader && e.outcome.Returned?
    ensures Landed(Next(cfg, s, e), key, leader, e.outcome.value, e.time + L2Ttl(cfg, s.callers[leader].ttl) as real)
  {
    SetFacts(cfg, s.c, key, e.outcome.value, s.callers[leader].ttl, e.time);
  }

  /** Reading a key whose second tier is live with `value` answers `value`. */
  lemma LiveGet<V>(cfg: Settings, c: Cache<V>, key: Key, value: V, expiresAt: real, at: real)
    requires DistinctKeys(c.l1) && key in c.l2 && c.l2[key] == Stored(value, expiresAt) && at <= expiresAt
    requires forall e :: e in c.l1 && e.key == key ==> e.value == value
    ensures var (d, r) := CacheGet(cfg, c, key, at);
            r == Some(value) && d.l2 == c.l2 && forall e :: e in d.l1 && e.key == key ==> e.value == value
  {
    GetAnswer(cfg, c, key, at);
    GetFacts(cfg, c, key, at);
  }

  lemma LandedStep<V>(cfg: Settings, s: System<V>, e: Event<V>, key: Key, leader: nat, value: V, expiresAt: real)
    requires Enabled(s, e) && DistinctKeys(s.c.l1) && Landed(s, key, leader, value, expiresAt)
    requires !Disturbs(e, key) && At(e) <= expiresAt
    ensures Landed(Next(cfg, s, e), key, leader, value, expiresAt)
  {
    var t := Next(cfg, s, e);
    if e.Cancel? {
    } else if Touches(s, e) == Some(key) {
      LiveGet(cfg, s.c, key, value, expiresAt, At(e));
    } else {
      OtherKey(cfg, s, e, key);
    }
    assert t.callers[leader] == s.callers[leader];
    forall id | CallerOn(t, id, key) && id != leader
      ensures t.callers[id].phase.Waiting? || Cancelled(t.callers[id].phase) ||
              t.callers[id].phase == Done(Returned(value), false)
    {
      assert CallerOn(s, id, key) || (e.Arrive? && e.id == id);
    }
  }

  function ExpiryOf<V>(cfg: Settings, s: System<V>, e: Event<V>): real
    requires e.Return? && e.id in s.callers
  {
    e.time + L2Ttl(cfg, s.callers[e.id].ttl) as real
  }

  /** The episode's computation returned at event i. */
  ghost predicate LandedAt<V>(cfg: Settings, ss: seq<System<V>>, es: seq<Event<V>>, key: Key, n: nat, leader: nat,
                              i: nat)
    requires |ss| == |es| + 1 && n <= |es|
  {
    && i < n && ReturnsOn(ss[i], es[i], key) && es[i].outcome.Returned?
    && Landed(ss[n], key, leader, es[i].outcome.value, ExpiryOf(cfg, ss[i], es[i]))
  }

  /** The stage an episode has reached after n events. */
  ghost predicate Stage<V>(cfg: Settings, ss: seq<System<V>>, es: seq<Event<V>>, key: Key, n: nat)
    requires |ss| == |es| + 1 && n <= |es|
  {
    || Quiet(ss[n], key)
    || (exists leader :: InFlight(ss[n], key, leader))
    || (exists leader, i :: LandedAt(cfg, ss, es, key, n, leader, i))
  }

  lemma CalmEvent<V>(cfg: Settings, ss: seq<System<V>>, es: seq<Event<V>>, key: Key, n: nat)
    requires |ss| == |es| + 1 && Calm(cfg, ss, es, key) && n < |es|
    ensures !Disturbs(es[n], key)
    ensures ReturnsOn(ss[n], es[n], key) ==> es[n].outcome.Returned?
    ensures forall id :: CallerOn(ss[n], id, key) && ss[n].callers[id].phase.Computing?
              ==> At(es[n]) - ss[n].callers[id].phase.since < Patience()
    ensures forall i :: 0 <= i < n && ReturnsOn(ss[i], es[i], key) ==> At(es[n]) <= ExpiryOf(cfg, ss[i], es[i])
  {
  }

  lemma InFlightStage<V>(cfg: Settings, ss: seq<System<V>>, es: seq<Event<V>>, key: Key, n: nat, leader: nat)
    requires |ss| == |es| + 1 && Calm(cfg, ss, es, key) && n < |es|
    requires Enabled(ss[n], es[n]) && ss[n + 1] == Next(cfg, ss[n], es[n]) && DistinctKeys(ss[n].c.l1)
    requires InFlight(ss[n], key, leader)
    ensures Stage(cfg, ss, es, key, n + 1)
  {
    CalmEvent(cfg, ss, es, key, n);
    if es[n].Return? && es[n].id == leader {
      LeaderReturns(cfg, ss[n], es[n], key, leader);
      assert LandedAt(cfg, ss, es, key, n + 1, leader, n);
    } else {
      InFlightStep(cfg, ss[n], es[n], key, leader);
    }
  }

  lemma LandedStage<V>(cfg: Settings, ss: seq<System<V>>, es: seq<Event<V>>, key: Key, n: nat, leader: nat, i: nat)
    requires |ss| == |es| + 1 && Calm(cfg, ss, es, key) && n < |es|
    requires Enabled(ss[n], es[n]) && ss[n + 1] == Next(cfg, ss[n], es[n]) && DistinctKeys(ss[n].c.l1)
    requires LandedAt(cfg, ss, es, key, n, leader, i)
    ensures Stage(cfg, ss, es, key, n + 1)
  {
    CalmEvent(cfg, ss, es, key, n);
    LandedStep(cfg, ss[n], es[n], key, leader, es[i].outcome.value, ExpiryOf(cfg, ss[i], es[i]));
    assert LandedAt(cfg, ss, es, key, n + 1, leader, i);
  }

  lemma QuietStage<V>(cfg: Settings, ss: seq<System<V>>, es: seq<Event<V>>, key: Key, n: nat)
    requires |ss| == |es| + 1 && Calm(cfg, ss, es, key) && n < |es|
    requires Enabled(ss[n], es[n]) && ss[n + 1] == Next(cfg, ss[n], es[n]) && DistinctKeys(ss[n].c.l1)
    requires Quiet(ss[n], key)
    ensures Stage(cfg, ss, es, key, n + 1)
  {
    CalmEvent(cfg, ss, es, key, n);
    QuietStep(cfg, ss[n], es[n], key);
  }

  lemma {:induction false} StageHolds<V>(cfg: Settings, ss: seq<System<V>>, es: seq<Event<V>>, key: Key, n: nat)
    requires IsRun(cfg, ss, es) && Calm(cfg, ss, es, key) && n <= |es| && Quiet(ss[0], key)
    ensures Stage(cfg, ss, es, key, n)
  {
    if n > 0 {
      var k := n - 1;
      StageHolds(cfg, ss, es, key, k);
      AlwaysDistinct(cfg, ss, es, k);
      assert Enabled(ss[k], es[k]) && ss[k + 1] == Next(cfg, ss[k], es[k]);
      if Quiet(ss[k], key) {
        QuietStage(cfg, ss, es, key, k);
      } else if leader :| InFlight(ss[k], key, leader) {
        InFlightStage(cfg, ss, es, key, k, leader);
      } else {
        var leader: nat, i: nat :| LandedAt(cfg, ss, es, key, k, leader, i);
        LandedStage(cfg, ss, es, key, k, leader, i);
      }
    }
  }

  /** `leader` is the only caller of `key` that runs the computation, and every other caller
      that finished returned its value, or was cancelled while asleep. */
  ghost predicate SoleComputation<V>(s: System<V>, key: Key, leader: nat) {
    && Ran(s, leader, key)
    && (s.callers[leader].phase.Done? ==> s.callers[leader].phase.outcome.Returned?)
    && forall id :: CallerOn(s, id, key) && id != leader ==>
         && !Ran(s, id, key)
         && (s.callers[id].phase.Done? && !Cancelled(s.callers[id].phase) ==>
               s.callers[leader].phase.Done? && s.callers[id].phase.outcome == s.callers[leader].phase.outcome)
  }

  lemma LandedIsSole<V>(s: System<V>, key: Key, leader: nat, value: V, expiresAt: real)
    requires Landed(s, key, leader, value, expiresAt)
    ensures SoleComputation(s, key, leader)
  {
  }

  lemma InFlightIsSole<V>(s: System<V>, key: Key, leader: nat)
    requires InFlight(s, key, leader)
    ensures SoleComputation(s, key, leader)
  {
  }

  lemma StageIsSole<V>(cfg: Settings, ss: seq<System<V>>, es: seq<Event<V>>, key: Key, n: nat)
    requires |ss| == |es| + 1 && n <= |es| && Stage(cfg, ss, es, key, n)
    ensures (forall id :: !CallerOn(ss[n], id, key)) || exists leader :: SoleComputation(ss[n], key, leader)
  {
    if !Quiet(ss[n], key) {
      if leader :| InFlight(ss[n], key, leader) {
        InFlightIsSole(ss[n], key, leader);
      } else {
        var leader: nat, i: nat :| LandedAt(cfg, ss, es, key, n, leader, i);
        LandedIsSole(ss[n], key, leader, es[i].outcome.value, ExpiryOf(cfg, ss[i], es[i]));
      }
    }
  }

  /** Single flight: from a miss, in a calm episode, any number of callers in any interleaving
      run the computation exactly once, and all return its value. */
  lemma ComputedOnce<V>(cfg: Settings, ss: seq<System<V>>, es: seq<Event<V>>, key: Key, n: nat)
    requires IsRun(cfg, ss, es) && Calm(cfg, ss, es, key) && n <= |es|
    requires Dead(ss[0].c, key, ss[0].clock) && LockFree(ss[0].c, key, ss[0].clock)
    ensures (forall id :: !CallerOn(ss[n], id, key)) || exists leader :: SoleComputation(ss[n], key, leader)
  {
    StageHolds(cfg, ss, es, key, n);
    StageIsSole(cfg, ss, es, key, n);
  }

  /** The length of n sleeps, one after another. */
  function Naps(n: nat): real {
    if n == 0 then 0.0 else Naps(n - 1) + Seconds(STAMPEDE_WAIT_MS)
  }

  lemma {:induction false} NapsAdd(n: nat)
    ensures Naps(n) == n as real * Seconds(STAMPEDE_WAIT_MS)
  {
    if n > 0 {
      NapsAdd(n - 1);
      assert n as real == (n - 1) as real + 1.0;
    }
  }

  /** A run in which caller 0 computes from time 0 and caller 1 has slept k times. */
  lemma {:induction false} Impatience<V>(cfg: Settings, key: Key, k: nat)
    returns (ss: seq<System<V>>, es: seq<Event<V>>)
    requires k <= STAMPEDE_MAX_WAITS
    ensures IsRun(cfg, ss, es) && |es| == k + 2
    ensures ss[0].c == Cache([], map[], map[], 0, 0) && ss[0].clock == 0.0
    ensures forall i :: 0 <= i < |es| ==> es[i].Arrive? || es[i].Wake?
    ensures var s := ss[k + 2];
            && s.c.l1 == [] && s.c.l2 == map[] && s.clock == Naps(k)
            && s.callers == map[
                 0 := Caller(key, None, Computing(true, 0.0)),
                 1 := Caller(key, None, if k < STAMPEDE_MAX_WAITS then Waiting(STAMPEDE_MAX_WAITS - k, s.clock)
                                        else Computing(false, s.clock))]
  {
    if k == 0 {
      var c0: Cache<V> := Cache([], map[], map[], 0, 0);
      es := [Arrive(0, key, None, 0.0), Arrive(1, key, None, 0.0)];
      var s0 := System(c0, 0.0, map[]);
      var s1 := Next(cfg, s0, es[0]);
      assert s1.c.l1 == [] && s1.c.l2 == map[] && s1.callers == map[0 := Caller(key, None, Computing(true, 0.0))];
      ss := [s0, s1, Next(cfg, s1, es[1])];
    } else {
      ss, es := Impatience(cfg, key, k - 1);
      var last := ss[k + 1];
      var e := Wake(1, Naps(k));
      var next := Next(cfg, last, e);
      assert next.c.l1 == [] && next.c.l2 == map[];
      ss, es := ss + [next], es + [e];
    }
  }

  /** The bound of `ComputedOnce` is tight: from an empty cache, with nothing but arrivals and
      sleeps, a computation that lasts exactly a waiter's patience is run a second time. */
  lemma PatienceRunsOut<V>(cfg: Settings, key: Key) returns (ss: seq<System<V>>, es: seq<Event<V>>)
    ensures IsRun(cfg, ss, es) && Dead(ss[0].c, key, ss[0].clock) && LockFree(ss[0].c, key, ss[0].clock)
    ensures forall i :: 0 <= i < |es| ==> es[i].Arrive? || es[i].Wake?
    ensures Ran(ss[|es|], 0, key) && Ran(ss[|es|], 1, key)
    ensures ss[|es|].callers[0].phase == Computing(true, ss[0].clock) && ss[|es|].clock - ss[0].clock == Patience()
  {
    NapsAdd(STAMPEDE_MAX_WAITS);
    ss, es := Impatience(cfg, key, STAMPEDE_MAX_WAITS);
  }

  /** Times and starts of computations lie between the clocks of a run. */
  lemma {:induction false} TimesWithin<V>(cfg: Settings, ss: seq<System<V>>, es: seq<Event<V>>, i: nat, n: nat)
    requires IsRun(cfg, ss, es) && i <= n <= |es|
    ensures ss[0].clock <= ss[i].clock <= ss[n].clock
    ensures forall id :: id in ss[n].callers && ss[n].callers[id].phase.Computing? ==>
              ss[0].clock <= ss[n].callers[id].phase.since
    decreases n
  {
    if n > 0 {
      TimesWithin(cfg, ss, es, if i < n then i else n - 1, n - 1);
      assert Enabled(ss[n - 1], es[n - 1]) && ss[n] == Next(cfg, ss[n - 1], es[n - 1]);
    }
  }

  /** At most one caller of the key runs, or has run, the computation. */
  ghost predicate OneComputes<V>(s: System<V>, key: Key) {
    forall p, q :: Ran(s, p, key) && Ran(s, q, key) ==> p == q
  }

  /** A run from a miss, calm within a bound. */
  ghost predicate Episode<V>(cfg: Settings, ss: seq<System<V>>, es: seq<Event<V>>, key: Key, bound: real) {
    && IsRun(cfg, ss, es) && CalmWithin(cfg, ss, es, key, bound)
    && Dead(ss[0].c, key, ss[0].clock) && LockFree(ss[0].c, key, ss[0].clock)
  }

  lemma EpisodeComputesOnce<V>(cfg: Settings, ss: seq<System<V>>, es: seq<Event<V>>, key: Key, bound: real)
    requires Episode(cfg, ss, es, key, bound) && bound <= Patience()
    ensures OneComputes(ss[|es|], key)
  {
    assert Calm(cfg, ss, es, key);
    ComputedOnce(cfg, ss, es, key, |es|);
    if leader :| SoleComputation(ss[|es|], key, leader) {
      assert forall id :: Ran(ss[|es|], id, key) && id != leader ==> CallerOn(ss[|es|], id, key);
    }
  }

  lemma ImpatientEpisode<V>(cfg: Settings, key: Key, bound: real) returns (ss: seq<System<V>>, es: seq<Event<V>>)
    requires bound > Patience()
    ensures Episode(cfg, ss, es, key, bound) && !OneComputes(ss[|es|], key)
  {
    ss, es := PatienceRunsOut(cfg, key);
    forall i | 0 <= i < |es| ensures At(es[i]) <= ss[|es|].clock {
      TimesWithin(cfg, ss, es, i + 1, |es|);
      assert ss[i + 1] == Next(cfg, ss[i], es[i]) && Enabled(ss[i], es[i]);
    }
    forall i, id | 0 <= i < |es| && CallerOn(ss[i], id, key) && ss[i].callers[id].phase.Computing?
      ensures At(es[i]) - ss[i].callers[id].phase.since < bound
    {
      TimesWithin(cfg, ss, es, i, i);
    }
  }

  /** "Only one should recompute" holds of every calm episode with computations below a bound if
      and only if the bound is within a waiter's patience of 40 sleeps of 25 ms. */
  lemma ComputedOnceIff<V>(cfg: Settings, key: Key, bound: real)
    ensures (forall ss: seq<System<V>>, es: seq<Event<V>> ::
               Episode(cfg, ss, es, key, bound) ==> OneComputes(ss[|es|], key))
            <==> bound <= Patience()
    ensures Patience() == 1.0
  {
    if bound <= Patience() {
      forall ss: seq<System<V>>, es: seq<Event<V>> | Episode(cfg, ss, es, key, bound)
        ensures OneComputes(ss[|es|], key)
      {
        EpisodeComputesOnce(cfg, ss, es, key, bound);
      }
    } else {
      var ss: seq<System<V>>, es: seq<Event<V>> := ImpatientEpisode(cfg, key, bound);
    }
  }
}
