/**
  How old an answer can be when callers of `get_or_compute` interleave: what they do to the two
  tiers is a sequence of plain cache operations, so the bounds of module CacheFreshness hold.
*/
module CacheAge {
  import opened Errors
  import opened Lru
  import opened CacheManager
  import opened CacheFreshness
  import opened SingleFlight

  /** The operation an event performs on the two tiers. */
  function OpOf<V>(s: System<V>, e: Event<V>): Option<Op<V>> {
    match e
    case Arrive(_, key, _, at) => Some(GetOp(key, at))
    case Wake(id, at) => if id in s.callers then Some(GetOp(s.callers[id].key, at)) else None
    case Return(id, outcome, at) =>
      if id in s.callers && outcome.Returned? then Some(SetOp(s.callers[id].key, outcome.value, s.callers[id].ttl, at))
      else None
    case Cancel(_, _) => None
    case Direct(op) => Some(op)
  }

  /** The operations of the first n events. */
  function OpsOf<V>(ss: seq<System<V>>, es: seq<Event<V>>, n: nat): seq<Op<V>>
    requires n <= |es| <= |ss|
  {
    if n == 0 then []
    else
      var op := OpOf(ss[n - 1], es[n - 1]);
      OpsOf(ss, es, n - 1) + if op.Some? then [op.value] else []
  }

  lemma OneMoreOp<V>(cfg: Settings, ops: seq<Op<V>>, op: Op<V>, key: Key)
    ensures After(cfg, ops + [op]) == Apply(cfg, After(cfg, ops), op)
    ensures op.SetOp? && op.key == key ==>
              Standing(cfg, ops + [op], key) == Some(Write(op.value, op.at, L2Ttl(cfg, op.ttl)))
    ensures !(op.SetOp? && op.key == key) && Standing(cfg, ops + [op], key).Some? ==>
              Standing(cfg, ops + [op], key) == Standing(cfg, ops, key) && !Disturbs(Event.Direct(op), key)
  {
    assert (ops + [op])[..|ops|] == ops;
  }

  predicate SameTiers<V(==)>(c: Cache<V>, d: Cache<V>) {
    c.l1 == d.l1 && c.l2 == d.l2
  }

  /** The tiers after an operation depend on the tiers alone. */
  lemma OpOnTiers<V>(cfg: Settings, c: Cache<V>, d: Cache<V>, op: Op<V>)
    requires SameTiers(c, d)
    ensures SameTiers(Apply(cfg, c, op), Apply(cfg, d, op))
  {
  }

  lemma StepIsOp<V>(cfg: Settings, s: System<V>, e: Event<V>)
    requires Enabled(s, e)
    ensures SameTiers(Next(cfg, s, e).c, if OpOf(s, e).Some? then Apply(cfg, s.c, OpOf(s, e).value) else s.c)
  {
  }

  lemma StepOnTiers<V>(cfg: Settings, s: System<V>, e: Event<V>, d: Cache<V>)
    requires Enabled(s, e) && SameTiers(s.c, d)
    ensures SameTiers(Next(cfg, s, e).c, if OpOf(s, e).Some? then Apply(cfg, d, OpOf(s, e).value) else d)
  {
    StepIsOp(cfg, s, e);
    if OpOf(s, e).Some? {
      OpOnTiers(cfg, s.c, d, OpOf(s, e).value);
    }
  }

  lemma OpsAfter<V>(cfg: Settings, ss: seq<System<V>>, es: seq<Event<V>>, n: nat)
    requires 0 < n <= |es| <= |ss|
    ensures var ops, op := OpsOf(ss, es, n - 1), OpOf(ss[n - 1], es[n - 1]);
            After(cfg, OpsOf(ss, es, n)) == if op.Some? then Apply(cfg, After(cfg, ops), op.value) else After(cfg, ops)
  {
    var ops, op := OpsOf(ss, es, n - 1), OpOf(ss[n - 1], es[n - 1]);
    if op.Some? {
      OneMoreOp(cfg, ops, op.value, "");
      assert OpsOf(ss, es, n) == ops + [op.value];
    } else {
      assert OpsOf(ss, es, n) == ops;
    }
  }

  /** Locks and counters aside, a run leaves the cache its operations leave. */
  lemma {:induction false} TiersFollowOps<V>(cfg: Settings, ss: seq<System<V>>, es: seq<Event<V>>, n: nat)
    requires IsRun(cfg, ss, es) && n <= |es| && ss[0].c == Cache([], map[], map[], 0, 0)
    ensures SameTiers(ss[n].c, After(cfg, OpsOf(ss, es, n)))
  {
    if n > 0 {
      TiersFollowOps(cfg, ss, es, n - 1);
      assert Enabled(ss[n - 1], es[n - 1]) && ss[n] == Next(cfg, ss[n - 1], es[n - 1]);
      var ops, op := OpsOf(ss, es, n - 1), OpOf(ss[n - 1], es[n - 1]);
      StepOnTiers(cfg, ss[n - 1], es[n - 1], After(cfg, ops));
      OpsAfter(cfg, ss, es, n);
    }
  }

  lemma {:induction false} OpsInOrder<V>(cfg: Settings, ss: seq<System<V>>, es: seq<Event<V>>, n: nat)
    requires IsRun(cfg, ss, es) && n <= |es|
    ensures TimesSorted(OpsOf(ss, es, n)) && NotAfter(OpsOf(ss, es, n), ss[n].clock)
  {
    if n > 0 {
      OpsInOrder(cfg, ss, es, n - 1);
      assert Enabled(ss[n - 1], es[n - 1]) && ss[n] == Next(cfg, ss[n - 1], es[n - 1]);
    }
  }

  /** The event neither writes the key nor drops it. */
  predicate Keeps<V>(s: System<V>, e: Event<V>, key: Key) {
    OpOf(s, e).Some? ==> !Disturbs(Event.Direct(OpOf(s, e).value), key)
  }

  /** Nothing has written or dropped the key since event i. */
  predicate KeptSince<V>(ss: seq<System<V>>, es: seq<Event<V>>, i: nat, n: nat, key: Key)
    requires n <= |es| <= |ss|
  {
    forall m :: i < m < n ==> Keeps(ss[m], es[m], key)
  }

  /** A standing write is the last event's, or stood before it and was kept. */
  lemma StandingStep<V>(cfg: Settings, ss: seq<System<V>>, es: seq<Event<V>>, n: nat, key: Key)
    requires 0 < n <= |es| <= |ss| && Standing(cfg, OpsOf(ss, es, n), key).Some?
    ensures var op, w := OpOf(ss[n - 1], es[n - 1]), Standing(cfg, OpsOf(ss, es, n), key).value;
            if op.Some? && op.value.SetOp? && op.value.key == key then
              op == Some(SetOp(key, w.value, op.value.ttl, w.at)) && w.ttl == L2Ttl(cfg, op.value.ttl)
            else
              Standing(cfg, OpsOf(ss, es, n - 1), key) == Some(w) && Keeps(ss[n - 1], es[n - 1], key)
  {
    var ops, op := OpsOf(ss, es, n - 1), OpOf(ss[n - 1], es[n - 1]);
    if op.Some? {
      OneMoreOp(cfg, ops, op.value, key);
      assert OpsOf(ss, es, n) == ops + [op.value];
    } else {
      assert OpsOf(ss, es, n) == ops;
    }
  }

  /** A standing write was made by one of the events, and the key has been kept since. */
  lemma {:induction false} WrittenBy<V>(cfg: Settings, ss: seq<System<V>>, es: seq<Event<V>>, n: nat, key: Key)
    returns (i: nat, ttl: Option<int>)
    requires n <= |es| <= |ss| && Standing(cfg, OpsOf(ss, es, n), key).Some?
    ensures var w := Standing(cfg, OpsOf(ss, es, n), key).value;
            i < n && OpOf(ss[i], es[i]) == Some(SetOp(key, w.value, ttl, w.at)) && w.ttl == L2Ttl(cfg, ttl)
    ensures KeptSince(ss, es, i, n, key)
  {
    var op := OpOf(ss[n - 1], es[n - 1]);
    StandingStep(cfg, ss, es, n, key);
    if op.Some? && op.value.SetOp? && op.value.key == key {
      i, ttl := n - 1, op.value.ttl;
    } else {
      i, ttl := WrittenBy(cfg, ss, es, n - 1, key);
    }
  }

  /** A read of `key` that answers at event n answers with the last value written to it, which
      nothing has dropped, written no longer ago than both ttls, with a ttl that is not negative. */
  lemma AnswersAreFresh<V>(cfg: Settings, ss: seq<System<V>>, es: seq<Event<V>>, n: nat, key: Key, at: real)
    returns (i: nat, ttl: Option<int>, written: real)
    requires IsRun(cfg, ss, es) && n <= |es| && ss[0].c == Cache([], map[], map[], 0, 0)
    requires ss[n].clock <= at && CacheGet(cfg, ss[n].c, key, at).1.Some?
    ensures var v := CacheGet(cfg, ss[n].c, key, at).1.value;
            i < n && OpOf(ss[i], es[i]) == Some(SetOp(key, v, ttl, written))
            && at <= written + L2Ttl(cfg, ttl) as real + Stretch(cfg) && L2Ttl(cfg, ttl) >= 0
    ensures KeptSince(ss, es, i, n, key)
  {
    var ops := OpsOf(ss, es, n);
    TiersFollowOps(cfg, ss, es, n);
    OpsInOrder(cfg, ss, es, n);
    Freshness(cfg, ops, key, at);
    i, ttl := WrittenBy(cfg, ss, es, n, key);
    written := Standing(cfg, ops, key).value.at;
  }
}
