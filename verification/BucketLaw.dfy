/**
  The law of the limiter: a call is let through exactly if it fits into every stretch of time that
  ends with it, whatever was let through before.
*/
module BucketLaw {
  import opened Errors
  import opened TokenBucket
  import opened BucketRuns
  import Spacing

  /** Call i of a run from no stored bucket is let through. */
  predicate Passes(default: Quota, calls: seq<Call>, i: nat)
    requires i < |calls|
  {
    var c := calls[i];
    Acquired(default, After(default, map[], calls[..i]), c.tenant, c.tool, c.cost, c.nowMs).1.allowed
  }

  /** The cost of the calls a..b-1 on the key that were let through. */
  function Spent(default: Quota, calls: seq<Call>, key: string, a: nat, b: nat): int
    requires a <= b <= |calls|
  {
    if a == b then 0
    else
      Spent(default, calls, key, a, b - 1)
      + if Hits(calls[b - 1], key) && Passes(default, calls, b - 1) then calls[b - 1].cost else 0
  }

  /** What a stretch of time refills: each millisecond a sixty-thousandth of a minute's share. */
  function Refill(q: Quota, ms: int): real {
    if ms <= 0 then 0.0 else Spacing.Spans(ms, q.refillPerMinute as real / 60_000.0)
  }

  lemma {:induction false} SpansAdd(a: nat, b: nat, gap: real)
    ensures Spacing.Spans(a, gap) + Spacing.Spans(b, gap) == Spacing.Spans(a + b, gap)
  {
    if b > 0 {
      SpansAdd(a, b - 1, gap);
    }
  }

  lemma RefillAdds(q: Quota, a: int, b: int)
    requires a >= 0 && b >= 0
    ensures Refill(q, a) + Refill(q, b) == Refill(q, a + b)
  {
    SpansAdd(a, b, q.refillPerMinute as real / 60_000.0);
  }

  lemma GainIsRefill(q: Quota, ms: int)
    ensures Gain(RatePerSecond(q), ms) == Refill(q, ms)
    ensures ms >= 0 ==> Refill(q, ms) == ms as real * q.refillPerMinute as real / 60_000.0
  {
    if ms > 0 {
      var n, rpm := ms as real, q.refillPerMinute as real;
      Spacing.SpansIsProduct(ms, rpm / 60_000.0);
      assert n * (rpm / 60_000.0) == n * rpm / 60_000.0;
      assert n / 1000.0 * (rpm / 60.0) == n * rpm / 60_000.0;
    }
  }

  /** From call j on, up to a time, there is room for so much more: the capacity and what the stretch
      refills, less what was let through. */
  predicate Fits(default: Quota, calls: seq<Call>, key: string, q: Quota, j: nat, n: nat, nowMs: int, more: real)
    requires j < n <= |calls|
  {
    more + Spent(default, calls, key, j, n) as real
    <= q.capacity as real + Refill(q, nowMs - calls[j].nowMs)
  }

  /** The tokens there are for a key after a run. */
  function Level(default: Quota, calls: seq<Call>, key: string, q: Quota, nowMs: int): real {
    Refilled(Loaded(At(After(default, map[], calls), key), q.capacity, nowMs), q.capacity, RatePerSecond(q), nowMs)
  }

  ghost predicate FitsAll(default: Quota, calls: seq<Call>, key: string, q: Quota, n: nat, nowMs: int, more: real)
    requires n <= |calls|
  {
    forall j :: 0 <= j < n && Hits(calls[j], key) ==> Fits(default, calls, key, q, j, n, nowMs, more)
  }

  lemma {:induction false} SpentBefore(default: Quota, calls: seq<Call>, c: Call, key: string, a: nat, b: nat)
    requires a <= b <= |calls|
    ensures Spent(default, calls + [c], key, a, b) == Spent(default, calls, key, a, b)
  {
    if a < b {
      SpentBefore(default, calls, c, key, a, b - 1);
      assert (calls + [c])[..b - 1] == calls[..b - 1];
    }
  }

  lemma LastPasses(default: Quota, calls: seq<Call>, c: Call)
    ensures var (m, v) := Acquired(default, After(default, map[], calls), c.tenant, c.tool, c.cost, c.nowMs);
            Passes(default, calls + [c], |calls|) == v.allowed && After(default, map[], calls + [c]) == m
  {
    assert (calls + [c])[..|calls|] == calls;
    AppendCall(default, map[], calls, c, "", 0, 0);
  }

  lemma FitsLater(default: Quota, calls: seq<Call>, c: Call, key: string, q: Quota, j: nat, nowMs: int, more: real)
    requires j < |calls| && Hits(c, key) && calls[j].nowMs <= c.nowMs <= nowMs
    ensures var cost := if Passes(default, calls + [c], |calls|) then c.cost as real else 0.0;
            Fits(default, calls + [c], key, q, j, |calls| + 1, nowMs, more)
            <==> Fits(default, calls, key, q, j, |calls|, c.nowMs, more + cost - Refill(q, nowMs - c.nowMs))
  {
    SpentBefore(default, calls, c, key, j, |calls|);
    RefillAdds(q, c.nowMs - calls[j].nowMs, nowMs - c.nowMs);
  }

  lemma HitLevel(default: Quota, calls: seq<Call>, c: Call, key: string, q: Quota, nowMs: int, more: real)
    requires Hits(c, key) && QuotaFor(default, c.tool) == q && c.nowMs <= nowMs
    ensures var cost := if Passes(default, calls + [c], |calls|) then c.cost as real else 0.0;
            more <= Level(default, calls + [c], key, q, nowMs) <==>
            && more <= q.capacity as real
            && more + cost - Refill(q, nowMs - c.nowMs) <= Level(default, calls, key, q, c.nowMs)
  {
    LastPasses(default, calls, c);
    GainIsRefill(q, nowMs - c.nowMs);
  }

  lemma OtherLevel(default: Quota, calls: seq<Call>, c: Call, key: string, q: Quota, nowMs: int)
    requires !Hits(c, key)
    ensures Level(default, calls + [c], key, q, nowMs) == Level(default, calls, key, q, nowMs)
  {
    LastPasses(default, calls, c);
  }

  lemma HitFits(default: Quota, calls: seq<Call>, c: Call, key: string, q: Quota, nowMs: int, more: real)
    requires Hits(c, key) && c.nowMs <= nowMs && forall j :: 0 <= j < |calls| ==> calls[j].nowMs <= c.nowMs
    ensures var all, n := calls + [c], |calls|;
            var cost := if Passes(default, all, n) then c.cost as real else 0.0;
            var refill := Refill(q, nowMs - c.nowMs);
            FitsAll(default, all, key, q, n + 1, nowMs, more) <==>
            more + cost - refill <= q.capacity as real
            && FitsAll(default, calls, key, q, n, c.nowMs, more + cost - refill)
  {
    var all, n := calls + [c], |calls|;
    assert Spent(default, all, key, n, n) == 0;
    assert all[n] == c;
    forall j | 0 <= j < n ensures all[j] == calls[j] {
    }
    forall j | 0 <= j < n && Hits(calls[j], key)
      ensures Fits(default, all, key, q, j, n + 1, nowMs, more) <==>
              Fits(default, calls, key, q, j, n, c.nowMs,
                   more + (if Passes(default, all, n) then c.cost as real else 0.0)
                   - Refill(q, nowMs - c.nowMs))
    {
      FitsLater(default, calls, c, key, q, j, nowMs, more);
    }
    assert Fits(default, all, key, q, n, n + 1, nowMs, more) <==>
           more + (if Passes(default, all, n) then c.cost as real else 0.0)
           - Refill(q, nowMs - c.nowMs) <= q.capacity as real;
  }

  lemma OtherFits(default: Quota, calls: seq<Call>, c: Call, key: string, q: Quota, nowMs: int, more: real)
    requires !Hits(c, key)
    ensures FitsAll(default, calls + [c], key, q, |calls| + 1, nowMs, more)
            <==> FitsAll(default, calls, key, q, |calls|, nowMs, more)
  {
    forall j | 0 <= j < |calls|
      ensures Spent(default, calls + [c], key, j, |calls| + 1) == Spent(default, calls, key, j, |calls|)
    {
      SpentBefore(default, calls, c, key, j, |calls|);
    }
    forall j | 0 <= j < |calls|
      ensures Fits(default, calls + [c], key, q, j, |calls| + 1, nowMs, more)
              <==> Fits(default, calls, key, q, j, |calls|, nowMs, more)
    {
    }
  }

  /** There are so many tokens exactly if so much fits from every call on the key until now, and into
      the capacity. */
  lemma {:induction false} LevelIff(default: Quota, calls: seq<Call>, key: string, tool: string, nowMs: int,
                                    more: real)
    requires TimesSorted(calls) && OneTool(calls, key, tool) && forall i :: 0 <= i < |calls| ==> calls[i].nowMs <= nowMs
    ensures var q := QuotaFor(default, tool);
            more <= Level(default, calls, key, q, nowMs) <==>
            more <= q.capacity as real && FitsAll(default, calls, key, q, |calls|, nowMs, more)
  {
    var q := QuotaFor(default, tool);
    if calls != [] {
      var earlier, c := calls[..|calls| - 1], calls[|calls| - 1];
      assert calls == earlier + [c];
      if Hits(c, key) {
        var cost := if Passes(default, calls, |earlier|) then c.cost as real else 0.0;
        var refill := Refill(q, nowMs - c.nowMs);
        HitLevel(default, earlier, c, key, q, nowMs, more);
        LevelIff(default, earlier, key, tool, c.nowMs, more + cost - refill);
        HitFits(default, earlier, c, key, q, nowMs, more);
      } else {
        OtherLevel(default, earlier, c, key, q, nowMs);
        LevelIff(default, earlier, key, tool, nowMs, more);
        OtherFits(default, earlier, c, key, q, nowMs, more);
      }
    }
  }

  lemma PassesByLevel(default: Quota, calls: seq<Call>, c: Call)
    ensures Passes(default, calls + [c], |calls|) <==>
            c.cost as real <= Level(default, calls, LimiterKey(c.tenant, c.tool), QuotaFor(default, c.tool), c.nowMs)
  {
    assert (calls + [c])[..|calls|] == calls;
  }

  /** The next call is let through if and only if its cost fits into the capacity, and, with all that
      was let through on its key from any earlier call on, into the capacity and what the time
      since that call refills. */
  lemma PassesIffItFits(default: Quota, calls: seq<Call>, c: Call)
    requires TimesSorted(calls + [c]) && OneTool(calls, LimiterKey(c.tenant, c.tool), c.tool)
    ensures var key, q := LimiterKey(c.tenant, c.tool), QuotaFor(default, c.tool);
            Passes(default, calls + [c], |calls|) <==>
            c.cost <= q.capacity && FitsAll(default, calls, key, q, |calls|, c.nowMs, c.cost as real)
  {
    EarlierSorted(calls, c);
    PassesByLevel(default, calls, c);
    LevelIff(default, calls, LimiterKey(c.tenant, c.tool), c.tool, c.nowMs, c.cost as real);
  }

  lemma EarlierSorted(calls: seq<Call>, c: Call)
    requires TimesSorted(calls + [c])
    ensures TimesSorted(calls) && forall i :: 0 <= i < |calls| ==> calls[i].nowMs <= c.nowMs
  {
    var all := calls + [c];
    forall i | 0 <= i < |calls| ensures calls[i].nowMs <= c.nowMs {
      assert all[i].nowMs <= all[|calls|].nowMs;
    }
    forall i, j | 0 <= i < j < |calls| ensures calls[i].nowMs <= calls[j].nowMs {
      assert all[i].nowMs <= all[j].nowMs;
    }
  }

  // ---------------------------------------------------------------------------------
  // Bursts
  // ---------------------------------------------------------------------------------

  /** n calls of a tenant on a tool, all at one time. */
  function Burst(tenant: string, tool: string, n: nat, nowMs: int): seq<Call> {
    if n == 0 then [] else Burst(tenant, tool, n - 1, nowMs) + [Call(tenant, tool, 1, nowMs)]
  }

  lemma {:induction false} BurstFacts(tenant: string, tool: string, n: nat, nowMs: int)
    ensures |Burst(tenant, tool, n, nowMs)| == n && TimesSorted(Burst(tenant, tool, n, nowMs))
    ensures forall i :: 0 <= i < n ==> Burst(tenant, tool, n, nowMs)[i] == Call(tenant, tool, 1, nowMs)
  {
    if n > 0 {
      BurstFacts(tenant, tool, n - 1, nowMs);
    }
  }

  lemma Fewer(default: Quota, calls: seq<Call>, key: string, a: nat, m: nat, b: nat)
    requires a <= m <= b <= |calls| && forall i :: 0 <= i < |calls| ==> calls[i].cost >= 0
    ensures Spent(default, calls, key, m, b) <= Spent(default, calls, key, a, b)
    ensures Spent(default, calls, key, a, b) >= 0
  {
    if b > m {
      Fewer(default, calls, key, a, m, b - 1);
    } else if a < m {
      Fewer(default, calls, key, a, m - 1, m - 1);
    }
  }

  lemma FitsFromFirst(default: Quota, calls: seq<Call>, key: string, q: Quota, j: nat, laterMs: int)
    requires j < |calls| && calls[j].nowMs == calls[0].nowMs && forall i :: 0 <= i < |calls| ==> calls[i].cost >= 0
    ensures Fits(default, calls, key, q, 0, |calls|, laterMs, 1.0) ==>
              Fits(default, calls, key, q, j, |calls|, laterMs, 1.0)
  {
    Fewer(default, calls, key, 0, j, |calls|);
  }

  /** After calls at one time, one more fits from all of them on exactly if it fits from the first on. */
  lemma FitsAfter(default: Quota, calls: seq<Call>, key: string, q: Quota, laterMs: int)
    requires calls != [] && forall i :: 0 <= i < |calls| ==>
               calls[i].cost >= 0 && calls[i].nowMs == calls[0].nowMs && Hits(calls[i], key)
    ensures FitsAll(default, calls, key, q, |calls|, laterMs, 1.0) <==>
            1.0 + Spent(default, calls, key, 0, |calls|) as real
            <= q.capacity as real + Refill(q, laterMs - calls[0].nowMs)
  {
    forall j | 0 <= j < |calls|
      ensures Fits(default, calls, key, q, 0, |calls|, laterMs, 1.0) ==>
                Fits(default, calls, key, q, j, |calls|, laterMs, 1.0)
    {
      FitsFromFirst(default, calls, key, q, j, laterMs);
    }
    assert Hits(calls[0], key);
  }

  lemma AfterBurst(default: Quota, tenant: string, tool: string, n: nat, nowMs: int, laterMs: int)
    requires nowMs <= laterMs
    ensures |Burst(tenant, tool, n, nowMs)| == n
    ensures var calls, c, q := Burst(tenant, tool, n, nowMs), Call(tenant, tool, 1, laterMs), QuotaFor(default, tool);
            Passes(default, calls + [c], n) <==>
            && 1 <= q.capacity
            && (n > 0 ==> 1.0 + Spent(default, calls, LimiterKey(tenant, tool), 0, n) as real
                          <= q.capacity as real + Refill(q, laterMs - nowMs))
  {
    var calls, c := Burst(tenant, tool, n, nowMs), Call(tenant, tool, 1, laterMs);
    BurstFacts(tenant, tool, n, nowMs);
    PassesIffItFits(default, calls, c);
    if n > 0 {
      FitsAfter(default, calls, LimiterKey(tenant, tool), QuotaFor(default, tool), laterMs);
    }
  }

  /** Of n calls at one time exactly as many are let through as the tool's capacity, if there are
      so many. */
  lemma {:induction false} BurstPasses(default: Quota, tenant: string, tool: string, n: nat, nowMs: int)
    requires QuotaFor(default, tool).capacity >= 0
    ensures |Burst(tenant, tool, n, nowMs)| == n
    ensures var q := QuotaFor(default, tool);
            Spent(default, Burst(tenant, tool, n, nowMs), LimiterKey(tenant, tool), 0, n)
            == if n <= q.capacity then n else q.capacity
  {
    if n > 0 {
      var calls, c := Burst(tenant, tool, n - 1, nowMs), Call(tenant, tool, 1, nowMs);
      BurstFacts(tenant, tool, n - 1, nowMs);
      BurstPasses(default, tenant, tool, n - 1, nowMs);
      AfterBurst(default, tenant, tool, n - 1, nowMs, nowMs);
      SpentBefore(default, calls, c, LimiterKey(tenant, tool), 0, n - 1);
    }
  }

  /** After as many calls as the capacity, the next is let through once a token has been refilled. */
  lemma NextAfterBurst(default: Quota, tenant: string, tool: string, nowMs: int, ms: nat)
    requires QuotaFor(default, tool).capacity >= 1
    ensures var q := QuotaFor(default, tool);
            |Burst(tenant, tool, q.capacity, nowMs)| == q.capacity &&
            (Passes(default, Burst(tenant, tool, q.capacity, nowMs) + [Call(tenant, tool, 1, nowMs + ms)], q.capacity)
             <==> Refill(q, ms) >= 1.0)
  {
    var q := QuotaFor(default, tool);
    BurstPasses(default, tenant, tool, q.capacity, nowMs);
    AfterBurst(default, tenant, tool, q.capacity, nowMs, nowMs + ms);
  }

  /** So many calls at once are let through, and one more exactly after a pause. */
  ghost predicate BurstsAt(default: Quota, tool: string, capacity: nat, pauseMs: nat, tenant: string, nowMs: int,
                           ms: nat) {
    var calls := Burst(tenant, tool, capacity, nowMs);
    && |calls| == capacity && Spent(default, calls, LimiterKey(tenant, tool), 0, capacity) == capacity
    && (Passes(default, calls + [Call(tenant, tool, 1, nowMs + ms)], capacity) <==> ms >= pauseMs)
  }

  lemma BurstsFor(default: Quota, tool: string, capacity: nat, pauseMs: nat, tenant: string, nowMs: int, ms: nat)
    requires QuotaFor(default, tool).capacity == capacity >= 1
    requires Refill(QuotaFor(default, tool), ms) >= 1.0 <==> ms >= pauseMs
    ensures BurstsAt(default, tool, capacity, pauseMs, tenant, nowMs, ms)
  {
    BurstPasses(default, tenant, tool, capacity, nowMs);
    NextAfterBurst(default, tenant, tool, nowMs, ms);
  }

  /** The expensive tools, whatever the default is: three calls of customer.build_context at once, the
      next after six seconds; thirty of either search, the next after half a second. */
  lemma ExpensiveTools(default: Quota, tenant: string, nowMs: int, ms: nat)
    ensures BurstsAt(default, "customer.build_context", 3, 6_000, tenant, nowMs, ms)
    ensures BurstsAt(default, "semantic_search", 30, 500, tenant, nowMs, ms)
    ensures BurstsAt(default, "hybrid_search", 30, 500, tenant, nowMs, ms)
  {
    GainIsRefill(QuotaFor(default, "customer.build_context"), ms);
    GainIsRefill(QuotaFor(default, "semantic_search"), ms);
    BurstsFor(default, "customer.build_context", 3, 6_000, tenant, nowMs, ms);
    BurstsFor(default, "semantic_search", 30, 500, tenant, nowMs, ms);
    BurstsFor(default, "hybrid_search", 30, 500, tenant, nowMs, ms);
  }
}
