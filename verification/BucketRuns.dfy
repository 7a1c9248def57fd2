/** What the token bucket admits over whole runs, and what its retry-after means. */
module BucketRuns {
  import opened Errors
  import opened CacheKeys
  import opened TokenBucket

  // ---------------------------------------------------------------------------------
  // Refilling
  // ---------------------------------------------------------------------------------

  lemma GainAdds(rate: real, a: int, b: int)
    requires a >= 0 && b >= 0
    ensures Gain(rate, a) + Gain(rate, b) == Gain(rate, a + b)
  {
  }

  lemma GainPositive(rate: real, ms: int)
    requires rate >= 0.0
    ensures Gain(rate, ms) >= 0.0
  {
  }

  /** Refilling in two stretches, each capped, is refilling once. */
  lemma RefillComposes(b: Bucket, capacity: int, rate: real, mid: int, nowMs: int)
    requires rate >= 0.0 && b.lastMs <= mid <= nowMs
    ensures Refilled(Bucket(Refilled(b, capacity, rate, mid), mid), capacity, rate, nowMs)
            == Refilled(b, capacity, rate, nowMs)
  {
  }

  // ---------------------------------------------------------------------------------
  // Admission over a run of the limiter
  // ---------------------------------------------------------------------------------

  datatype Call = Call(tenant: string, tool: string, cost: int, nowMs: int)

  ghost predicate TimesSorted(calls: seq<Call>) {
    forall i, j :: 0 <= i < j < |calls| ==> calls[i].nowMs <= calls[j].nowMs
  }

  function Hits(c: Call, key: string): bool {
    LimiterKey(c.tenant, c.tool) == key
  }

  /** The state after a run of the limiter. */
  function After(default: Quota, m: map<string, Bucket>, calls: seq<Call>): map<string, Bucket>
    decreases |calls|
  {
    if calls == [] then m
    else
      var c := calls[0];
      After(default, Acquired(default, m, c.tenant, c.tool, c.cost, c.nowMs).0, calls[1..])
  }

  /** The total cost admitted on `key` at times in [fromMs, toMs]. */
  function Admitted(default: Quota, m: map<string, Bucket>, calls: seq<Call>, key: string, fromMs: int, toMs: int): int
    decreases |calls|
  {
    if calls == [] then 0
    else
      var c := calls[0];
      var (m', v) := Acquired(default, m, c.tenant, c.tool, c.cost, c.nowMs);
      (if v.allowed && Hits(c, key) && fromMs <= c.nowMs <= toMs then c.cost else 0)
      + Admitted(default, m', calls[1..], key, fromMs, toMs)
  }

  lemma {:induction false} AppendCall(default: Quota, m: map<string, Bucket>, calls: seq<Call>, c: Call, key: string,
                                      fromMs: int, toMs: int)
    ensures var (m', v) := Acquired(default, After(default, m, calls), c.tenant, c.tool, c.cost, c.nowMs);
            && After(default, m, calls + [c]) == m'
            && Admitted(default, m, calls + [c], key, fromMs, toMs)
               == Admitted(default, m, calls, key, fromMs, toMs)
                  + if v.allowed && Hits(c, key) && fromMs <= c.nowMs <= toMs then c.cost else 0
    decreases |calls|
  {
    if calls == [] {
      assert ([c])[1..] == [];
      assert calls + [c] == [c];
    } else {
      var d := calls[0];
      AppendCall(default, Acquired(default, m, d.tenant, d.tool, d.cost, d.nowMs).0, calls[1..], c, key, fromMs, toMs);
      assert (calls + [c])[1..] == calls[1..] + [c];
    }
  }

  /** Every call that lands on `key` is for `tool`, so one quota governs it. */
  ghost predicate OneTool(calls: seq<Call>, key: string, tool: string) {
    forall i :: 0 <= i < |calls| && Hits(calls[i], key) ==> calls[i].tool == tool
  }

  /** The time the clock moved forward between successive uses of `key`, from `lastMs` on. */
  function Forward(calls: seq<Call>, key: string, lastMs: int): nat {
    if calls == [] then 0
    else if !Hits(calls[0], key) then Forward(calls[1..], key, lastMs)
    else (if calls[0].nowMs > lastMs then calls[0].nowMs - lastMs else 0) + Forward(calls[1..], key, calls[0].nowMs)
  }

  lemma StepBound(q: Quota, b: Bucket, cost: int, nowMs: int)
    requires q.capacity >= 0 && q.refillPerMinute >= 0 && b.tokens >= 0.0
    ensures var (b', v) := Consumed(Some(b), q.capacity, RatePerSecond(q), cost, nowMs);
            && b'.tokens >= 0.0 && b'.lastMs == nowMs
            && b'.tokens + (if v.allowed then cost as real else 0.0)
               == Refilled(b, q.capacity, RatePerSecond(q), nowMs)
            && Refilled(b, q.capacity, RatePerSecond(q), nowMs) <= q.capacity as real
            && Refilled(b, q.capacity, RatePerSecond(q), nowMs) <= b.tokens + Gain(RatePerSecond(q), nowMs - b.lastMs)
  {
  }

  /** Whatever the clock does, a stored bucket admits at most its tokens plus what the forward
      moves of the clock refill. */
  lemma {:induction false} ForwardBound(default: Quota, m: map<string, Bucket>, calls: seq<Call>, key: string,
                                        tool: string, lo: int, hi: int)
    requires OneTool(calls, key, tool) && key in m && m[key].tokens >= 0.0
    requires QuotaFor(default, tool).capacity >= 0 && QuotaFor(default, tool).refillPerMinute >= 0
    requires forall i :: 0 <= i < |calls| ==> lo <= calls[i].nowMs <= hi
    ensures Admitted(default, m, calls, key, lo, hi) as real
            <= m[key].tokens + Gain(RatePerSecond(QuotaFor(default, tool)), Forward(calls, key, m[key].lastMs))
    decreases |calls|
  {
    var q := QuotaFor(default, tool);
    var rate := RatePerSecond(q);
    if calls != [] {
      var c := calls[0];
      var m' := Acquired(default, m, c.tenant, c.tool, c.cost, c.nowMs).0;
      if Hits(c, key) {
        StepBound(q, m[key], c.cost, c.nowMs);
        ForwardBound(default, m', calls[1..], key, tool, lo, hi);
        var moved := if c.nowMs > m[key].lastMs then c.nowMs - m[key].lastMs else 0;
        GainAdds(rate, moved, Forward(calls[1..], key, c.nowMs));
      } else {
        ForwardBound(default, m', calls[1..], key, tool, lo, hi);
      }
    }
  }

  lemma {:induction false} NothingAfter(default: Quota, m: map<string, Bucket>, calls: seq<Call>, key: string,
                                        fromMs: int, toMs: int)
    requires TimesSorted(calls) && calls != [] && calls[0].nowMs > toMs
    ensures Admitted(default, m, calls, key, fromMs, toMs) == 0
    decreases |calls|
  {
    if |calls| > 1 {
      var c := calls[0];
      NothingAfter(default, Acquired(default, m, c.tenant, c.tool, c.cost, c.nowMs).0, calls[1..], key, fromMs, toMs);
    }
  }

  /** The balance one call leaves on its key: what it admitted and what remains come from the
      tokens there were and the time since. */
  lemma CallBalance(q: Quota, b: Bucket, cost: int, nowMs: int, toMs: int)
    requires q.capacity >= 0 && q.refillPerMinute >= 0 && b.tokens >= 0.0 && b.lastMs <= nowMs <= toMs
    ensures var rate := RatePerSecond(q);
            var (b', v) := Consumed(Some(b), q.capacity, rate, cost, nowMs);
            && b'.tokens >= 0.0 && b'.lastMs == nowMs
            && b'.tokens + Gain(rate, toMs - nowMs) + (if v.allowed then cost as real else 0.0)
               <= Min(q.capacity as real + Gain(rate, toMs - nowMs), b.tokens + Gain(rate, toMs - b.lastMs))
  {
  }

  /** Once in the window: at most the tokens now, plus the refill to the end of the window. */
  lemma {:induction false} SuffixBound(default: Quota, m: map<string, Bucket>, calls: seq<Call>, key: string,
                                       tool: string, fromMs: int, toMs: int)
    requires OneTool(calls, key, tool) && TimesSorted(calls) && key in m && m[key].tokens >= 0.0
    requires QuotaFor(default, tool).capacity >= 0 && QuotaFor(default, tool).refillPerMinute >= 0
    requires m[key].lastMs <= toMs
    requires forall i :: 0 <= i < |calls| ==> m[key].lastMs <= calls[i].nowMs && fromMs <= calls[i].nowMs
    ensures Admitted(default, m, calls, key, fromMs, toMs) as real
            <= m[key].tokens + Gain(RatePerSecond(QuotaFor(default, tool)), toMs - m[key].lastMs)
    decreases |calls|
  {
    if calls == [] || calls[0].nowMs > toMs {
      GainPositive(RatePerSecond(QuotaFor(default, tool)), toMs - m[key].lastMs);
      if calls != [] {
        NothingAfter(default, m, calls, key, fromMs, toMs);
      }
    } else {
      var c := calls[0];
      var m' := Acquired(default, m, c.tenant, c.tool, c.cost, c.nowMs).0;
      if Hits(c, key) {
        CallBalance(QuotaFor(default, tool), m[key], c.cost, c.nowMs, toMs);
      }
      SuffixBound(default, m', calls[1..], key, tool, fromMs, toMs);
    }
  }

  lemma GainMonotone(rate: real, a: int, b: int)
    requires rate >= 0.0 && 0 <= a <= b
    ensures Gain(rate, a) <= Gain(rate, b)
  {
  }

  ghost predicate NonNegative(m: map<string, Bucket>, key: string) {
    key in m ==> m[key].tokens >= 0.0
  }

  /** The first call of the window finds at most a full bucket. */
  lemma FirstInWindow(default: Quota, m: map<string, Bucket>, calls: seq<Call>, key: string, tool: string, fromMs: int,
                      toMs: int)
    requires OneTool(calls, key, tool) && TimesSorted(calls) && NonNegative(m, key)
    requires QuotaFor(default, tool).capacity >= 0 && QuotaFor(default, tool).refillPerMinute >= 0
    requires calls != [] && Hits(calls[0], key) && fromMs <= calls[0].nowMs <= toMs
    requires key in m ==> m[key].lastMs <= calls[0].nowMs
    ensures Admitted(default, m, calls, key, fromMs, toMs) as real
            <= QuotaFor(default, tool).capacity as real + Gain(RatePerSecond(QuotaFor(default, tool)), toMs - fromMs)
  {
    var c, q := calls[0], QuotaFor(default, tool);
    CallBalance(q, Loaded(At(m, key), q.capacity, c.nowMs), c.cost, c.nowMs, toMs);
    SuffixBound(default, Acquired(default, m, c.tenant, c.tool, c.cost, c.nowMs).0, calls[1..], key, tool, fromMs,
                toMs);
    GainMonotone(RatePerSecond(q), toMs - c.nowMs, toMs - fromMs);
  }

  lemma {:induction false} WindowBound(default: Quota, m: map<string, Bucket>, calls: seq<Call>, key: string,
                                       tool: string, fromMs: int, toMs: int)
    requires OneTool(calls, key, tool) && TimesSorted(calls) && NonNegative(m, key) && fromMs <= toMs
    requires QuotaFor(default, tool).capacity >= 0 && QuotaFor(default, tool).refillPerMinute >= 0
    requires forall i :: 0 <= i < |calls| && key in m ==> m[key].lastMs <= calls[i].nowMs
    ensures Admitted(default, m, calls, key, fromMs, toMs) as real
            <= QuotaFor(default, tool).capacity as real + Gain(RatePerSecond(QuotaFor(default, tool)), toMs - fromMs)
    decreases |calls|
  {
    var q := QuotaFor(default, tool);
    GainPositive(RatePerSecond(q), toMs - fromMs);
    if calls != [] {
      var c := calls[0];
      var m' := Acquired(default, m, c.tenant, c.tool, c.cost, c.nowMs).0;
      if c.nowMs > toMs {
        NothingAfter(default, m, calls, key, fromMs, toMs);
      } else if Hits(c, key) && c.nowMs >= fromMs {
        FirstInWindow(default, m, calls, key, tool, fromMs, toMs);
      } else {
        if Hits(c, key) {
          CallBalance(q, Loaded(At(m, key), q.capacity, c.nowMs), c.cost, c.nowMs, toMs);
        }
        WindowBound(default, m', calls[1..], key, tool, fromMs, toMs);
      }
    }
  }

  /** Tenants, or tools, are colon-free. */
  predicate Apart(a: string, tool: string, b: string, other: string) {
    (ColonFree(a) && ColonFree(b)) || (ColonFree(tool) && ColonFree(other))
  }

  /** Limiter keys are equal exactly when tenant and tool, joined by a colon, spell the same. */
  lemma LimiterKeysEqualIff(a: string, tool: string, b: string, other: string)
    ensures LimiterKey(a, tool) == LimiterKey(b, other) <==> FullName(a, tool) == FullName(b, other)
  {
    assert LimiterKey(a, tool) == "atlas:rl:" + FullName(a, tool);
    assert LimiterKey(b, other) == "atlas:rl:" + FullName(b, other);
    if LimiterKey(a, tool) == LimiterKey(b, other) {
      Unprefix("atlas:rl:", FullName(a, tool), FullName(b, other));
    }
  }

  /** With colon-free tenants, or colon-free tools, a limiter key names one tenant and one tool. */
  lemma LimiterKeyInjective(a: string, b: string, tool: string, other: string)
    requires Apart(a, tool, b, other) && LimiterKey(a, tool) == LimiterKey(b, other)
    ensures a == b && tool == other
  {
    LimiterKeysEqualIff(a, tool, b, other);
    if ColonFree(tool) && ColonFree(other) {
      LastColonSplits(a, tool, b, other);
    } else {
      NameBeforeColon(a, b, other);
      assert tool == FullName(a, tool)[|a| + 1..];
    }
  }

  /** Over any run of the limiter with nondecreasing timestamps, from no stored bucket, the cost
      a tenant gets admitted on a tool in any window is at most the tool's capacity plus the
      refill over the window. */
  lemma AdmissionBound(default: Quota, calls: seq<Call>, tenant: string, tool: string, fromMs: int, toMs: int)
    requires TimesSorted(calls) && fromMs <= toMs
    requires forall i :: 0 <= i < |calls| ==> Apart(calls[i].tenant, calls[i].tool, tenant, tool)
    requires default.capacity >= 0 && default.refillPerMinute >= 0
    ensures var q := QuotaFor(default, tool);
            Admitted(default, map[], calls, LimiterKey(tenant, tool), fromMs, toMs) as real
            <= q.capacity as real + Gain(RatePerSecond(q), toMs - fromMs)
  {
    forall i | 0 <= i < |calls| && Hits(calls[i], LimiterKey(tenant, tool)) ensures calls[i].tool == tool {
      LimiterKeyInjective(calls[i].tenant, tenant, calls[i].tool, tool);
    }
    WindowBound(default, map[], calls, LimiterKey(tenant, tool), tool, fromMs, toMs);
  }

  // ---------------------------------------------------------------------------------
  // Which clocks keep the window bound
  // ---------------------------------------------------------------------------------

  /** Calls of one tenant on one tool, at these times, for these costs. */
  function CallsAt(tenant: string, tool: string, ts: seq<int>, costs: seq<int>): seq<Call>
    requires |ts| == |costs|
  {
    if ts == [] then []
    else [Call(tenant, tool, costs[0], ts[0])] + CallsAt(tenant, tool, ts[1..], costs[1..])
  }

  /** The forward moves of a clock that reads `last` and then these times. */
  function ForwardMoves(ts: seq<int>, last: int): nat {
    if ts == [] then 0 else (if ts[0] > last then ts[0] - last else 0) + ForwardMoves(ts[1..], ts[0])
  }

  /** From the first call on, the clock moves forward no more than the window is long. */
  predicate Steady(ts: seq<int>, lo: int, hi: int) {
    ts != [] ==> ForwardMoves(ts[1..], ts[0]) <= hi - lo
  }

  predicate HasDefaultQuota(tool: string) {
    tool != "customer.build_context" && tool != "semantic_search" && tool != "hybrid_search"
  }

  predicate KeepsBound(tenant: string, tool: string, ts: seq<int>, lo: int, hi: int, q: Quota, costs: seq<int>)
    requires |ts| == |costs|
  {
    Admitted(q, map[], CallsAt(tenant, tool, ts, costs), LimiterKey(tenant, tool), lo, hi) as real
    <= q.capacity as real + Gain(RatePerSecond(q), hi - lo)
  }

  lemma {:induction false} CallsAtFacts(tenant: string, tool: string, ts: seq<int>, costs: seq<int>, last: int)
    requires |ts| == |costs|
    ensures var calls := CallsAt(tenant, tool, ts, costs);
            && |calls| == |ts| && Forward(calls, LimiterKey(tenant, tool), last) == ForwardMoves(ts, last)
            && (forall i :: 0 <= i < |ts| ==> calls[i] == Call(tenant, tool, costs[i], ts[i]))
  {
    if ts != [] {
      CallsAtFacts(tenant, tool, ts[1..], costs[1..], ts[0]);
      assert CallsAt(tenant, tool, ts, costs)[1..] == CallsAt(tenant, tool, ts[1..], costs[1..]);
    }
  }

  lemma SteadyKeepsBound(tenant: string, tool: string, ts: seq<int>, lo: int, hi: int, q: Quota, costs: seq<int>)
    requires |ts| == |costs| && HasDefaultQuota(tool) && lo <= hi && q.capacity >= 0 && q.refillPerMinute >= 0
    requires Steady(ts, lo, hi) && forall i :: 0 <= i < |ts| ==> lo <= ts[i] <= hi
    ensures KeepsBound(tenant, tool, ts, lo, hi, q, costs)
  {
    var key, rate := LimiterKey(tenant, tool), RatePerSecond(q);
    GainPositive(rate, hi - lo);
    if ts != [] {
      var calls, rest := CallsAt(tenant, tool, ts, costs), CallsAt(tenant, tool, ts[1..], costs[1..]);
      CallsAtFacts(tenant, tool, ts[1..], costs[1..], ts[0]);
      assert calls[0] == Call(tenant, tool, costs[0], ts[0]) && calls[1..] == rest;
      var m := Acquired(q, map[], tenant, tool, costs[0], ts[0]).0;
      StepBound(q, Loaded(None, q.capacity, ts[0]), costs[0], ts[0]);
      ForwardBound(q, m, rest, key, tool, lo, hi);
      GainMonotone(rate, ForwardMoves(ts[1..], ts[0]), hi - lo);
    }
  }

  /** Ask at every time for exactly what the clock's last move refilled. */
  function Greedy(ts: seq<int>, last: int): (costs: seq<int>)
    ensures |costs| == |ts|
  {
    if ts == [] then [] else [if ts[0] > last then ts[0] - last else 0] + Greedy(ts[1..], ts[0])
  }

  /** One token a millisecond. */
  const FAST_RPM := 60_000

  lemma FastGain(ms: int)
    ensures Gain(RatePerSecond(Quota(0, FAST_RPM)), ms) == if ms <= 0 then 0.0 else ms as real
  {
    assert RatePerSecond(Quota(0, FAST_RPM)) == 1000.0;
  }

  lemma {:induction false} GreedyTakesAll(tenant: string, tool: string, m: map<string, Bucket>, ts: seq<int>, last: int,
                                          lo: int, hi: int)
    requires HasDefaultQuota(tool) && lo <= last <= hi && forall i :: 0 <= i < |ts| ==> lo <= ts[i] <= hi
    requires At(m, LimiterKey(tenant, tool)) == Some(Bucket(0.0, last))
    ensures Admitted(Quota(hi - lo, FAST_RPM), m, CallsAt(tenant, tool, ts, Greedy(ts, last)), LimiterKey(tenant, tool),
                     lo, hi) == ForwardMoves(ts, last)
    decreases |ts|
  {
    if ts != [] {
      var q, costs, key := Quota(hi - lo, FAST_RPM), Greedy(ts, last), LimiterKey(tenant, tool);
      var calls := CallsAt(tenant, tool, ts, costs);
      FastGain(ts[0] - last);
      assert costs[1..] == Greedy(ts[1..], ts[0]);
      assert calls[0] == Call(tenant, tool, costs[0], ts[0]);
      assert calls[1..] == CallsAt(tenant, tool, ts[1..], costs[1..]);
      var (m', v) := Acquired(q, m, tenant, tool, costs[0], ts[0]);
      assert v.allowed && At(m', key) == Some(Bucket(0.0, ts[0]));
      GreedyTakesAll(tenant, tool, m', ts[1..], ts[0], lo, hi);
    }
  }

  lemma UnsteadyBreaksBound(tenant: string, tool: string, ts: seq<int>, lo: int, hi: int)
    requires HasDefaultQuota(tool) && lo <= hi && forall i :: 0 <= i < |ts| ==> lo <= ts[i] <= hi
    requires !Steady(ts, lo, hi)
    ensures !KeepsBound(tenant, tool, ts, lo, hi, Quota(hi - lo, FAST_RPM), [hi - lo] + Greedy(ts[1..], ts[0]))
  {
    var q, costs, key := Quota(hi - lo, FAST_RPM), [hi - lo] + Greedy(ts[1..], ts[0]), LimiterKey(tenant, tool);
    var calls := CallsAt(tenant, tool, ts, costs);
    assert costs[1..] == Greedy(ts[1..], ts[0]);
    assert calls[0] == Call(tenant, tool, hi - lo, ts[0]);
    assert calls[1..] == CallsAt(tenant, tool, ts[1..], costs[1..]);
    var (m, v) := Acquired(q, map[], tenant, tool, hi - lo, ts[0]);
    assert v.allowed && At(m, key) == Some(Bucket(0.0, ts[0]));
    GreedyTakesAll(tenant, tool, m, ts[1..], ts[0], lo, hi);
    FastGain(hi - lo);
  }

  /** On a clock that reads these times at the calls of one tenant on one tool, all within a window,
      the window bound holds for all quotas and costs if and only if from the first call on the
      clock moves forward no more than the window is long. A clock that never goes back does. */
  lemma SteadyClockIff(tenant: string, tool: string, ts: seq<int>, lo: int, hi: int)
    requires HasDefaultQuota(tool) && lo <= hi && forall i :: 0 <= i < |ts| ==> lo <= ts[i] <= hi
    ensures (forall q: Quota, costs: seq<int> :: q.capacity >= 0 && q.refillPerMinute >= 0 && |costs| == |ts| ==>
               KeepsBound(tenant, tool, ts, lo, hi, q, costs))
            <==> Steady(ts, lo, hi)
  {
    if Steady(ts, lo, hi) {
      forall q: Quota, costs: seq<int> | q.capacity >= 0 && q.refillPerMinute >= 0 && |costs| == |ts|
        ensures KeepsBound(tenant, tool, ts, lo, hi, q, costs)
      {
        SteadyKeepsBound(tenant, tool, ts, lo, hi, q, costs);
      }
    } else {
      UnsteadyBreaksBound(tenant, tool, ts, lo, hi);
      assert |[hi - lo] + Greedy(ts[1..], ts[0])| == |ts|;
    }
  }

  /** A clock that never goes back is steady. */
  lemma {:induction false} SortedIsSteady(ts: seq<int>, last: int, hi: int)
    requires (forall i :: 0 <= i < |ts| ==> last <= ts[i] <= hi) && last <= hi
    requires forall i, j :: 0 <= i < j < |ts| ==> ts[i] <= ts[j]
    ensures ForwardMoves(ts, last) <= hi - last
  {
    if ts != [] {
      SortedIsSteady(ts[1..], ts[0], hi);
    }
  }

  /** Stored tokens stay between zero and the capacity, on any clock, for costs not negative. */
  lemma {:induction false} TokensInRange(default: Quota, m: map<string, Bucket>, calls: seq<Call>, key: string,
                                         tool: string)
    requires OneTool(calls, key, tool) && forall i :: 0 <= i < |calls| ==> calls[i].cost >= 0
    requires QuotaFor(default, tool).capacity >= 0 && QuotaFor(default, tool).refillPerMinute >= 0
    requires key in m ==> 0.0 <= m[key].tokens <= QuotaFor(default, tool).capacity as real
    ensures key in After(default, m, calls) ==>
              0.0 <= After(default, m, calls)[key].tokens <= QuotaFor(default, tool).capacity as real
    decreases |calls|
  {
    if calls != [] {
      var c, q := calls[0], QuotaFor(default, tool);
      if Hits(c, key) {
        StepBound(q, Loaded(At(m, key), q.capacity, c.nowMs), c.cost, c.nowMs);
      }
      TokensInRange(default, Acquired(default, m, c.tenant, c.tool, c.cost, c.nowMs).0, calls[1..], key, tool);
    }
  }

  /** A clock that goes back re-credits tokens: the window bound needs nondecreasing times. */
  lemma BackwardClockOverAdmits()
    ensures var calls := [Call("t", "x", 1, 1000), Call("t", "x", 1, 0), Call("t", "x", 1, 1000),
                          Call("t", "x", 1, 0), Call("t", "x", 1, 1000)];
            Admitted(Quota(1, 60), map[], calls, LimiterKey("t", "x"), 0, 1000) == 3
  {
  }

  // ---------------------------------------------------------------------------------
  // Retry-after
  // ---------------------------------------------------------------------------------

  datatype Poll = Poll(cost: int, nowMs: int)

  /** The bucket after a sequence of polls. */
  function Polled(b: Bucket, capacity: int, rate: real, polls: seq<Poll>): Bucket
    decreases |polls|
  {
    if polls == [] then b
    else Polled(Consumed(Some(b), capacity, rate, polls[0].cost, polls[0].nowMs).0, capacity, rate, polls[1..])
  }

  /** The polls come in order, none before the bucket's last use, and each is denied. */
  ghost predicate AllDenied(b: Bucket, capacity: int, rate: real, polls: seq<Poll>)
    decreases |polls|
  {
    polls == [] ||
    var (b', v) := Consumed(Some(b), capacity, rate, polls[0].cost, polls[0].nowMs);
    b.lastMs <= polls[0].nowMs && !v.allowed && AllDenied(b', capacity, rate, polls[1..])
  }

  /** Denied polls leave the refill of any later time unchanged. */
  lemma {:induction false} PollsDoNotDelay(b: Bucket, capacity: int, rate: real, polls: seq<Poll>, nowMs: int)
    requires rate >= 0.0 && AllDenied(b, capacity, rate, polls) && b.lastMs <= nowMs
    requires Polled(b, capacity, rate, polls).lastMs <= nowMs
    ensures Refilled(Polled(b, capacity, rate, polls), capacity, rate, nowMs) == Refilled(b, capacity, rate, nowMs)
    decreases |polls|
  {
    if polls != [] {
      var b' := Consumed(Some(b), capacity, rate, polls[0].cost, polls[0].nowMs).0;
      PollsOrdered(b', capacity, rate, polls[1..]);
      PollsDoNotDelay(b', capacity, rate, polls[1..], nowMs);
      RefillComposes(b, capacity, rate, polls[0].nowMs, nowMs);
    }
  }

  lemma {:induction false} PollsOrdered(b: Bucket, capacity: int, rate: real, polls: seq<Poll>)
    requires AllDenied(b, capacity, rate, polls)
    ensures b.lastMs <= Polled(b, capacity, rate, polls).lastMs
    decreases |polls|
  {
    if polls != [] {
      PollsOrdered(Consumed(Some(b), capacity, rate, polls[0].cost, polls[0].nowMs).0, capacity, rate, polls[1..]);
    }
  }

  /** `ms` milliseconds refill the deficit exactly from RetryAfter on. */
  lemma RetryThreshold(rate: real, deficit: real, ms: int)
    requires rate > 0.0 && deficit > 0.0 && ms >= 0
    ensures Gain(rate, ms) >= deficit <==> ms >= RetryAfter(deficit, rate)
  {
    var x := deficit / rate * 1000.0;
    assert x * rate == deficit * 1000.0;
    assert ms as real * rate >= x * rate <==> ms as real >= x;
    CeilThreshold(x, ms);
  }

  lemma CeilThreshold(x: real, n: int)
    ensures n as real >= x <==> n >= Ceil(x)
  {
  }

  /** After a denial, with any number of denied polls in between, the same request is admitted
      at exactly the times from now + retryAfterMs on. */
  lemma RetryAfterExact(stored: Option<Bucket>, capacity: int, rate: real, cost: int, nowMs: int, polls: seq<Poll>,
                        laterMs: int)
    requires rate > 0.0 && cost <= capacity
    requires var (b, v) := Consumed(stored, capacity, rate, cost, nowMs);
             && !v.allowed && AllDenied(b, capacity, rate, polls)
             && Polled(b, capacity, rate, polls).lastMs <= laterMs
    ensures var (b, v) := Consumed(stored, capacity, rate, cost, nowMs);
            Consumed(Some(Polled(b, capacity, rate, polls)), capacity, rate, cost, laterMs).1.allowed
            <==> laterMs >= nowMs + v.retryAfterMs
  {
    var (b, v) := Consumed(stored, capacity, rate, cost, nowMs);
    PollsOrdered(b, capacity, rate, polls);
    PollsDoNotDelay(b, capacity, rate, polls, laterMs);
    RetryThreshold(rate, cost as real - b.tokens, laterMs - nowMs);
  }

  /** The promise is kept exactly when the request fits the bucket and the bucket refills. */
  lemma RetryPromiseKept(b: Bucket, capacity: int, rate: real, cost: int, nowMs: int)
    requires rate >= 0.0 && !Consumed(Some(b), capacity, rate, cost, nowMs).1.allowed
    ensures var (after, v) := Consumed(Some(b), capacity, rate, cost, nowMs);
            Consumed(Some(after), capacity, rate, cost, nowMs + v.retryAfterMs).1.allowed
            <==> cost <= capacity && rate > 0.0
  {
  }

  /** A bucket that does not refill turns whatever does not fit away for good, each time for an hour. */
  lemma NeverRefilled(b: Bucket, capacity: int, cost: int, nowMs: int)
    requires !Consumed(Some(b), capacity, 0.0, cost, nowMs).1.allowed
    ensures Consumed(Some(b), capacity, 0.0, cost, nowMs).1.retryAfterMs == 60 * 60 * 1000
    ensures forall later :: !Consumed(Some(Consumed(Some(b), capacity, 0.0, cost, nowMs).0), capacity, 0.0, cost,
                                      later).1.allowed
  {
  }

  // ---------------------------------------------------------------------------------
  // The two backends
  // ---------------------------------------------------------------------------------

  /** The verdicts of a run of polls, without and with the hour's expiry. */
  function Verdicts(stored: Option<Bucket>, capacity: int, rate: real, expiring: bool,
                    polls: seq<Poll>): (vs: seq<Verdict>)
    ensures |vs| == |polls|
    decreases |polls|
  {
    if polls == [] then []
    else
      var found := if expiring then Unexpired(stored, polls[0].nowMs) else stored;
      var (b, v) := Consumed(found, capacity, rate, polls[0].cost, polls[0].nowMs);
      [v] + Verdicts(Some(b), capacity, rate, expiring, polls[1..])
  }

  ghost predicate PollsSorted(polls: seq<Poll>) {
    forall i, j :: 0 <= i < j < |polls| ==> polls[i].nowMs <= polls[j].nowMs
  }

  /** An hour refills any bucket that is not overdrawn, if the capacity allows. */
  lemma HourFills(b: Bucket, capacity: nat, rate: real, nowMs: int)
    requires rate > 0.0 && capacity as real <= 3600.0 * rate && b.tokens >= 0.0 && nowMs - b.lastMs >= IDLE_EXPIRY_MS
    ensures Refilled(b, capacity, rate, nowMs) == capacity as real
  {
  }

  lemma {:induction false} BackendsAgreeFrom(stored: Option<Bucket>, capacity: nat, rate: real, polls: seq<Poll>)
    requires rate > 0.0 && capacity as real <= 3600.0 * rate && PollsSorted(polls)
    requires stored.Some? ==> stored.value.tokens >= 0.0
    ensures Verdicts(stored, capacity, rate, true, polls) == Verdicts(stored, capacity, rate, false, polls)
    decreases |polls|
  {
    if polls != [] {
      var p := polls[0];
      var tokens := Refilled(Loaded(stored, capacity, p.nowMs), capacity, rate, p.nowMs);
      if stored.Some? {
        GainPositive(rate, p.nowMs - stored.value.lastMs);
        if p.nowMs - stored.value.lastMs >= IDLE_EXPIRY_MS {
          HourFills(stored.value, capacity, rate, p.nowMs);
        }
      }
      assert tokens >= 0.0;
      assert tokens == Refilled(Loaded(Unexpired(stored, p.nowMs), capacity, p.nowMs), capacity, rate, p.nowMs);
      BackendsAgreeFrom(Some(Consumed(stored, capacity, rate, p.cost, p.nowMs).0), capacity, rate, polls[1..]);
    }
  }

  /** Drain the bucket, stay away for an hour, and ask for all of it again. */
  function DrainAndReturn(capacity: nat): seq<Poll> {
    [Poll(capacity, 0), Poll(capacity, IDLE_EXPIRY_MS)]
  }

  lemma SlowRefillDisagrees(capacity: nat, rate: real)
    requires rate > 0.0 && capacity as real > 3600.0 * rate
    ensures PollsSorted(DrainAndReturn(capacity))
    ensures Verdicts(None, capacity, rate, true, DrainAndReturn(capacity))
            != Verdicts(None, capacity, rate, false, DrainAndReturn(capacity))
  {
    var polls := DrainAndReturn(capacity);
    var drained := Bucket(0.0, 0);
    assert Consumed(None, capacity, rate, capacity, 0) == (drained, Verdict(true, 0));
    assert Gain(rate, IDLE_EXPIRY_MS) == 3600.0 * rate;
    assert !Consumed(Some(drained), capacity, rate, capacity, IDLE_EXPIRY_MS).1.allowed;
    assert Consumed(None, capacity, rate, capacity, IDLE_EXPIRY_MS).1.allowed;
    assert polls[1..] == [Poll(capacity, IDLE_EXPIRY_MS)];
    var last := [Poll(capacity, IDLE_EXPIRY_MS)];
    assert Verdicts(Some(drained), capacity, rate, true, last)[0].allowed;
    assert !Verdicts(Some(drained), capacity, rate, false, last)[0].allowed;
    assert Verdicts(None, capacity, rate, true, polls)[1].allowed;
    assert !Verdicts(None, capacity, rate, false, polls)[1].allowed;
  }

  /** For a positive rate, the script with its hour of idle expiry answers like the in-memory
      bucket on every run with nondecreasing timestamps if and only if an hour fills the bucket. */
  lemma BackendsAgree(capacity: nat, rate: real)
    requires rate > 0.0
    ensures (forall polls :: PollsSorted(polls) ==>
               Verdicts(None, capacity, rate, true, polls) == Verdicts(None, capacity, rate, false, polls))
            <==> capacity as real <= 3600.0 * rate
  {
    if capacity as real <= 3600.0 * rate {
      forall polls | PollsSorted(polls)
        ensures Verdicts(None, capacity, rate, true, polls) == Verdicts(None, capacity, rate, false, polls)
      {
        BackendsAgreeFrom(None, capacity, rate, polls);
      }
    } else {
      SlowRefillDisagrees(capacity, rate);
    }
  }
}
