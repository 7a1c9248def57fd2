/**
  The token bucket behind the rate limiter, its two backends, and the limiter itself.

  Token counts are exact reals and timestamps integer milliseconds.
*/
module TokenBucket {
  import opened Errors

  datatype Bucket = Bucket(tokens: real, lastMs: int)

  datatype Verdict = Verdict(allowed: bool, retryAfterMs: int)

  /** The tokens `ms` milliseconds refill; none when the clock went back. */
  function Gain(rate: real, ms: int): real {
    if ms <= 0 then 0.0 else ms as real / 1000.0 * rate
  }

  function Min(a: real, b: real): real {
    if a <= b then a else b
  }

  function Ceil(x: real): int {
    -((-x).Floor)
  }

  function Refilled(b: Bucket, capacity: int, rate: real, nowMs: int): real {
    Min(capacity as real, b.tokens + Gain(rate, nowMs - b.lastMs))
  }

  /** A bucket that is not stored is full. */
  function Loaded(stored: Option<Bucket>, capacity: int, nowMs: int): Bucket {
    match stored
    case None => Bucket(capacity as real, nowMs)
    case Some(b) => b
  }

  function RetryAfter(deficit: real, rate: real): int {
    if rate != 0.0 then Ceil(deficit / rate * 1000.0) else 3_600_000
  }

  function Consumed(stored: Option<Bucket>, capacity: int, rate: real, cost: int, nowMs: int): (Bucket, Verdict) {
    var tokens := Refilled(Loaded(stored, capacity, nowMs), capacity, rate, nowMs);
    if tokens >= cost as real then
      (Bucket(tokens - cost as real, nowMs), Verdict(true, 0))
    else
      (Bucket(tokens, nowMs), Verdict(false, RetryAfter(cost as real - tokens, rate)))
  }

  function At(buckets: map<string, Bucket>, key: string): Option<Bucket> {
    if key in buckets then Some(buckets[key]) else None
  }

  class InMemoryTokenBucket {
    var buckets: map<string, Bucket>

    constructor ()
      ensures buckets == map[]
    {
      buckets := map[];
    }

    method Consume(key: string, capacity: int, rate: real, cost: int, nowMs: int) returns (verdict: Verdict)
      modifies this
      ensures var (b, v) := Consumed(At(old(buckets), key), capacity, rate, cost, nowMs);
              verdict == v && buckets == old(buckets)[key := b]
    {
      var tokens, lastMs := capacity as real, nowMs;
      if key in buckets {
        tokens, lastMs := buckets[key].tokens, buckets[key].lastMs;
      }
      var elapsed := if nowMs > lastMs then (nowMs - lastMs) as real / 1000.0 else 0.0;
      tokens := Min(capacity as real, tokens + elapsed * rate);
      if tokens >= cost as real {
        tokens := tokens - cost as real;
        buckets := buckets[key := Bucket(tokens, nowMs)];
        return Verdict(true, 0);
      }
      var deficit := cost as real - tokens;
      var retryAfterMs := if rate != 0.0 then Ceil(deficit / rate * 1000.0) else 3_600_000;
      buckets := buckets[key := Bucket(tokens, nowMs)];
      return Verdict(false, retryAfterMs);
    }
  }

  const IDLE_EXPIRY_MS := 3_600_000

  /** What the script's HMGET finds: a bucket idle for an hour has expired. */
  function Unexpired(stored: Option<Bucket>, nowMs: int): Option<Bucket> {
    if stored.Some? && nowMs - stored.value.lastMs >= IDLE_EXPIRY_MS then None else stored
  }

  /** The script's reply: a wait divided by a zero rate is infinite, and `overflow` is what the
      reply makes of it. */
  function Replied(v: Verdict, rate: real, overflow: int): Verdict {
    if v.allowed || rate != 0.0 then v else Verdict(false, overflow)
  }

  /** The Redis backend, as its script leaves the store. The script writes `last_ms` and renews
      the expiry together, on a clock taken to be the caller's. */
  class RedisTokenBucket {
    var hashes: map<string, Bucket>
    var expireAt: map<string, int>

    ghost predicate Valid()
      reads this
    {
      hashes.Keys == expireAt.Keys && forall k :: k in hashes ==> expireAt[k] == hashes[k].lastMs + IDLE_EXPIRY_MS
    }

    constructor ()
      ensures Valid() && hashes == map[]
    {
      hashes, expireAt := map[], map[];
    }

    /** The arithmetic between HMGET and HMSET. */
    static method RunScript(bucket: Option<Bucket>, capacity: int, rate: real, cost: int, nowMs: int, overflow: int)
      returns (after: Bucket, verdict: Verdict)
      ensures after == Consumed(bucket, capacity, rate, cost, nowMs).0
      ensures verdict == Replied(Consumed(bucket, capacity, rate, cost, nowMs).1, rate, overflow)
    {
      var tokens := if bucket.Some? then bucket.value.tokens else capacity as real;
      var lastMs := if bucket.Some? then bucket.value.lastMs else nowMs;
      var elapsed := if nowMs > lastMs then (nowMs - lastMs) as real / 1000.0 else 0.0;
      tokens := Min(capacity as real, tokens + elapsed * rate);
      if tokens >= cost as real {
        return Bucket(tokens - cost as real, nowMs), Verdict(true, 0);
      }
      var deficit := cost as real - tokens;
      return Bucket(tokens, nowMs), Verdict(false, if rate != 0.0 then Ceil(deficit / rate * 1000.0) else overflow);
    }

    method Evalsha(key: string, capacity: int, rate: real, cost: int, nowMs: int, overflow: int)
      returns (verdict: Verdict)
      requires Valid()
      modifies this
      ensures Valid()
      ensures var (b, v) := Consumed(Unexpired(At(old(hashes), key), nowMs), capacity, rate, cost, nowMs);
              hashes == old(hashes)[key := b] && verdict == Replied(v, rate, overflow)
    {
      var bucket := if key in hashes && expireAt[key] > nowMs then Some(hashes[key]) else None;
      assert bucket == Unexpired(At(hashes, key), nowMs);
      var after;
      after, verdict := RunScript(bucket, capacity, rate, cost, nowMs, overflow);
      hashes := hashes[key := after];
      expireAt := expireAt[key := nowMs + IDLE_EXPIRY_MS];
    }
  }

  datatype Quota = Quota(capacity: int, refillPerMinute: int)

  /** The default quota; three expensive tools have their own. */
  function QuotaFor(default: Quota, tool: string): Quota {
    if tool == "customer.build_context" then Quota(3, 10)
    else if tool == "semantic_search" || tool == "hybrid_search" then Quota(30, 120)
    else default
  }

  function RatePerSecond(q: Quota): real {
    q.refillPerMinute as real / 60.0
  }

  function LimiterKey(tenant: string, tool: string): string {
    "atlas:rl:" + tenant + ":" + tool
  }

  function Acquired(default: Quota, buckets: map<string, Bucket>, tenant: string, tool: string, cost: int, nowMs: int):
      (map<string, Bucket>, Verdict)
  {
    var q := QuotaFor(default, tool);
    var key := LimiterKey(tenant, tool);
    var (b, v) := Consumed(At(buckets, key), q.capacity, RatePerSecond(q), cost, nowMs);
    (buckets[key := b], v)
  }

  class RateLimiter {
    const default: Quota
    const overrides: map<string, Quota>
    const backend: InMemoryTokenBucket

    constructor (default: Quota)
      ensures this.default == default && fresh(backend) && backend.buckets == map[] && Valid()
    {
      this.default := default;
      overrides := map["customer.build_context" := Quota(3, 10), "semantic_search" := Quota(30, 120),
                       "hybrid_search" := Quota(30, 120)];
      backend := new InMemoryTokenBucket();
    }

    ghost predicate Valid() {
      forall tool :: QuotaFor(default, tool) == if tool in overrides then overrides[tool] else default
    }

    /** None when admitted, otherwise the RateLimitError and its retry-after in seconds. */
    method Acquire(tenant: string, tool: string, cost: int, nowMs: int) returns (retryAfterSeconds: Option<real>)
      requires Valid()
      modifies backend
      ensures var (m, v) := Acquired(default, old(backend.buckets), tenant, tool, cost, nowMs);
              && backend.buckets == m
              && retryAfterSeconds == if v.allowed then None else Some(v.retryAfterMs as real / 1000.0)
    {
      var quota := if tool in overrides then overrides[tool] else default;
      assert quota == QuotaFor(default, tool);
      var rate := quota.refillPerMinute as real / 60.0;
      var verdict := backend.Consume(LimiterKey(tenant, tool), quota.capacity, rate, cost, nowMs);
      if !verdict.allowed {
        return Some(verdict.retryAfterMs as real / 1000.0);
      }
      return None;
    }
  }
}
