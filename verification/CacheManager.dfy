/**
  The two-tier cache: the in-process store in front of a second tier with its own time to
  live, and the stampede locks of the second tier.

  The second tier is the in-memory backend. Values stand for their JSON text: encoding and
  decoding is the identity on them. The functions give each operation on a Cache value; the
  classes run the operations in place.
*/
module CacheManager {
  import opened Errors
  import opened Lru
  import opened CacheKeys

  datatype Settings = Settings(l1MaxItems: nat, l1Ttl: int, l2Ttl: int)

  datatype Stored<V> = Stored(value: V, expiresAt: real)

  datatype Cache<V> = Cache(
    l1: seq<Entry<V>>, l2: map<Key, Stored<V>>, locks: map<string, real>, hits: nat, misses: nat)

  const STAMPEDE_LOCK_TTL_MS := 5_000
  const STAMPEDE_WAIT_MS := 25
  const STAMPEDE_MAX_WAITS := 40

  function Seconds(ms: int): real {
    ms as real / 1000.0
  }

  function LockKey(key: Key): string {
    key + ":lock"
  }

  /** `ttl or default`: both an absent and a zero ttl fall back to the setting. */
  function L2Ttl(cfg: Settings, ttl: Option<int>): int {
    if ttl.None? || ttl.value == 0 then cfg.l2Ttl else ttl.value
  }

  function L1Ttl(cfg: Settings, ttl: Option<int>): int {
    if L2Ttl(cfg, ttl) < cfg.l1Ttl then L2Ttl(cfg, ttl) else cfg.l1Ttl
  }

  function CacheGet<V>(cfg: Settings, c: Cache<V>, key: Key, now: real): (Cache<V>, Option<V>) {
    var (l1, hit) := AfterGet(c.l1, key, now);
    if hit.Some? then
      (c.(l1 := l1, hits := c.hits + 1), hit)
    else if key in c.l2 && c.l2[key].expiresAt >= now then
      var value := c.l2[key].value;
      (c.(l1 := AfterSet(l1, cfg.l1MaxItems, key, value, now + cfg.l1Ttl as real), hits := c.hits + 1), Some(value))
    else
      (c.(l1 := l1, l2 := c.l2 - {key}, misses := c.misses + 1), None)
  }

  function CacheSet<V>(cfg: Settings, c: Cache<V>, key: Key, value: V, ttl: Option<int>, now: real): Cache<V> {
    c.(l1 := AfterSet(c.l1, cfg.l1MaxItems, key, value, now + L1Ttl(cfg, ttl) as real),
       l2 := c.l2[key := Stored(value, now + L2Ttl(cfg, ttl) as real)])
  }

  function CacheDelete<V>(c: Cache<V>, key: Key): Cache<V> {
    c.(l1 := Without(c.l1, {key}), l2 := c.l2 - {key})
  }

  function L2Matching<V>(l2: map<Key, Stored<V>>, prefix: string): set<Key> {
    set k | k in l2 && StartsWith(k, prefix)
  }

  function CacheInvalidate<V>(c: Cache<V>, prefix: string): Cache<V> {
    c.(l1 := Without(c.l1, KeysWithPrefix(c.l1, prefix)), l2 := c.l2 - L2Matching(c.l2, prefix))
  }

  predicate LockFree<V>(c: Cache<V>, key: Key, now: real) {
    LockKey(key) in c.locks ==> c.locks[LockKey(key)] <= now
  }

  function LockAcquired<V>(c: Cache<V>, key: Key, now: real): Cache<V> {
    c.(locks := c.locks[LockKey(key) := now + Seconds(STAMPEDE_LOCK_TTL_MS)])
  }

  function LockReleased<V>(c: Cache<V>, key: Key): Cache<V> {
    c.(locks := c.locks - {LockKey(key)})
  }

  /** What `get_or_compute` does before it first suspends. */
  datatype Arrival<V> = Hit(value: V) | Compute | Wait

  function CacheArrive<V>(cfg: Settings, c: Cache<V>, key: Key, now: real): (Cache<V>, Arrival<V>) {
    var (d, hit) := CacheGet(cfg, c, key, now);
    if hit.Some? then (d, Hit(hit.value))
    else if LockFree(d, key, now) then (LockAcquired(d, key, now), Compute)
    else (d, Wait)
  }

  /** The end of a computation, by the lock holder or by a caller that gave up waiting. */
  function CacheComplete<V>(cfg: Settings, c: Cache<V>, key: Key, holder: bool, outcome: Outcome<V>, ttl: Option<int>,
                            now: real): Cache<V> {
    var d := if outcome.Returned? then CacheSet(cfg, c, key, outcome.value, ttl, now) else c;
    if holder then LockReleased(d, key) else d
  }

  class InMemoryL2<V> {
    var store: map<Key, Stored<V>>
    var locks: map<string, real>

    constructor ()
      ensures store == map[] && locks == map[]
    {
      store, locks := map[], map[];
    }

    method Get(key: Key, now: real) returns (value: Option<V>)
      modifies this`store
      ensures value == if key in old(store) && old(store)[key].expiresAt >= now then Some(old(store)[key].value)
                       else None
      ensures store == if value.Some? then old(store) else old(store) - {key}
    {
      if key !in store {
        return None;
      }
      var entry := store[key];
      if entry.expiresAt < now {
        store := store - {key};
        return None;
      }
      return Some(entry.value);
    }

    method Set(key: Key, value: V, ttl: int, now: real)
      modifies this`store
      ensures store == old(store)[key := Stored(value, now + ttl as real)]
    {
      store := store[key := Stored(value, now + ttl as real)];
    }

    method Delete(key: Key)
      modifies this`store
      ensures store == old(store) - {key}
    {
      store := store - {key};
    }

    method DeletePrefix(prefix: string) returns (count: nat)
      modifies this`store
      ensures store == old(store) - L2Matching(old(store), prefix)
      ensures count == |L2Matching(old(store), prefix)|
    {
      var matched := L2Matching(store, prefix);
      count := |matched|;
      var left := matched;
      while left != {}
        invariant left <= matched && store == old(store) - (matched - left)
        decreases left
      {
        var k :| k in left;
        store := store - {k};
        left := left - {k};
      }
    }

    method AcquireLock(lockKey: string, ttlMs: int, now: real) returns (acquired: bool)
      modifies this`locks
      ensures acquired <==> (lockKey in old(locks) ==> old(locks)[lockKey] <= now)
      ensures locks == if acquired then old(locks)[lockKey := now + Seconds(ttlMs)] else old(locks)
    {
      if lockKey in locks && locks[lockKey] > now {
        return false;
      }
      locks := locks[lockKey := now + Seconds(ttlMs)];
      return true;
    }

    method ReleaseLock(lockKey: string)
      modifies this`locks
      ensures locks == old(locks) - {lockKey}
    {
      locks := locks - {lockKey};
    }
  }

  class CacheManager<V> {
    const cfg: Settings
    const l1: L1Cache<V>
    const l2: InMemoryL2<V>
    var hits: nat
    var misses: nat

    ghost predicate Valid()
      reads this, l1
    {
      l1.Valid() && l1.maxItems == cfg.l1MaxItems
    }

    ghost function Contents(): Cache<V>
      reads this, l1, l2
    {
      Cache(l1.store, l2.store, l2.locks, hits, misses)
    }

    constructor (cfg: Settings)
      ensures Valid() && this.cfg == cfg && fresh(l1) && fresh(l2)
      ensures Contents() == Cache([], map[], map[], 0, 0)
    {
      this.cfg := cfg;
      l1 := new L1Cache(cfg.l1MaxItems);
      l2 := new InMemoryL2();
      hits, misses := 0, 0;
    }

    method Get(key: Key, now: real) returns (value: Option<V>)
      requires Valid()
      modifies this, l1, l2`store
      ensures Valid()
      ensures (Contents(), value) == CacheGet(cfg, old(Contents()), key, now)
    {
      value := l1.Get(key, now);
      if value.Some? {
        hits := hits + 1;
        return;
      }
      value := l2.Get(key, now);
      if value.Some? {
        l1.Set(key, value.value, cfg.l1Ttl, now);
        hits := hits + 1;
        return;
      }
      misses := misses + 1;
    }

    method Set(key: Key, value: V, ttl: Option<int>, now: real)
      requires Valid()
      modifies l1, l2`store
      ensures Valid()
      ensures Contents() == CacheSet(cfg, old(Contents()), key, value, ttl, now)
    {
      var ttlL2 := if ttl.Some? && ttl.value != 0 then ttl.value else cfg.l2Ttl;
      var ttlL1 := if ttlL2 < cfg.l1Ttl then ttlL2 else cfg.l1Ttl;
      l1.Set(key, value, ttlL1, now);
      l2.Set(key, value, ttlL2, now);
    }

    method Delete(key: Key)
      requires Valid()
      modifies l1, l2`store
      ensures Valid()
      ensures Contents() == CacheDelete(old(Contents()), key)
    {
      l1.Delete(key);
      l2.Delete(key);
    }

    method InvalidatePrefix(prefix: string) returns (count: nat)
      requires Valid()
      modifies l1, l2`store
      ensures Valid()
      ensures Contents() == CacheInvalidate(old(Contents()), prefix)
      ensures count == |L2Matching(old(l2.store), prefix)|
    {
      var _ := l1.DeletePrefix(prefix);
      count := l2.DeletePrefix(prefix);
    }

    method InvalidateTool(tenant: string, tool: string) returns (count: nat)
      requires Valid()
      modifies l1, l2`store
      ensures Valid()
      ensures Contents() == CacheInvalidate(old(Contents()), ToolPrefix(tenant, tool))
      ensures count == |L2Matching(old(l2.store), ToolPrefix(tenant, tool))|
    {
      count := InvalidatePrefix(ToolPrefix(tenant, tool));
    }

    method InvalidateTenant(tenant: string) returns (count: nat)
      requires Valid()
      modifies l1, l2`store
      ensures Valid()
      ensures Contents() == CacheInvalidate(old(Contents()), TenantPrefix(tenant))
      ensures count == |L2Matching(old(l2.store), TenantPrefix(tenant))|
    {
      count := InvalidatePrefix(TenantPrefix(tenant));
    }

    /** `get_or_compute` up to its first suspension. */
    method Arrive(key: Key, now: real) returns (a: Arrival<V>)
      requires Valid()
      modifies this, l1, l2
      ensures Valid()
      ensures (Contents(), a) == CacheArrive(cfg, old(Contents()), key, now)
    {
      var hit := Get(key, now);
      if hit.Some? {
        return Hit(hit.value);
      }
      var acquired := l2.AcquireLock(LockKey(key), STAMPEDE_LOCK_TTL_MS, now);
      return if acquired then Compute else Wait;
    }

    /** `get_or_compute` from the point where `compute` ends. */
    method Complete(key: Key, holder: bool, outcome: Outcome<V>, ttl: Option<int>, now: real)
      requires Valid()
      modifies l1, l2
      ensures Valid()
      ensures Contents() == CacheComplete(cfg, old(Contents()), key, holder, outcome, ttl, now)
    {
      if outcome.Returned? {
        Set(key, outcome.value, ttl, now);
      }
      if holder {
        l2.ReleaseLock(LockKey(key));
      }
    }
  }
}
