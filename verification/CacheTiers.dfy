/**
  What the two tiers hold after a write, a promotion and a miss, and what the counters count.
*/
module CacheTiers {
  import opened Errors
  import opened Lru
  import opened CacheManager
  import opened CacheFacts
  import opened CacheFreshness

  /** What a ttl comes to: none and zero fall back to the setting. */
  function Lifetime(cfg: Settings, ttl: Option<int>): int {
    match ttl
    case None => cfg.l2Ttl
    case Some(seconds) => if seconds == 0 then cfg.l2Ttl else seconds
  }

  function Shorter(a: int, b: int): int {
    if a <= b then a else b
  }

  /** The entry is the newest of the first tier. */
  ghost predicate Newest<V>(c: Cache<V>, e: Entry<V>) {
    c.l1 != [] && c.l1[|c.l1| - 1] == e && Lookup(c.l1, e.key) == Some(e)
  }

  /** A write goes through to both tiers: to the second for its lifetime, to the first for the shorter
      of that and the first tier's own. */
  lemma SetFillsBoth<V>(cfg: Settings, c: Cache<V>, key: Key, value: V, ttl: Option<int>, now: real)
    requires DistinctKeys(c.l1)
    ensures var d := CacheSet(cfg, c, key, value, ttl, now);
            && key in d.l2 && d.l2[key] == Stored(value, now + Lifetime(cfg, ttl) as real)
            && (cfg.l1MaxItems > 0 ==>
                  Newest(d, Entry(key, value, now + Shorter(Lifetime(cfg, ttl), cfg.l1Ttl) as real)))
            && (forall other :: other != key ==>
                  (other in d.l2 <==> other in c.l2) && (other in c.l2 ==> d.l2[other] == c.l2[other]))
  {
    var e := Entry(key, value, now + Shorter(Lifetime(cfg, ttl), cfg.l1Ttl) as real);
    AfterSetMembers(c.l1, cfg.l1MaxItems, key, value, e.expiresAt);
    if cfg.l1MaxItems > 0 {
      LookupUnique(CacheSet(cfg, c, key, value, ttl, now).l1, e);
    }
  }

  /** A read that only the second tier answers fills the first for a whole lifetime of its own. */
  lemma ReadFillsFirst<V>(cfg: Settings, c: Cache<V>, key: Key, now: real)
    requires DistinctKeys(c.l1) && LiveInL2(c, key, now) && cfg.l1MaxItems > 0
    requires forall e :: e in c.l1 && e.key == key ==> e.expiresAt < now
    ensures var (d, r) := CacheGet(cfg, c, key, now);
            r == Some(c.l2[key].value) && d.l2 == c.l2
            && Newest(d, Entry(key, c.l2[key].value, now + cfg.l1Ttl as real))
  {
    AfterGetMembers(c.l1, key, now);
    var l1 := AfterGet(c.l1, key, now).0;
    var e := Entry(key, c.l2[key].value, now + cfg.l1Ttl as real);
    AfterSetMembers(l1, cfg.l1MaxItems, key, e.value, e.expiresAt);
    LookupUnique(CacheGet(cfg, c, key, now).0.l1, e);
  }

  /** A read that finds nothing leaves nothing under the key, in either tier. */
  lemma MissClears<V>(cfg: Settings, c: Cache<V>, key: Key, now: real)
    requires DistinctKeys(c.l1) && CacheGet(cfg, c, key, now).1.None?
    ensures var d := CacheGet(cfg, c, key, now).0;
            key !in d.l2 && forall e :: e in d.l1 ==> e.key != key
  {
    LookupMember(c.l1, key);
    WithoutMembers(c.l1, {key});
  }

  /** How many of the operations are reads that are answered, or that are not. */
  function Reads<V>(cfg: Settings, ops: seq<Op<V>>, answered: bool): nat {
    if ops == [] then 0
    else
      var earlier, op := ops[..|ops| - 1], ops[|ops| - 1];
      Reads(cfg, earlier, answered)
      + if op.GetOp? && CacheGet(cfg, After(cfg, earlier), op.key, op.at).1.Some? == answered then 1 else 0
  }

  /** After any operations the counters are the reads that were answered and those that were not. */
  lemma {:induction false} CountersCount<V>(cfg: Settings, ops: seq<Op<V>>)
    ensures After(cfg, ops).hits == Reads(cfg, ops, true) && After(cfg, ops).misses == Reads(cfg, ops, false)
  {
    if ops != [] {
      CountersCount(cfg, ops[..|ops| - 1]);
    }
  }
}
