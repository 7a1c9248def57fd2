/**
  What a sequence of operations on the two-tier cache may answer. Each operation is one
  uninterrupted step; the clock never goes back.
*/
module CacheFreshness {
  import opened Errors
  import opened Lru
  import opened CacheKeys
  import opened CacheManager
  import opened CacheFacts

  datatype Op<V> =
    | GetOp(key: Key, at: real)
    | SetOp(key: Key, value: V, ttl: Option<int>, at: real)
    | DeleteOp(key: Key, at: real)
    | InvalidateOp(prefix: string, at: real)

  /** The latest write of a key that no deletion or invalidation has followed. */
  datatype Write<V> = Write(value: V, at: real, ttl: int)

  function Apply<V>(cfg: Settings, c: Cache<V>, op: Op<V>): Cache<V> {
    match op
    case GetOp(key, at) => CacheGet(cfg, c, key, at).0
    case SetOp(key, value, ttl, at) => CacheSet(cfg, c, key, value, ttl, at)
    case DeleteOp(key, _) => CacheDelete(c, key)
    case InvalidateOp(prefix, _) => CacheInvalidate(c, prefix)
  }

  function After<V>(cfg: Settings, ops: seq<Op<V>>): Cache<V> {
    if ops == [] then Cache([], map[], map[], 0, 0)
    else Apply(cfg, After(cfg, ops[..|ops| - 1]), ops[|ops| - 1])
  }

  /** The write of `key` the log of operations leaves standing, read off the log alone. */
  function Standing<V>(cfg: Settings, ops: seq<Op<V>>, key: Key): Option<Write<V>> {
    if ops == [] then None
    else
      var earlier := Standing(cfg, ops[..|ops| - 1], key);
      match ops[|ops| - 1]
      case GetOp(_, _) => earlier
      case SetOp(k, value, ttl, at) => if k == key then Some(Write(value, at, L2Ttl(cfg, ttl))) else earlier
      case DeleteOp(k, _) => if k == key then None else earlier
      case InvalidateOp(prefix, _) => if StartsWith(key, prefix) then None else earlier
  }

  ghost predicate TimesSorted<V>(ops: seq<Op<V>>) {
    forall i, j :: 0 <= i < j < |ops| ==> ops[i].at <= ops[j].at
  }

  /** No operation is later than `now`. */
  ghost predicate NotAfter<V>(ops: seq<Op<V>>, now: real) {
    forall i :: 0 <= i < |ops| ==> ops[i].at <= now
  }

  /** The in-process entry of a standing write: same value, gone by write + both ttls, or dead on
      arrival; always the latter if the write's own ttl is negative. */
  ghost predicate L1Agrees<V>(cfg: Settings, e: Entry<V>, w: Option<Write<V>>) {
    && w.Some? && e.value == w.value.value
    && ((w.value.ttl >= 0 && e.expiresAt <= w.value.at + w.value.ttl as real + cfg.l1Ttl as real)
        || e.expiresAt < w.value.at)
  }

  /** The second tier holds a standing write, except that a get may have dropped it once expired. */
  ghost predicate L2Agrees<V>(c: Cache<V>, key: Key, w: Option<Write<V>>, now: real) {
    match w
    case None => key !in c.l2
    case Some(w) =>
      if key in c.l2 then c.l2[key] == Stored(w.value, w.at + w.ttl as real) else w.at + w.ttl as real < now
  }

  ghost predicate Agrees<V>(cfg: Settings, ops: seq<Op<V>>, now: real) {
    var c := After(cfg, ops);
    && DistinctKeys(c.l1)
    && (forall e :: e in c.l1 ==> L1Agrees(cfg, e, Standing(cfg, ops, e.key)))
    && (forall key :: L2Agrees(c, key, Standing(cfg, ops, key), now))
  }

  lemma {:induction false} StandingInPast<V>(cfg: Settings, ops: seq<Op<V>>, key: Key, now: real)
    requires NotAfter(ops, now) && Standing(cfg, ops, key).Some?
    ensures Standing(cfg, ops, key).value.at <= now
  {
    var op := ops[|ops| - 1];
    if !(op.SetOp? && op.key == key) {
      StandingInPast(cfg, ops[..|ops| - 1], key, now);
    }
  }

  lemma GetAgrees<V>(cfg: Settings, ops: seq<Op<V>>, op: Op<V>)
    requires op.GetOp? && NotAfter(ops, op.at) && Agrees(cfg, ops, op.at)
    ensures Agrees(cfg, ops + [op], op.at)
  {
    var all, c := ops + [op], After(cfg, ops);
    assert all[..|ops|] == ops;
    GetFacts(cfg, c, op.key, op.at);
    forall e | e in After(cfg, all).l1 ensures L1Agrees(cfg, e, Standing(cfg, all, e.key)) {
      if e !in c.l1 {
        assert L2Agrees(c, op.key, Standing(cfg, ops, op.key), op.at);
        StandingInPast(cfg, ops, op.key, op.at);
      }
    }
    forall key ensures L2Agrees(After(cfg, all), key, Standing(cfg, all, key), op.at) {
      assert L2Agrees(c, key, Standing(cfg, ops, key), op.at);
    }
  }

  lemma SetAgrees<V>(cfg: Settings, ops: seq<Op<V>>, op: Op<V>)
    requires op.SetOp? && Agrees(cfg, ops, op.at)
    ensures Agrees(cfg, ops + [op], op.at)
  {
    var all, c := ops + [op], After(cfg, ops);
    assert all[..|ops|] == ops;
    SetFacts(cfg, c, op.key, op.value, op.ttl, op.at);
    forall e | e in After(cfg, all).l1 ensures L1Agrees(cfg, e, Standing(cfg, all, e.key)) {
      if e.key == op.key {
        assert e == Entry(op.key, op.value, op.at + L1Ttl(cfg, op.ttl) as real);
      }
    }
    forall key ensures L2Agrees(After(cfg, all), key, Standing(cfg, all, key), op.at) {
      assert L2Agrees(c, key, Standing(cfg, ops, key), op.at);
    }
  }

  lemma DropAgrees<V>(cfg: Settings, ops: seq<Op<V>>, op: Op<V>)
    requires (op.DeleteOp? || op.InvalidateOp?) && Agrees(cfg, ops, op.at)
    ensures Agrees(cfg, ops + [op], op.at)
  {
    var all, c := ops + [op], After(cfg, ops);
    assert all[..|ops|] == ops;
    if op.DeleteOp? {
      DeleteFacts(c, op.key);
      assert After(cfg, all) == CacheDelete(c, op.key);
    } else {
      InvalidateFacts(c, op.prefix);
      assert After(cfg, all) == CacheInvalidate(c, op.prefix);
    }
    forall e | e in After(cfg, all).l1 ensures L1Agrees(cfg, e, Standing(cfg, all, e.key)) {
      assert e in c.l1;
    }
    forall key ensures L2Agrees(After(cfg, all), key, Standing(cfg, all, key), op.at) {
      assert L2Agrees(c, key, Standing(cfg, ops, key), op.at);
    }
  }

  lemma AgreesLater<V>(cfg: Settings, ops: seq<Op<V>>, now: real, later: real)
    requires Agrees(cfg, ops, now) && now <= later
    ensures Agrees(cfg, ops, later)
  {
  }

  lemma {:induction false} AlwaysAgrees<V>(cfg: Settings, ops: seq<Op<V>>, now: real)
    requires TimesSorted(ops) && NotAfter(ops, now)
    ensures Agrees(cfg, ops, now)
  {
    if ops != [] {
      var earlier, op := ops[..|ops| - 1], ops[|ops| - 1];
      assert ops == earlier + [op];
      AlwaysAgrees(cfg, earlier, op.at);
      match op
      case GetOp(_, _) => GetAgrees(cfg, earlier, op);
      case SetOp(_, _, _, _) => SetAgrees(cfg, earlier, op);
      case _ => DropAgrees(cfg, earlier, op);
      AgreesLater(cfg, ops, op.at, now);
    }
  }

  /** How long a promoted entry can outlive the second tier: a fresh first-tier ttl. */
  function Stretch(cfg: Settings): real {
    if cfg.l1Ttl < 0 then 0.0 else cfg.l1Ttl as real
  }

  /** After any operations, a get returns only the value of the standing write; it returns it
      up to write + second-tier ttl, whatever the first tier evicted, and never after
      write + second-tier ttl + first-tier ttl, nor at all if the second-tier ttl is negative. */
  lemma Freshness<V>(cfg: Settings, ops: seq<Op<V>>, key: Key, now: real)
    requires TimesSorted(ops) && NotAfter(ops, now)
    ensures var w := Standing(cfg, ops, key);
            var r := CacheGet(cfg, After(cfg, ops), key, now).1;
            && (r.Some? ==> w.Some? && r.value == w.value.value && w.value.ttl >= 0)
            && (w.Some? && now <= w.value.at + w.value.ttl as real ==> r.Some?)
            && (w.Some? && now > w.value.at + w.value.ttl as real + Stretch(cfg) ==> r.None?)
  {
    AlwaysAgrees(cfg, ops, now);
    GetAnswer(cfg, After(cfg, ops), key, now);
    assert L2Agrees(After(cfg, ops), key, Standing(cfg, ops, key), now);
    if Standing(cfg, ops, key).Some? {
      StandingInPast(cfg, ops, key, now);
    }
  }

  /** A read that finds only the second tier live answers again a first-tier ttl later. */
  lemma PromotedAnswers<V>(cfg: Settings, c: Cache<V>, key: Key, at: real)
    requires DistinctKeys(c.l1) && cfg.l1MaxItems > 0 && LiveInL2(c, key, at)
    requires forall e :: e in c.l1 && e.key == key ==> e.expiresAt < at
    ensures CacheGet(cfg, CacheGet(cfg, c, key, at).0, key, at + cfg.l1Ttl as real).1 == Some(c.l2[key].value)
  {
    AfterGetMembers(c.l1, key, at);
    var l1 := AfterGet(c.l1, key, at).0;
    var promoted := Entry(key, c.l2[key].value, at + cfg.l1Ttl as real);
    AfterSetMembers(l1, cfg.l1MaxItems, key, promoted.value, promoted.expiresAt);
    LookupUnique(CacheGet(cfg, c, key, at).0.l1, promoted);
  }

  /** The bound is reached: whenever the first-tier ttl is positive and the shorter one, an
      answer can be served a whole first-tier ttl after the second tier has expired. */
  lemma StalenessReached<V>(cfg: Settings, key: Key, value: V)
    requires cfg.l1MaxItems > 0 && 0 < cfg.l1Ttl < cfg.l2Ttl
    ensures var ops := [SetOp(key, value, None, 0.0), GetOp(key, cfg.l2Ttl as real)];
            var now := cfg.l2Ttl as real + cfg.l1Ttl as real;
            && TimesSorted(ops) && NotAfter(ops, now)
            && Standing(cfg, ops, key) == Some(Write(value, 0.0, cfg.l2Ttl))
            && CacheGet(cfg, After(cfg, ops), key, now).1 == Some(value)
  {
    var set0, get1 := SetOp(key, value, None, 0.0), GetOp(key, cfg.l2Ttl as real);
    var ops := [set0, get1];
    var one: seq<Op<V>> := [set0];
    assert ops[..1] == one && one[..0] == [];
    var c0: Cache<V> := Cache([], map[], map[], 0, 0);
    var c1 := CacheSet(cfg, c0, key, value, None, 0.0);
    assert After(cfg, one[..0]) == c0 && After(cfg, one) == c1;
    assert After(cfg, ops) == CacheGet(cfg, c1, key, get1.at).0;
    SetFacts(cfg, c0, key, value, None, 0.0);
    PromotedAnswers(cfg, c1, key, get1.at);
  }

  /** The documented bound: nothing is served once the second tier has expired. */
  ghost predicate ServedWithinL2<V>(cfg: Settings, ops: seq<Op<V>>, key: Key, now: real) {
    var w := Standing(cfg, ops, key);
    w.Some? && now > w.value.at + w.value.ttl as real ==> CacheGet(cfg, After(cfg, ops), key, now).1.None?
  }

  lemma {:induction false} NoFirstTier<V>(cfg: Settings, ops: seq<Op<V>>)
    requires cfg.l1MaxItems == 0
    ensures After(cfg, ops).l1 == []
  {
    if ops != [] {
      NoFirstTier(cfg, ops[..|ops| - 1]);
    }
  }

  lemma WithinL2<V>(cfg: Settings, ops: seq<Op<V>>, key: Key, now: real)
    requires cfg.l1MaxItems == 0 || cfg.l1Ttl <= 0
    requires TimesSorted(ops) && NotAfter(ops, now)
    ensures ServedWithinL2(cfg, ops, key, now)
  {
    Freshness(cfg, ops, key, now);
    if cfg.l1MaxItems == 0 {
      NoFirstTier(cfg, ops);
      AlwaysAgrees(cfg, ops, now);
      GetAnswer(cfg, After(cfg, ops), key, now);
      assert L2Agrees(After(cfg, ops), key, Standing(cfg, ops, key), now);
    }
  }

  /** A write that outlives its in-process entry by a second, and a read at its last moment. */
  function LateRead<V>(cfg: Settings, key: Key, value: V): seq<Op<V>> {
    [SetOp(key, value, Some(cfg.l1Ttl + 1), 0.0), GetOp(key, (cfg.l1Ttl + 1) as real)]
  }

  lemma ServedBeyondL2<V>(cfg: Settings, key: Key, value: V)
    requires cfg.l1MaxItems > 0 && cfg.l1Ttl > 0
    ensures var now := (cfg.l1Ttl + 1) as real + cfg.l1Ttl as real;
            && TimesSorted(LateRead(cfg, key, value)) && NotAfter(LateRead(cfg, key, value), now)
            && !ServedWithinL2(cfg, LateRead(cfg, key, value), key, now)
  {
    var ttl := Some(cfg.l1Ttl + 1);
    var at := (cfg.l1Ttl + 1) as real;
    var ops := LateRead(cfg, key, value);
    var one: seq<Op<V>> := [SetOp(key, value, ttl, 0.0)];
    assert ops[..1] == one && one[..0] == [];
    var c0: Cache<V> := Cache([], map[], map[], 0, 0);
    var c1 := CacheSet(cfg, c0, key, value, ttl, 0.0);
    assert After(cfg, one[..0]) == c0 && After(cfg, one) == c1;
    assert After(cfg, ops) == CacheGet(cfg, c1, key, at).0;
    assert Standing(cfg, one, key) == Some(Write(value, 0.0, cfg.l1Ttl + 1)) == Standing(cfg, ops, key);
    SetFacts(cfg, c0, key, value, ttl, 0.0);
    PromotedAnswers(cfg, c1, key, at);
  }

  /** Staleness is bounded by the second tier's ttl alone, over all operations and times, if and
      only if the first tier holds nothing or its ttl is not positive. */
  lemma DocumentedBoundIff<V>(cfg: Settings, key: Key, value: V)
    ensures (forall ops: seq<Op<V>>, k, now ::
               TimesSorted(ops) && NotAfter(ops, now) ==> ServedWithinL2(cfg, ops, k, now))
            <==> cfg.l1MaxItems == 0 || cfg.l1Ttl <= 0
  {
    if cfg.l1MaxItems == 0 || cfg.l1Ttl <= 0 {
      forall ops: seq<Op<V>>, k, now | TimesSorted(ops) && NotAfter(ops, now) ensures ServedWithinL2(cfg, ops, k, now) {
        WithinL2(cfg, ops, k, now);
      }
    } else {
      ServedBeyondL2(cfg, key, value);
    }
  }

  // ---------------------------------------------------------------------------------
  // Invalidation
  // ---------------------------------------------------------------------------------

  /** Among the keys of these requests, both tiers lost exactly those `hit` selects; what stays
      kept its value, its expiry and its place in the order of use. */
  ghost predicate DropsExactly<V>(digest: string -> string, c: Cache<V>, d: Cache<V>, among: Request -> bool,
                                  hit: Request -> bool) {
    && (forall r :: among(r) && CacheKey(digest, r) in c.l2 ==> (CacheKey(digest, r) !in d.l2 <==> hit(r)))
    && (forall k :: k in d.l2 ==> k in c.l2 && d.l2[k] == c.l2[k])
    && (exists gone :: d.l1 == Without(c.l1, gone)
          && forall r :: among(r) && Lookup(c.l1, CacheKey(digest, r)).Some? ==>
               (CacheKey(digest, r) in gone <==> hit(r)))
  }

  lemma PrefixDrops<V>(digest: string -> string, c: Cache<V>, prefix: string, among: Request -> bool,
                       hit: Request -> bool)
    requires forall r :: among(r) ==> (prefix <= CacheKey(digest, r) <==> hit(r))
    ensures DropsExactly(digest, c, CacheInvalidate(c, prefix), among, hit)
  {
    var gone := KeysWithPrefix(c.l1, prefix);
    assert CacheInvalidate(c, prefix).l1 == Without(c.l1, gone);
  }

  function PlainTool(): Request -> bool {
    (r: Request) => ColonFree(r.tool)
  }

  function PlainNamed(): Request -> bool {
    (r: Request) => PlainNames(r)
  }

  /** With colon-free tools, whatever the tenants, tenant-wide invalidation removes exactly the keys
      the tenant's prefix reaches. */
  lemma InvalidateTenantReaches<V>(digest: string -> string, c: Cache<V>, tenant: string)
    requires Hex(digest)
    ensures DropsExactly(digest, c, CacheInvalidate(c, TenantPrefix(tenant)), PlainTool(),
                         (r: Request) => InReach(tenant, r))
  {
    forall r: Request | ColonFree(r.tool) ensures TenantPrefix(tenant) <= CacheKey(digest, r) <==> InReach(tenant, r) {
      TenantPrefixReaches(digest, tenant, r);
    }
    PrefixDrops(digest, c, TenantPrefix(tenant), PlainTool(), (r: Request) => InReach(tenant, r));
  }

  /** And tool-scoped invalidation those the tool's prefix reaches. */
  lemma InvalidateToolReaches<V>(digest: string -> string, c: Cache<V>, tenant: string, tool: string)
    requires Hex(digest)
    ensures DropsExactly(digest, c, CacheInvalidate(c, ToolPrefix(tenant, tool)), PlainTool(),
                         (r: Request) => InReach(FullName(tenant, tool), r))
  {
    forall r: Request | ColonFree(r.tool)
      ensures ToolPrefix(tenant, tool) <= CacheKey(digest, r) <==> InReach(FullName(tenant, tool), r)
    {
      ToolPrefixReaches(digest, tenant, tool, r);
    }
    PrefixDrops(digest, c, ToolPrefix(tenant, tool), PlainTool(), (r: Request) => InReach(FullName(tenant, tool), r));
  }

  /** A key of tenant b under a colon-free tool is lost to the invalidation of tenant a. */
  predicate Loses<V>(digest: string -> string, c: Cache<V>, a: string, b: string, r: Request) {
    && r.tenant == b && ColonFree(r.tool) && CacheKey(digest, r) in c.l2
    && CacheKey(digest, r) !in CacheInvalidate(c, TenantPrefix(a)).l2
  }

  /** Name b goes on from a with a colon, or a from b with a colon and no other. */
  predicate Oversteps(a: string, b: string) {
    a + ":" <= b || (b + ":" <= a && ColonFree(a[|b| + 1..]))
  }

  lemma LosesOversteps<V>(digest: string -> string, c: Cache<V>, a: string, b: string, r: Request)
    requires Hex(digest) && a != b && Loses(digest, c, a, b, r)
    ensures Oversteps(a, b)
  {
    TenantPrefixReaches(digest, a, r);
    if a == FullName(b, r.tool) {
      assert b + ":" == a[..|b| + 1] && r.tool == a[|b| + 1..];
    }
  }

  lemma OverstepsLoses<V>(digest: string -> string, a: string, b: string, value: V) returns (c: Cache<V>, r: Request)
    requires Hex(digest) && Oversteps(a, b)
    ensures Loses(digest, c, a, b, r)
  {
    r := Request(b, if a + ":" <= b then "tool" else a[|b| + 1..], "");
    if !(a + ":" <= b) {
      assert a == FullName(b, r.tool);
    }
    TenantPrefixReaches(digest, a, r);
    c := Cache([], map[CacheKey(digest, r) := Stored(value, 0.0)], map[], 0, 0);
  }

  /** With colon-free tools, invalidating one tenant can drop a key of another if and only if the
      other's name goes on from its own with a colon, or its own is the full name of a tool of the
      other's. */
  lemma InvalidationOverstepsIff<V>(digest: string -> string, a: string, b: string, value: V)
    requires Hex(digest) && a != b
    ensures (exists c: Cache<V>, r :: Loses(digest, c, a, b, r)) <==> Oversteps(a, b)
  {
    if Oversteps(a, b) {
      var c, r := OverstepsLoses(digest, a, b, value);
    }
    forall c: Cache<V>, r | Loses(digest, c, a, b, r) ensures Oversteps(a, b) {
      LosesOversteps(digest, c, a, b, r);
    }
  }

  /** The number of entries the second tier lost. */
  lemma MatchedCount<V>(c: Cache<V>, prefix: string)
    ensures |L2Matching(c.l2, prefix)| == |c.l2| - |CacheInvalidate(c, prefix).l2|
  {
  }

  /** Among colon-free names, tenant-wide invalidation removes exactly that tenant's keys, and
      counts them. */
  lemma InvalidateTenantExact<V>(digest: string -> string, c: Cache<V>, tenant: string)
    requires ColonFree(tenant)
    ensures DropsExactly(digest, c, CacheInvalidate(c, TenantPrefix(tenant)), PlainNamed(),
                         (r: Request) => r.tenant == tenant)
    ensures |L2Matching(c.l2, TenantPrefix(tenant))| == |c.l2| - |CacheInvalidate(c, TenantPrefix(tenant)).l2|
  {
    forall r | PlainNames(r) ensures TenantPrefix(tenant) <= CacheKey(digest, r) <==> r.tenant == tenant {
      TenantPrefixExact(digest, tenant, r);
    }
    PrefixDrops(digest, c, TenantPrefix(tenant), PlainNamed(), (r: Request) => r.tenant == tenant);
    MatchedCount(c, TenantPrefix(tenant));
  }

  /** Among colon-free names, tool-scoped invalidation removes exactly the keys of that tenant and
      tool, and counts them. */
  lemma InvalidateToolExact<V>(digest: string -> string, c: Cache<V>, tenant: string, tool: string)
    requires ColonFree(tenant) && ColonFree(tool)
    ensures DropsExactly(digest, c, CacheInvalidate(c, ToolPrefix(tenant, tool)), PlainNamed(),
                         (r: Request) => r.tenant == tenant && r.tool == tool)
    ensures |L2Matching(c.l2, ToolPrefix(tenant, tool))| == |c.l2| - |CacheInvalidate(c, ToolPrefix(tenant, tool)).l2|
  {
    forall r | PlainNames(r)
      ensures ToolPrefix(tenant, tool) <= CacheKey(digest, r) <==> r.tenant == tenant && r.tool == tool
    {
      ToolPrefixExact(digest, tenant, tool, r);
    }
    PrefixDrops(digest, c, ToolPrefix(tenant, tool), PlainNamed(),
                (r: Request) => r.tenant == tenant && r.tool == tool);
    MatchedCount(c, ToolPrefix(tenant, tool));
  }
}
