/** What one cache operation does to the entries of a key, and of every other key. */
module CacheFacts {
  import opened Errors
  import opened Lru
  import opened CacheManager

  ghost predicate LiveInL1<V>(c: Cache<V>, key: Key, value: V, now: real) {
    exists e :: e in c.l1 && e.key == key && e.value == value && e.expiresAt >= now
  }

  predicate LiveInL2<V>(c: Cache<V>, key: Key, now: real) {
    key in c.l2 && c.l2[key].expiresAt >= now
  }

  /** Neither tier can answer for `key` at `now` or later. */
  ghost predicate Dead<V>(c: Cache<V>, key: Key, now: real) {
    !LiveInL2(c, key, now) && forall e :: e in c.l1 && e.key == key ==> e.expiresAt < now
  }

  lemma AfterGetMembers<V>(s: seq<Entry<V>>, key: Key, now: real)
    requires DistinctKeys(s)
    ensures var (t, hit) := AfterGet(s, key, now);
            && DistinctKeys(t)
            && (forall e :: e in t ==> e in s)
            && (hit.Some? <==> exists e :: e in s && e.key == key && e.expiresAt >= now)
            && (hit.Some? ==> exists e :: e in s && e.key == key && e.expiresAt >= now && e.value == hit.value)
  {
    WithoutMembers(s, {key});
    LookupMember(s, key);
    if Lookup(s, key).Some? {
      var e := Lookup(s, key).value;
      forall f | f in s && f.key == key ensures f == e {
        LookupUnique(s, f);
      }
    }
  }

  lemma AfterSetMembers<V>(s: seq<Entry<V>>, maxItems: nat, key: Key, value: V, expiresAt: real)
    requires DistinctKeys(s)
    ensures var t := AfterSet(s, maxItems, key, value, expiresAt);
            && DistinctKeys(t)
            && (forall e :: e in t ==> e == Entry(key, value, expiresAt) || (e in s && e.key != key))
            && (maxItems > 0 ==> Entry(key, value, expiresAt) in t)
  {
    SetKeepsDistinct(s, maxItems, key, value, expiresAt);
    WithoutMembers(s, {key});
    var full := Without(s, {key}) + [Entry(key, value, expiresAt)];
    assert full[|full| - 1] == Entry(key, value, expiresAt);
    if maxItems > 0 {
      var t := AfterSet(s, maxItems, key, value, expiresAt);
      assert t[|t| - 1] == full[|full| - 1];
    }
  }

  lemma GetFacts<V>(cfg: Settings, c: Cache<V>, key: Key, now: real)
    requires DistinctKeys(c.l1)
    ensures var (d, r) := CacheGet(cfg, c, key, now);
            && DistinctKeys(d.l1)
            && (forall e :: e in d.l1 ==>
                  e in c.l1
                  || (LiveInL2(c, key, now) && e == Entry(key, c.l2[key].value, now + cfg.l1Ttl as real)))
            && d.l2 == (if key in c.l2 && !LiveInL2(c, key, now) && r.None? then c.l2 - {key} else c.l2)
            && d.locks == c.locks
  {
    AfterGetMembers(c.l1, key, now);
    var l1 := AfterGet(c.l1, key, now).0;
    if key in c.l2 {
      AfterSetMembers(l1, cfg.l1MaxItems, key, c.l2[key].value, now + cfg.l1Ttl as real);
    } else {
      assert c.l2 - {key} == c.l2;
    }
  }

  /** A get answers exactly when one of the tiers is live, with a value one of them holds. */
  lemma GetAnswer<V>(cfg: Settings, c: Cache<V>, key: Key, now: real)
    requires DistinctKeys(c.l1)
    ensures CacheGet(cfg, c, key, now).1.None? <==> Dead(c, key, now)
    ensures var r := CacheGet(cfg, c, key, now).1;
            r.Some? ==> LiveInL1(c, key, r.value, now) || (LiveInL2(c, key, now) && r.value == c.l2[key].value)
  {
  }

  lemma SetFacts<V>(cfg: Settings, c: Cache<V>, key: Key, value: V, ttl: Option<int>, now: real)
    requires DistinctKeys(c.l1)
    ensures var d := CacheSet(cfg, c, key, value, ttl, now);
            && DistinctKeys(d.l1)
            && (forall e :: e in d.l1 ==>
                  e == Entry(key, value, now + L1Ttl(cfg, ttl) as real) || (e in c.l1 && e.key != key))
  {
    AfterSetMembers(c.l1, cfg.l1MaxItems, key, value, now + L1Ttl(cfg, ttl) as real);
  }

  lemma DeleteFacts<V>(c: Cache<V>, key: Key)
    ensures var d := CacheDelete(c, key);
            && (DistinctKeys(c.l1) ==> DistinctKeys(d.l1))
            && (forall e :: e in d.l1 ==> e in c.l1 && e.key != key)
  {
    WithoutMembers(c.l1, {key});
  }

  lemma InvalidateFacts<V>(c: Cache<V>, prefix: string)
    ensures var d := CacheInvalidate(c, prefix);
            && (DistinctKeys(c.l1) ==> DistinctKeys(d.l1))
            && (forall e :: e in d.l1 ==> e in c.l1 && !StartsWith(e.key, prefix))
            && (forall k :: k in d.l2 <==> k in c.l2 && !StartsWith(k, prefix))
  {
    var gone := KeysWithPrefix(c.l1, prefix);
    WithoutMembers(c.l1, gone);
    forall e | e in c.l1 ensures e.key in gone <==> StartsWith(e.key, prefix) {
      var i :| 0 <= i < |c.l1| && c.l1[i] == e;
    }
  }
}
