/**
  Stack inclusion of the in-process cache: the same operations at the same times on two
  caches of different capacity. The clock is arbitrary; it may even go back.
*/
module LruInclusion {
  import opened Errors
  import opened Lru

  datatype Op<V> =
    | GetOp(key: Key, at: real)
    | SetOp(key: Key, value: V, ttl: int, at: real)
    | DeleteOp(key: Key)
    | DeletePrefixOp(prefix: string)

  /** The store after one operation, and what a get returns. */
  function Step<V>(s: seq<Entry<V>>, maxItems: nat, op: Op<V>): (seq<Entry<V>>, Option<V>) {
    match op
    case GetOp(key, at) => AfterGet(s, key, at)
    case SetOp(key, value, ttl, at) => (AfterSet(s, maxItems, key, value, at + ttl as real), None)
    case DeleteOp(key) => (Without(s, {key}), None)
    case DeletePrefixOp(prefix) => (Without(s, KeysWithPrefix(s, prefix)), None)
  }

  /** The store after a sequence of operations on an empty cache. */
  function After<V>(maxItems: nat, ops: seq<Op<V>>): seq<Entry<V>> {
    if ops == [] then [] else Step(After(maxItems, ops[..|ops| - 1]), maxItems, ops[|ops| - 1]).0
  }

  /** `a` is `b` with some entries left out. */
  ghost predicate Subsequence<V>(a: seq<Entry<V>>, b: seq<Entry<V>>) {
    a == [] || (b != [] && ((a[0] == b[0] && Subsequence(a[1..], b[1..])) || Subsequence(a, b[1..])))
  }

  lemma {:induction false} SubsequenceMembers<V>(a: seq<Entry<V>>, b: seq<Entry<V>>)
    requires Subsequence(a, b)
    ensures |a| <= |b| && forall i :: 0 <= i < |a| ==> a[i] in b
  {
    if a != [] {
      if a[0] == b[0] && Subsequence(a[1..], b[1..]) {
        SubsequenceMembers(a[1..], b[1..]);
        forall i | 0 <= i < |a| ensures a[i] in b {
          if i > 0 {
            assert a[i] == a[1..][i - 1];
          }
        }
      } else {
        SubsequenceMembers(a, b[1..]);
      }
    }
  }

  lemma {:induction false} SubsequenceTail<V>(a: seq<Entry<V>>, b: seq<Entry<V>>)
    requires a != [] && Subsequence(a, b)
    ensures b != [] && Subsequence(a[1..], b[1..])
  {
    if !(a[0] == b[0] && Subsequence(a[1..], b[1..])) {
      SubsequenceTail(a, b[1..]);
      SubsequencePrepend(a[1..], b[1..]);
    }
  }

  lemma SubsequencePrepend<V>(a: seq<Entry<V>>, b: seq<Entry<V>>)
    requires b != [] && Subsequence(a, b[1..])
    ensures Subsequence(a, b)
  {
  }

  lemma {:induction false} SubsequenceAppend<V>(a: seq<Entry<V>>, b: seq<Entry<V>>, e: Entry<V>)
    requires Subsequence(a, b)
    ensures Subsequence(a + [e], b + [e])
  {
    if b == [] {
    } else if a != [] && a[0] == b[0] && Subsequence(a[1..], b[1..]) {
      SubsequenceAppend(a[1..], b[1..], e);
      assert (a + [e])[1..] == a[1..] + [e] && (b + [e])[1..] == b[1..] + [e];
    } else {
      SubsequenceAppend(a, b[1..], e);
      assert (b + [e])[1..] == b[1..] + [e];
    }
  }

  /** Removing the same keys keeps the inclusion and never widens the size gap. */
  lemma {:induction false} SubsequenceWithout<V>(a: seq<Entry<V>>, b: seq<Entry<V>>, gone: set<Key>)
    requires Subsequence(a, b)
    ensures Subsequence(Without(a, gone), Without(b, gone))
    ensures |Without(b, gone)| - |Without(a, gone)| <= |b| - |a|
  {
    if b == [] {
    } else if a != [] && a[0] == b[0] && Subsequence(a[1..], b[1..]) {
      SubsequenceWithout(a[1..], b[1..], gone);
      if a[0].key !in gone {
        assert Without(a, gone)[1..] == Without(a[1..], gone) && Without(b, gone)[1..] == Without(b[1..], gone);
      }
    } else {
      SubsequenceWithout(a, b[1..], gone);
      if b[0].key !in gone {
        assert Without(b, gone)[1..] == Without(b[1..], gone);
      }
    }
  }

  /** What two caches of capacities n <= m keep between them. */
  ghost predicate Included<V>(a: seq<Entry<V>>, b: seq<Entry<V>>, n: nat, m: nat) {
    && DistinctKeys(a) && DistinctKeys(b) && |a| <= n && |b| <= m
    && Subsequence(a, b) && |b| - |a| <= m - n
  }

  lemma IncludedTrim<V>(a: seq<Entry<V>>, b: seq<Entry<V>>, n: nat, m: nat)
    requires Subsequence(a, b) && |a| <= n + 1 && |b| <= m + 1 && |b| - |a| <= m - n
    ensures Subsequence(Trim(a, n), Trim(b, m)) && |Trim(b, m)| - |Trim(a, n)| <= m - n
  {
  }

  /** Inserting at the end and trimming: whatever the big store evicts, the small one evicts too. */
  lemma IncludedSet<V>(a: seq<Entry<V>>, b: seq<Entry<V>>, n: nat, m: nat, key: Key, value: V, expiresAt: real)
    requires n <= m && Included(a, b, n, m)
    ensures Included(AfterSet(a, n, key, value, expiresAt), AfterSet(b, m, key, value, expiresAt), n, m)
  {
    var e := Entry(key, value, expiresAt);
    WithoutLength(a, {key});
    WithoutLength(b, {key});
    SetKeepsDistinct(a, n, key, value, expiresAt);
    SetKeepsDistinct(b, m, key, value, expiresAt);
    SubsequenceWithout(a, b, {key});
    SubsequenceAppend(Without(a, {key}), Without(b, {key}), e);
    IncludedTrim(Without(a, {key}) + [e], Without(b, {key}) + [e], n, m);
  }

  lemma WithoutLength<V>(s: seq<Entry<V>>, gone: set<Key>)
    ensures |Without(s, gone)| <= |s|
  {
  }

  /** A key found in the small store is found in the big one, with the same entry. */
  lemma SubsequenceLookup<V>(a: seq<Entry<V>>, b: seq<Entry<V>>, key: Key)
    requires DistinctKeys(b) && Subsequence(a, b) && Lookup(a, key).Some?
    ensures Lookup(b, key) == Lookup(a, key)
  {
  }

  lemma IncludedGet<V>(a: seq<Entry<V>>, b: seq<Entry<V>>, n: nat, m: nat, key: Key, at: real)
    requires Included(a, b, n, m)
    ensures Included(AfterGet(a, key, at).0, AfterGet(b, key, at).0, n, m)
    ensures AfterGet(a, key, at).1.Some? ==> AfterGet(b, key, at).1 == AfterGet(a, key, at).1
  {
    KeyGone(a, key);
    KeyGone(b, key);
    SubsequenceWithout(a, b, {key});
    if Lookup(a, key).Some? {
      SubsequenceLookup(a, b, key);
      SubsequenceAppend(Without(a, {key}), Without(b, {key}), Lookup(a, key).value);
    } else if Lookup(b, key).Some? {
      SubsequenceGrow(a, Without(b, {key}), Lookup(b, key).value);
    }
  }

  /** Removing one key from a store with distinct keys: one entry shorter if it was there. */
  lemma KeyGone<V>(s: seq<Entry<V>>, key: Key)
    requires DistinctKeys(s)
    ensures DistinctKeys(Without(s, {key}))
    ensures |Without(s, {key})| == |s| - if Lookup(s, key).Some? then 1 else 0
    ensures Lookup(s, key).None? ==> Without(s, {key}) == s
    ensures Lookup(s, key).Some? ==> DistinctKeys(Without(s, {key}) + [Lookup(s, key).value])
  {
    WithoutIndex(s, key);
    WithoutMembers(s, {key});
  }

  lemma {:induction false} SubsequenceGrow<V>(a: seq<Entry<V>>, b: seq<Entry<V>>, e: Entry<V>)
    requires Subsequence(a, b)
    ensures Subsequence(a, b + [e])
  {
    if a != [] {
      assert (b + [e])[1..] == b[1..] + [e];
      if a[0] == b[0] && Subsequence(a[1..], b[1..]) {
        SubsequenceGrow(a[1..], b[1..], e);
      } else {
        SubsequenceGrow(a, b[1..], e);
      }
    }
  }

  lemma IncludedDeletePrefix<V>(a: seq<Entry<V>>, b: seq<Entry<V>>, n: nat, m: nat, prefix: string)
    requires Included(a, b, n, m)
    ensures Included(Without(a, KeysWithPrefix(a, prefix)), Without(b, KeysWithPrefix(b, prefix)), n, m)
  {
    var ga, gb := KeysWithPrefix(a, prefix), KeysWithPrefix(b, prefix);
    SubsequenceMembers(a, b);
    forall k | k in ga ensures k in gb {
      var i :| 0 <= i < |a| && StartsWith(a[i].key, prefix) && a[i].key == k;
      assert a[i] in b;
    }
    forall i | 0 <= i < |Without(a, ga)| ensures Without(a, ga)[i].key !in gb {
      WithoutMembers(a, ga);
      assert Without(a, ga)[i] in a;
    }
    WithoutNone(Without(a, ga), gb);
    WithoutTwice(a, ga, gb);
    assert ga + gb == gb;
    WithoutMembers(a, ga);
    WithoutMembers(b, gb);
    SubsequenceWithout(a, b, gb);
  }

  lemma IncludedStep<V>(a: seq<Entry<V>>, b: seq<Entry<V>>, n: nat, m: nat, op: Op<V>)
    requires n <= m && Included(a, b, n, m)
    ensures Included(Step(a, n, op).0, Step(b, m, op).0, n, m)
    ensures Step(a, n, op).1.Some? ==> Step(b, m, op).1 == Step(a, n, op).1
  {
    match op
    case GetOp(key, at) => IncludedGet(a, b, n, m, key, at);
    case SetOp(key, value, ttl, at) => IncludedSet(a, b, n, m, key, value, at + ttl as real);
    case DeleteOp(key) =>
      KeyGone(a, key);
      KeyGone(b, key);
      SubsequenceWithout(a, b, {key});
    case DeletePrefixOp(prefix) => IncludedDeletePrefix(a, b, n, m, prefix);
  }

  /** Running the same operations on capacities n <= m keeps the small store an ordered
      subsequence of the big one with equal entries, the sizes at most m - n apart. */
  lemma {:induction false} Inclusion<V>(n: nat, m: nat, ops: seq<Op<V>>)
    requires n <= m
    ensures Included(After(n, ops), After(m, ops), n, m)
  {
    if ops != [] {
      var k := |ops| - 1;
      Inclusion(n, m, ops[..k]);
      IncludedStep(After(n, ops[..k]), After(m, ops[..k]), n, m, ops[k]);
    }
  }

  /** Raising the capacity never loses a hit: what the small cache returns, the big one returns. */
  lemma NoHitLost<V>(n: nat, m: nat, ops: seq<Op<V>>, next: Op<V>)
    requires n <= m && Step(After(n, ops), n, next).1.Some?
    ensures Step(After(m, ops), m, next).1 == Step(After(n, ops), n, next).1
  {
    Inclusion(n, m, ops);
    IncludedStep(After(n, ops), After(m, ops), n, m, next);
  }
}
