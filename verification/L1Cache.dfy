/**
  The in-process cache: a least-recently-used store with a time to live per entry.

  The ordered dictionary is a sequence of entries, oldest use first, with no key twice.
  The functions give each operation on that sequence; the class runs them in place.
*/
module Lru {
  import opened Errors

  type Key = string

  datatype Entry<V> = Entry(key: Key, value: V, expiresAt: real)

  ghost predicate DistinctKeys<V>(s: seq<Entry<V>>) {
    forall i, j :: 0 <= i < j < |s| ==> s[i].key != s[j].key
  }

  /** The position of `key`, or the length of the store. */
  function IndexOf<V>(s: seq<Entry<V>>, key: Key): (i: nat)
    ensures i <= |s|
    ensures i < |s| ==> s[i].key == key
    ensures forall j :: 0 <= j < i ==> s[j].key != key
  {
    if s == [] || s[0].key == key then 0 else 1 + IndexOf(s[1..], key)
  }

  function Lookup<V>(s: seq<Entry<V>>, key: Key): Option<Entry<V>> {
    var i := IndexOf(s, key);
    if i < |s| then Some(s[i]) else None
  }

  /** The store without the entries whose key is in `gone`, in the same order. */
  function Without<V>(s: seq<Entry<V>>, gone: set<Key>): seq<Entry<V>> {
    if s == [] then []
    else if s[0].key in gone then Without(s[1..], gone)
    else [s[0]] + Without(s[1..], gone)
  }

  /** Python's str.startswith. */
  predicate StartsWith(s: string, prefix: string) {
    prefix <= s
  }

  function KeySet(keys: seq<Key>): set<Key> {
    set k | k in keys
  }

  function KeysWithPrefix<V>(s: seq<Entry<V>>, prefix: string): set<Key> {
    set i | 0 <= i < |s| && StartsWith(s[i].key, prefix) :: s[i].key
  }

  function AfterGet<V>(s: seq<Entry<V>>, key: Key, now: real): (seq<Entry<V>>, Option<V>) {
    match Lookup(s, key)
    case None => (s, None)
    case Some(e) =>
      if e.expiresAt < now then (Without(s, {key}), None)
      else (Without(s, {key}) + [e], Some(e.value))
  }

  /** The newest entries, at most `maxItems` of them. */
  function Trim<V>(s: seq<Entry<V>>, maxItems: nat): seq<Entry<V>> {
    if |s| <= maxItems then s else s[|s| - maxItems..]
  }

  function AfterSet<V>(s: seq<Entry<V>>, maxItems: nat, key: Key, value: V, expiresAt: real): seq<Entry<V>> {
    Trim(Without(s, {key}) + [Entry(key, value, expiresAt)], maxItems)
  }

  lemma {:induction false} WithoutNone<V>(s: seq<Entry<V>>, gone: set<Key>)
    requires forall i :: 0 <= i < |s| ==> s[i].key !in gone
    ensures Without(s, gone) == s
  {
    if s != [] {
      WithoutNone(s[1..], gone);
    }
  }

  lemma {:induction false} WithoutIndex<V>(s: seq<Entry<V>>, key: Key)
    requires DistinctKeys(s)
    ensures var i := IndexOf(s, key);
            Without(s, {key}) == if i < |s| then s[..i] + s[i + 1..] else s
  {
    if s != [] {
      if s[0].key == key {
        WithoutNone(s[1..], {key});
      } else {
        WithoutIndex(s[1..], key);
        var i := IndexOf(s[1..], key);
        if i < |s| - 1 {
          assert [s[0]] + (s[1..][..i] + s[1..][i + 1..]) == s[..i + 1] + s[i + 2..];
        }
      }
    }
  }

  /** Membership after removal: exactly the entries whose key stays. */
  lemma {:induction false} WithoutMembers<V>(s: seq<Entry<V>>, gone: set<Key>)
    ensures |Without(s, gone)| <= |s|
    ensures forall e :: e in Without(s, gone) <==> e in s && e.key !in gone
    ensures forall j :: 0 <= j < |Without(s, gone)| ==>
              Without(s, gone)[j] in s && Without(s, gone)[j].key !in gone
    ensures DistinctKeys(s) ==> DistinctKeys(Without(s, gone))
  {
    if s != [] {
      var rest := Without(s[1..], gone);
      WithoutMembers(s[1..], gone);
      assert forall e :: e in s <==> e == s[0] || e in s[1..];
      if DistinctKeys(s) && s[0].key !in gone {
        forall j | 0 <= j < |rest| ensures rest[j].key != s[0].key {
          assert rest[j] in s[1..];
          var i :| 0 <= i < |s| - 1 && s[1..][i] == rest[j];
          assert s[i + 1] == rest[j];
        }
        assert Without(s, gone) == [s[0]] + rest;
      }
    }
  }

  lemma {:induction false} WithoutTwice<V>(s: seq<Entry<V>>, a: set<Key>, b: set<Key>)
    ensures Without(Without(s, a), b) == Without(s, a + b)
  {
    if s != [] {
      WithoutTwice(s[1..], a, b);
      if s[0].key !in a {
        assert Without(s, a)[1..] == Without(s[1..], a);
      }
    }
  }

  lemma IndexIs<V>(s: seq<Entry<V>>, key: Key, i: nat)
    requires DistinctKeys(s) && i < |s| && s[i].key == key
    ensures IndexOf(s, key) == i
  {
  }

  /** Assigning to a key in place, whether or not it is present, and then taking the key out. */
  lemma AssignThenRemove<V>(s: seq<Entry<V>>, e: Entry<V>)
    requires DistinctKeys(s)
    ensures var i := IndexOf(s, e.key);
            var t := if i < |s| then s[i := e] else s + [e];
            DistinctKeys(t) && Lookup(t, e.key) == Some(e) && Without(t, {e.key}) == Without(s, {e.key})
  {
    var i := IndexOf(s, e.key);
    WithoutIndex(s, e.key);
    if i < |s| {
      var t := s[i := e];
      IndexIs(t, e.key, i);
      WithoutIndex(t, e.key);
      assert t[..i] == s[..i] && t[i + 1..] == s[i + 1..];
    } else {
      var t := s + [e];
      IndexIs(t, e.key, i);
      WithoutIndex(t, e.key);
      assert t[..i] + t[i + 1..] == s;
    }
  }

  lemma SetKeepsDistinct<V>(s: seq<Entry<V>>, maxItems: nat, key: Key, value: V, expiresAt: real)
    requires DistinctKeys(s)
    ensures DistinctKeys(AfterSet(s, maxItems, key, value, expiresAt))
  {
    var rest := Without(s, {key});
    WithoutMembers(s, {key});
  }

  lemma LookupMember<V>(s: seq<Entry<V>>, key: Key)
    ensures Lookup(s, key).Some? ==> Lookup(s, key).value in s && Lookup(s, key).value.key == key
    ensures Lookup(s, key).None? ==> forall e :: e in s ==> e.key != key
  {
  }

  lemma LookupUnique<V>(s: seq<Entry<V>>, e: Entry<V>)
    requires DistinctKeys(s) && e in s
    ensures Lookup(s, e.key) == Some(e)
  {
  }

  class L1Cache<V> {
    const maxItems: nat
    var store: seq<Entry<V>>

    ghost predicate Valid()
      reads this
    {
      DistinctKeys(store) && |store| <= maxItems
    }

    constructor (maxItems: nat)
      ensures Valid() && this.maxItems == maxItems && store == []
    {
      this.maxItems := maxItems;
      store := [];
    }

    /** OrderedDict.pop(key, None). */
    method Pop(key: Key)
      requires DistinctKeys(store)
      modifies this
      ensures store == Without(old(store), {key})
    {
      WithoutIndex(store, key);
      var i := IndexOf(store, key);
      if i < |store| {
        store := store[..i] + store[i + 1..];
      }
    }

    /** OrderedDict.move_to_end(key). */
    method MoveToEnd(key: Key)
      requires DistinctKeys(store) && Lookup(store, key).Some?
      modifies this
      ensures store == Without(old(store), {key}) + [Lookup(old(store), key).value]
    {
      var e := store[IndexOf(store, key)];
      Pop(key);
      store := store + [e];
    }

    method Get(key: Key, now: real) returns (hit: Option<V>)
      requires Valid()
      modifies this
      ensures Valid()
      ensures (store, hit) == AfterGet(old(store), key, now)
    {
      WithoutMembers(store, {key});
      LookupMember(store, key);
      var entry := Lookup(store, key);
      if entry.None? {
        return None;
      }
      if entry.value.expiresAt < now {
        Pop(key);
        return None;
      }
      WithoutIndex(store, key);
      MoveToEnd(key);
      return Some(entry.value.value);
    }

    /** Item assignment: a present key keeps its position, a new one goes last. */
    method Assign(entry: Entry<V>)
      requires DistinctKeys(store)
      modifies this
      ensures DistinctKeys(store) && Lookup(store, entry.key) == Some(entry)
      ensures Without(store, {entry.key}) == Without(old(store), {entry.key})
    {
      AssignThenRemove(store, entry);
      var i := IndexOf(store, entry.key);
      store := if i < |store| then store[i := entry] else store + [entry];
    }

    /** Pops the oldest entries while the store is over its capacity. */
    method Evict()
      modifies this
      ensures store == Trim(old(store), maxItems)
    {
      while |store| > maxItems
        invariant |store| <= |old(store)| && store == old(store)[|old(store)| - |store|..]
        invariant |store| >= maxItems || store == old(store)
      {
        store := store[1..];
      }
    }

    method Set(key: Key, value: V, ttl: int, now: real)
      requires Valid()
      modifies this
      ensures Valid()
      ensures store == AfterSet(old(store), maxItems, key, value, now + ttl as real)
    {
      var entry := Entry(key, value, now + ttl as real);
      SetKeepsDistinct(store, maxItems, key, value, now + ttl as real);
      Assign(entry);
      MoveToEnd(key);
      Evict();
    }

    method Delete(key: Key)
      requires Valid()
      modifies this
      ensures Valid()
      ensures store == Without(old(store), {key})
    {
      WithoutMembers(store, {key});
      Pop(key);
    }

    /** The stored keys that start with `prefix`, oldest first. */
    method Matching(prefix: string) returns (matched: seq<Key>)
      requires Valid()
      ensures KeySet(matched) == KeysWithPrefix(store, prefix)
      ensures forall a, b :: 0 <= a < b < |matched| ==> matched[a] != matched[b]
    {
      matched := [];
      for i := 0 to |store|
        invariant forall k :: k in matched <==> exists j :: 0 <= j < i && store[j].key == k && StartsWith(k, prefix)
        invariant forall a, b :: 0 <= a < b < |matched| ==> matched[a] != matched[b]
      {
        if StartsWith(store[i].key, prefix) {
          matched := matched + [store[i].key];
        }
      }
    }

    method DeletePrefix(prefix: string) returns (count: nat)
      requires Valid()
      modifies this
      ensures Valid()
      ensures store == Without(old(store), KeysWithPrefix(old(store), prefix))
      ensures count == |KeysWithPrefix(old(store), prefix)|
    {
      var matched := Matching(prefix);
      WithoutNone(store, {});
      assert KeySet(matched[..0]) == {};
      for i := 0 to |matched|
        invariant store == Without(old(store), KeySet(matched[..i]))
        invariant |KeySet(matched[..i])| == i
      {
        ghost var before := KeySet(matched[..i]);
        WithoutMembers(old(store), before);
        WithoutTwice(old(store), before, {matched[i]});
        assert KeySet(matched[..i + 1]) == before + {matched[i]};
        Pop(matched[i]);
      }
      assert matched[..|matched|] == matched;
      WithoutMembers(old(store), KeySet(matched));
      count := |matched|;
    }

    function Len(): (n: nat)
      reads this
      requires Valid()
      ensures n <= maxItems
    {
      |store|
    }
  }
}
