/**
  The law of recency: which keys the in-process cache still holds, and what it answers, read off
  the log of its operations alone. The clock is arbitrary; it may even go back.
*/
module LruRecency {
  import opened Errors
  import opened Lru
  import opened LruInclusion

  // ---------------------------------------------------------------------------------
  // The law
  // ---------------------------------------------------------------------------------

  /** The index of the last operation that set the key, or asked for it and was answered; None if
      the key has been deleted, or found expired or missing, since. */
  ghost function LastUse<V>(n: nat, ops: seq<Op<V>>, key: Key): Option<nat>
    ensures LastUse(n, ops, key).Some? ==> LastUse(n, ops, key).value < |ops|
    decreases |ops|, 0
  {
    if ops == [] then None
    else
      var k := |ops| - 1;
      var before := LastUse(n, ops[..k], key);
      match ops[k]
      case SetOp(other, _, _, _) => if other == key then Some(k) else before
      case GetOp(other, at) =>
        if other != key then before else if Answer(n, ops[..k], key, at).Some? then Some(k) else None
      case DeleteOp(other) => if other == key then None else before
      case DeletePrefixOp(prefix) => if prefix <= key then None else before
  }

  /** The keys set or hit after operation i, and neither deleted nor found expired or missing since. */
  ghost function UsedSince<V>(n: nat, ops: seq<Op<V>>, i: nat): set<Key>
    decreases |ops|, 0
  {
    if |ops| <= i + 1 then {}
    else
      var k := |ops| - 1;
      var before := UsedSince(n, ops[..k], i);
      match ops[k]
      case SetOp(other, _, _, _) => before + {other}
      case GetOp(other, at) => if Answer(n, ops[..k], other, at).Some? then before + {other} else before - {other}
      case DeleteOp(other) => before - {other}
      case DeletePrefixOp(prefix) => set x | x in before && !(prefix <= x)
  }

  /** Since operation i there have never been as many keys in use as the cache has places. */
  ghost predicate AlwaysRoom<V>(n: nat, ops: seq<Op<V>>, i: nat)
    decreases |ops|, 1
  {
    forall t: nat :: i < t <= |ops| ==> |UsedSince(n, ops[..t], i)| < n
  }

  /** The cache still holds the key, live or not: since its last use there have always been fewer
      others in use than it has places. */
  ghost predicate Kept<V>(n: nat, ops: seq<Op<V>>, key: Key)
    decreases |ops|, 2
  {
    LastUse(n, ops, key).Some? && AlwaysRoom(n, ops, LastUse(n, ops, key).value)
  }

  /** The value last set for the key, and when it expires. */
  function LastSet<V>(ops: seq<Op<V>>, key: Key): Option<(V, real)> {
    if ops == [] then None
    else
      var last := ops[|ops| - 1];
      if last.SetOp? && last.key == key then Some((last.value, last.at + last.ttl as real))
      else LastSet(ops[..|ops| - 1], key)
  }

  /** What a get of the key answers at a time: the value last set, if it is kept and live. */
  ghost function Answer<V>(n: nat, ops: seq<Op<V>>, key: Key, at: real): Option<V>
    decreases |ops|, 3
  {
    var w := LastSet(ops, key);
    if Kept(n, ops, key) && w.Some? && at <= w.value.1 then Some(w.value.0) else None
  }

  // ---------------------------------------------------------------------------------
  // Places in the store
  // ---------------------------------------------------------------------------------

  function KeysOf<V>(s: seq<Entry<V>>): set<Key> {
    if s == [] then {} else {s[0].key} + KeysOf(s[1..])
  }

  /** The keys after a key. */
  function Follows<V>(s: seq<Entry<V>>, key: Key): set<Key> {
    if s == [] then {} else if s[0].key == key then KeysOf(s[1..]) else Follows(s[1..], key)
  }

  lemma {:induction false} KeyHeld<V>(s: seq<Entry<V>>, key: Key)
    ensures key in KeysOf(s) <==> exists i :: 0 <= i < |s| && s[i].key == key
    ensures key in KeysOf(s) <==> Lookup(s, key).Some?
  {
    if s != [] {
      KeyHeld(s[1..], key);
      if i :| 0 <= i < |s| && s[i].key == key {
        assert i > 0 ==> s[1..][i - 1].key == key;
      }
    }
  }

  lemma {:induction false} KeysCount<V>(s: seq<Entry<V>>)
    requires DistinctKeys(s)
    ensures |KeysOf(s)| == |s|
  {
    if s != [] {
      KeysCount(s[1..]);
      KeyHeld(s[1..], s[0].key);
    }
  }

  lemma {:induction false} KeysWithout<V>(s: seq<Entry<V>>, gone: set<Key>)
    ensures KeysOf(Without(s, gone)) == KeysOf(s) - gone
  {
    if s != [] {
      KeysWithout(s[1..], gone);
      if s[0].key !in gone {
        assert Without(s, gone)[1..] == Without(s[1..], gone);
      }
    }
  }

  lemma {:induction false} KeysAppend<V>(s: seq<Entry<V>>, e: Entry<V>)
    ensures KeysOf(s + [e]) == KeysOf(s) + {e.key}
  {
    if s != [] {
      KeysAppend(s[1..], e);
      assert (s + [e])[1..] == s[1..] + [e];
    }
  }

  lemma LookupTail<V>(s: seq<Entry<V>>, key: Key)
    requires s != []
    ensures Lookup(s, key) == if s[0].key == key then Some(s[0]) else Lookup(s[1..], key)
  {
  }

  lemma {:induction false} LookupWithout<V>(s: seq<Entry<V>>, gone: set<Key>, key: Key)
    requires key !in gone
    ensures Lookup(Without(s, gone), key) == Lookup(s, key)
  {
    if s != [] {
      LookupWithout(s[1..], gone, key);
      LookupTail(s, key);
      if s[0].key !in gone {
        var t := Without(s, gone);
        assert t[0] == s[0] && t[1..] == Without(s[1..], gone);
        LookupTail(t, key);
      }
    }
  }

  lemma {:induction false} FollowsWithout<V>(s: seq<Entry<V>>, gone: set<Key>, key: Key)
    requires key !in gone
    ensures Follows(Without(s, gone), key) == Follows(s, key) - gone
  {
    if s != [] {
      FollowsWithout(s[1..], gone, key);
      KeysWithout(s[1..], gone);
      if s[0].key !in gone {
        assert Without(s, gone)[1..] == Without(s[1..], gone);
      } else {
        assert Without(s, gone) == Without(s[1..], gone);
      }
    }
  }

  lemma {:induction false} FollowsAppend<V>(s: seq<Entry<V>>, e: Entry<V>, key: Key)
    ensures Follows(s + [e], key) == if key in KeysOf(s) then Follows(s, key) + {e.key} else {}
    ensures key in KeysOf(s) ==> Lookup(s + [e], key) == Lookup(s, key)
    ensures key !in KeysOf(s) && key == e.key ==> Lookup(s + [e], key) == Some(e)
  {
    if s != [] {
      FollowsAppend(s[1..], e, key);
      KeysAppend(s[1..], e);
      assert (s + [e])[1..] == s[1..] + [e];
    } else {
      assert [e][1..] == [] && s + [e] == [e];
    }
  }

  lemma {:induction false} FollowsSize<V>(s: seq<Entry<V>>, key: Key)
    requires DistinctKeys(s) && key in KeysOf(s)
    ensures |Follows(s, key)| < |s| && (|Follows(s, key)| == |s| - 1 <==> s[0].key == key)
    ensures s[0].key != key ==> Follows(s[1..], key) == Follows(s, key) && Lookup(s[1..], key) == Lookup(s, key)
    ensures s[0].key == key ==> key !in KeysOf(s[1..])
  {
    KeysCount(s[1..]);
    KeyHeld(s[1..], s[0].key);
    if s[0].key != key {
      FollowsSize(s[1..], key);
    }
  }

  // ---------------------------------------------------------------------------------
  // The store obeys the law
  // ---------------------------------------------------------------------------------

  /** The store holds a key exactly if the law keeps it, with what was last set, and after it come
      exactly the keys used since. */
  ghost predicate Obeys<V>(n: nat, ops: seq<Op<V>>, s: seq<Entry<V>>, key: Key) {
    match Lookup(s, key)
    case None => !Kept(n, ops, key)
    case Some(e) =>
      && Kept(n, ops, key) && LastSet(ops, key) == Some((e.value, e.expiresAt))
      && Follows(s, key) == UsedSince(n, ops, LastUse(n, ops, key).value)
  }

  ghost predicate Lawful<V>(n: nat, ops: seq<Op<V>>, s: seq<Entry<V>>) {
    DistinctKeys(s) && |s| <= n && forall key :: Obeys(n, ops, s, key)
  }

  /** The store answers what the law says. */
  lemma AnswerObeys<V>(n: nat, ops: seq<Op<V>>, s: seq<Entry<V>>, key: Key, at: real)
    requires Obeys(n, ops, s, key)
    ensures AfterGet(s, key, at).1 == Answer(n, ops, key, at)
  {
  }

  lemma RoomBefore<V>(n: nat, ops: seq<Op<V>>, op: Op<V>, i: nat)
    requires i < |ops|
    ensures AlwaysRoom(n, ops + [op], i) <==> AlwaysRoom(n, ops, i) && |UsedSince(n, ops + [op], i)| < n
  {
    var all := ops + [op];
    assert all[..|all|] == all;
    forall t: nat | i < t <= |ops| ensures all[..t] == ops[..t] {
    }
    if AlwaysRoom(n, all, i) {
      assert |UsedSince(n, all[..|all|], i)| < n;
      forall t: nat | i < t <= |ops| ensures |UsedSince(n, ops[..t], i)| < n {
        assert |UsedSince(n, all[..t], i)| < n;
      }
    }
  }

  // ---------------------------------------------------------------------------------
  // A use
  // ---------------------------------------------------------------------------------

  lemma TrimPlaces<V>(s: seq<Entry<V>>, n: nat, key: Key)
    requires DistinctKeys(s) && |s| <= n + 1
    ensures Lookup(Trim(s, n), key).Some? <==> key in KeysOf(s) && |Follows(s, key)| < n
    ensures Lookup(Trim(s, n), key).Some? ==>
              Follows(Trim(s, n), key) == Follows(s, key) && Lookup(Trim(s, n), key) == Lookup(s, key)
  {
    KeyHeld(s, key);
    KeyHeld(Trim(s, n), key);
    if key in KeysOf(s) {
      FollowsSize(s, key);
    }
    if |s| > n {
      LookupTail(s, key);
      assert Trim(s, n) == s[1..];
    }
  }

  lemma AppendPlaces<V>(s: seq<Entry<V>>, e: Entry<V>, key: Key)
    requires DistinctKeys(s) && key != e.key
    ensures var t := Without(s, {e.key}) + [e];
            && DistinctKeys(t) && |t| <= |s| + 1 && (key in KeysOf(t) <==> key in KeysOf(s))
            && (key in KeysOf(s) ==> Follows(t, key) == Follows(s, key) + {e.key} && Lookup(t, key) == Lookup(s, key))
  {
    var rest := Without(s, {e.key});
    WithoutMembers(s, {e.key});
    KeysWithout(s, {e.key});
    KeysAppend(rest, e);
    LookupWithout(s, {e.key}, key);
    FollowsWithout(s, {e.key}, key);
    FollowsAppend(rest, e, key);
  }

  /** The last operation sets the key, or hits it. */
  ghost predicate Used<V>(n: nat, ops: seq<Op<V>>, op: Op<V>, key: Key) {
    match op
    case SetOp(other, _, _, _) => other == key
    case GetOp(other, at) => other == key && Answer(n, ops, key, at).Some?
    case _ => false
  }

  lemma UseInLog<V>(n: nat, ops: seq<Op<V>>, op: Op<V>, used: Key, key: Key, i: nat)
    requires Used(n, ops, op, used)
    ensures LastUse(n, ops + [op], key) == if key == used then Some(|ops|) else LastUse(n, ops, key)
    ensures UsedSince(n, ops + [op], i) == if i < |ops| then UsedSince(n, ops, i) + {used} else {}
  {
    assert (ops + [op])[..|ops|] == ops;
  }

  /** Another key is used: the entry goes last, and the first one goes if there is no place for it. */
  lemma UseObeys<V>(n: nat, ops: seq<Op<V>>, op: Op<V>, s: seq<Entry<V>>, e: Entry<V>, key: Key)
    requires DistinctKeys(s) && |s| <= n && Obeys(n, ops, s, key) && key != e.key && Used(n, ops, op, e.key)
    requires LastSet(ops + [op], key) == LastSet(ops, key)
    ensures Obeys(n, ops + [op], Trim(Without(s, {e.key}) + [e], n), key)
  {
    KeyHeld(s, key);
    AppendPlaces(s, e, key);
    TrimPlaces(Without(s, {e.key}) + [e], n, key);
    var i := LastUse(n, ops, key);
    UseInLog(n, ops, op, e.key, key, if i.Some? then i.value else 0);
    if i.Some? {
      RoomBefore(n, ops, op, i.value);
    }
  }

  lemma LastPlace<V>(s: seq<Entry<V>>, e: Entry<V>)
    requires e.key !in KeysOf(s)
    ensures Lookup(s + [e], e.key) == Some(e) && Follows(s + [e], e.key) == {}
  {
    FollowsAppend(s, e, e.key);
  }

  lemma TrimLast<V>(s: seq<Entry<V>>, n: nat, e: Entry<V>)
    requires e.key !in KeysOf(s) && |s| <= n
    ensures Lookup(Trim(s + [e], n), e.key) == if n == 0 then None else Some(e)
    ensures Follows(Trim(s + [e], n), e.key) == {}
  {
    if |s| < n {
      LastPlace(s, e);
    } else if n > 0 {
      assert Trim(s + [e], n) == s[1..] + [e];
      LastPlace(s[1..], e);
    }
  }

  /** The key itself is used. */
  lemma OwnUseObeys<V>(n: nat, ops: seq<Op<V>>, op: Op<V>, s: seq<Entry<V>>, e: Entry<V>)
    requires DistinctKeys(s) && |s| <= n && Used(n, ops, op, e.key)
    requires LastSet(ops + [op], e.key) == Some((e.value, e.expiresAt))
    ensures Obeys(n, ops + [op], Trim(Without(s, {e.key}) + [e], n), e.key)
  {
    KeysWithout(s, {e.key});
    WithoutMembers(s, {e.key});
    TrimLast(Without(s, {e.key}), n, e);
    UseInLog(n, ops, op, e.key, e.key, |ops|);
    var all := ops + [op];
    assert all[..|all|] == all;
    assert AlwaysRoom(n, all, |ops|) <==> |UsedSince(n, all[..|all|], |ops|)| < n;
  }

  // ---------------------------------------------------------------------------------
  // A removal
  // ---------------------------------------------------------------------------------

  /** The last operation takes the key out, or finds it out. */
  ghost predicate Removed<V>(n: nat, ops: seq<Op<V>>, op: Op<V>, key: Key) {
    match op
    case SetOp(_, _, _, _) => false
    case GetOp(other, at) => other == key && Answer(n, ops, key, at).None?
    case DeleteOp(other) => other == key
    case DeletePrefixOp(prefix) => prefix <= key
  }

  /** It is no use of any key. */
  ghost predicate Removes<V>(n: nat, ops: seq<Op<V>>, op: Op<V>) {
    !op.SetOp? && (op.GetOp? ==> Answer(n, ops, op.key, op.at).None?)
  }

  lemma RemovalInLog<V>(n: nat, ops: seq<Op<V>>, op: Op<V>, key: Key, i: nat)
    requires Removes(n, ops, op)
    ensures LastUse(n, ops + [op], key) == if Removed(n, ops, op, key) then None else LastUse(n, ops, key)
    ensures UsedSince(n, ops + [op], i) == set x | x in UsedSince(n, ops, i) && !Removed(n, ops, op, x)
    ensures LastSet(ops + [op], key) == LastSet(ops, key)
  {
    assert (ops + [op])[..|ops|] == ops;
  }

  /** A set of keys is taken out; every key is left as the law says. */
  lemma RemovalObeys<V>(n: nat, ops: seq<Op<V>>, op: Op<V>, s: seq<Entry<V>>, gone: set<Key>, key: Key)
    requires DistinctKeys(s) && |s| <= n && Obeys(n, ops, s, key) && Removes(n, ops, op)
    requires forall x :: x in KeysOf(s) ==> (x in gone <==> Removed(n, ops, op, x))
    ensures Obeys(n, ops + [op], Without(s, gone), key)
  {
    var i := LastUse(n, ops, key);
    KeyHeld(s, key);
    KeyHeld(Without(s, gone), key);
    KeysWithout(s, gone);
    RemovalInLog(n, ops, op, key, if i.Some? then i.value else 0);
    if Removed(n, ops, op, key) {
    } else if key in gone {
      assert Lookup(s, key).None?;
      KeptStays(n, ops, op, key);
    } else {
      LookupWithout(s, gone, key);
      FollowsWithout(s, gone, key);
      KeptStays(n, ops, op, key);
      FollowsHeld(s, key);
    }
  }

  lemma {:induction false} FollowsHeld<V>(s: seq<Entry<V>>, key: Key)
    ensures Follows(s, key) <= KeysOf(s)
  {
    if s != [] {
      FollowsHeld(s[1..], key);
    }
  }

  lemma KeptStays<V>(n: nat, ops: seq<Op<V>>, op: Op<V>, key: Key)
    requires Removes(n, ops, op) && !Removed(n, ops, op, key)
    ensures Kept(n, ops + [op], key) <==> Kept(n, ops, key)
  {
    var i := LastUse(n, ops, key);
    if i.Some? {
      RemovalInLog(n, ops, op, key, i.value);
      RoomBefore(n, ops, op, i.value);
      var before, after := UsedSince(n, ops, i.value), UsedSince(n, ops + [op], i.value);
      SubsetSmaller(after, before);
      assert ops[..|ops|] == ops;
      assert AlwaysRoom(n, ops, i.value) ==> |UsedSince(n, ops[..|ops|], i.value)| < n;
    } else {
      RemovalInLog(n, ops, op, key, 0);
    }
  }

  lemma SubsetSmaller(a: set<Key>, b: set<Key>)
    requires a <= b
    ensures |a| <= |b|
  {
    assert b == a + (b - a);
  }

  // ---------------------------------------------------------------------------------
  // Every log
  // ---------------------------------------------------------------------------------

  lemma UseStep<V>(n: nat, ops: seq<Op<V>>, op: Op<V>, s: seq<Entry<V>>, e: Entry<V>)
    requires Lawful(n, ops, s) && Used(n, ops, op, e.key)
    requires LastSet(ops + [op], e.key) == Some((e.value, e.expiresAt))
    ensures Lawful(n, ops + [op], Trim(Without(s, {e.key}) + [e], n))
  {
    var t := Trim(Without(s, {e.key}) + [e], n);
    SetKeepsDistinct(s, n, e.key, e.value, e.expiresAt);
    assert t == AfterSet(s, n, e.key, e.value, e.expiresAt);
    forall key ensures Obeys(n, ops + [op], t, key) {
      if key == e.key {
        OwnUseObeys(n, ops, op, s, e);
      } else {
        assert (ops + [op])[..|ops|] == ops;
        UseObeys(n, ops, op, s, e, key);
      }
    }
  }

  lemma RemovalStep<V>(n: nat, ops: seq<Op<V>>, op: Op<V>, s: seq<Entry<V>>, gone: set<Key>)
    requires Lawful(n, ops, s) && Removes(n, ops, op)
    requires forall x :: x in KeysOf(s) ==> (x in gone <==> Removed(n, ops, op, x))
    ensures Lawful(n, ops + [op], Without(s, gone))
  {
    WithoutMembers(s, gone);
    forall key ensures Obeys(n, ops + [op], Without(s, gone), key) {
      RemovalObeys(n, ops, op, s, gone, key);
    }
  }

  lemma GetStep<V>(n: nat, ops: seq<Op<V>>, op: Op<V>, s: seq<Entry<V>>)
    requires Lawful(n, ops, s) && op.GetOp?
    ensures Lawful(n, ops + [op], AfterGet(s, op.key, op.at).0)
  {
    AnswerObeys(n, ops, s, op.key, op.at);
    assert (ops + [op])[..|ops|] == ops;
    KeyHeld(s, op.key);
    WithoutIndex(s, op.key);
    if Answer(n, ops, op.key, op.at).Some? {
      UseStep(n, ops, op, s, Lookup(s, op.key).value);
    } else {
      RemovalStep(n, ops, op, s, {op.key});
    }
  }

  lemma PrefixStep<V>(n: nat, ops: seq<Op<V>>, op: Op<V>, s: seq<Entry<V>>)
    requires Lawful(n, ops, s) && op.DeletePrefixOp?
    ensures Lawful(n, ops + [op], Without(s, KeysWithPrefix(s, op.prefix)))
  {
    forall x | x in KeysOf(s) ensures x in KeysWithPrefix(s, op.prefix) <==> op.prefix <= x {
      KeyHeld(s, x);
    }
    RemovalStep(n, ops, op, s, KeysWithPrefix(s, op.prefix));
  }

  lemma {:induction false} AlwaysLawful<V>(n: nat, ops: seq<Op<V>>)
    ensures Lawful(n, ops, After(n, ops))
  {
    if ops != [] {
      var earlier, op := ops[..|ops| - 1], ops[|ops| - 1];
      var s := After(n, earlier);
      assert ops == earlier + [op];
      AlwaysLawful(n, earlier);
      match op
      case GetOp(_, _) => GetStep(n, earlier, op, s);
      case SetOp(key, value, ttl, at) => UseStep(n, earlier, op, s, Entry(key, value, at + ttl as real));
      case DeleteOp(key) => RemovalStep(n, earlier, op, s, {key});
      case DeletePrefixOp(_) => PrefixStep(n, earlier, op, s);
    }
  }

  /** Least recently used: after any operations, at any times, the cache holds a key if and only if
      it has been set or hit, not been removed since, and there have always been fewer other keys in
      use since than the cache has places. */
  lemma HeldIffKept<V>(n: nat, ops: seq<Op<V>>, key: Key)
    ensures (exists e :: e in After(n, ops) && e.key == key) <==> Kept(n, ops, key)
  {
    AlwaysLawful(n, ops);
    assert Obeys(n, ops, After(n, ops), key);
    LookupMember(After(n, ops), key);
  }

  /** And a get answers with the value last set, if the key is so kept and has not expired. */
  lemma AnswersByTheLog<V>(n: nat, ops: seq<Op<V>>, key: Key, at: real)
    ensures Step(After(n, ops), n, GetOp(key, at)).1 == Answer(n, ops, key, at)
  {
    AlwaysLawful(n, ops);
    AnswerObeys(n, ops, After(n, ops), key, at);
  }

  lemma {:induction false} UsedLater<V>(n: nat, ops: seq<Op<V>>, i: nat, key: Key)
    requires key in UsedSince(n, ops, i)
    ensures LastUse(n, ops, key).Some? && LastUse(n, ops, key).value > i
  {
    var k := |ops| - 1;
    if key in UsedSince(n, ops[..k], i) {
      UsedLater(n, ops[..k], i, key);
    }
  }

  lemma {:induction false} FollowsAfter<V>(s: seq<Entry<V>>, i: nat, j: nat)
    requires DistinctKeys(s) && i < j < |s|
    ensures s[j].key in Follows(s, s[i].key)
  {
    if i == 0 {
      KeyHeld(s[1..], s[j].key);
      assert s[1..][j - 1] == s[j];
    } else {
      FollowsAfter(s[1..], i - 1, j - 1);
    }
  }

  /** The store is in the order of last use. */
  lemma OrderOfUse<V>(n: nat, ops: seq<Op<V>>, i: nat, j: nat)
    requires i < j < |After(n, ops)|
    ensures var a, b := LastUse(n, ops, After(n, ops)[i].key), LastUse(n, ops, After(n, ops)[j].key);
            a.Some? && b.Some? && a.value < b.value
  {
    var s := After(n, ops);
    AlwaysLawful(n, ops);
    FollowsAfter(s, i, j);
    LookupUnique(s, s[i]);
    assert Obeys(n, ops, s, s[i].key);
    UsedLater(n, ops, LastUse(n, ops, s[i].key).value, s[j].key);
  }

  lemma SetOnFull<V>(n: nat, ops: seq<Op<V>>, op: Op<V>)
    requires n > 0 && |After(n, ops)| == n && op.SetOp? && !Kept(n, ops, op.key)
    ensures var s, e := After(n, ops), Entry(op.key, op.value, op.at + op.ttl as real);
            After(n, ops + [op]) == s[1..] + [e] && forall i :: 0 <= i < |s| ==> s[i].key != op.key
  {
    var s := After(n, ops);
    HeldIffKept(n, ops, op.key);
    forall i | 0 <= i < |s| ensures s[i].key != op.key {
      assert s[i] in s;
    }
    WithoutNone(s, {op.key});
    assert (ops + [op])[..|ops|] == ops;
  }

  /** So setting a new key on a full cache evicts one key, that whose last use is the oldest. */
  lemma EvictsLeastRecent<V>(n: nat, ops: seq<Op<V>>, op: Op<V>) returns (victim: Key)
    requires n > 0 && |After(n, ops)| == n && op.SetOp? && !Kept(n, ops, op.key)
    ensures Kept(n, ops, victim) && !Kept(n, ops + [op], victim)
    ensures forall x :: x != victim && Kept(n, ops, x) ==>
              Kept(n, ops + [op], x) && LastUse(n, ops, victim).value < LastUse(n, ops, x).value
  {
    var s := After(n, ops);
    victim := s[0].key;
    AlwaysLawful(n, ops);
    SetOnFull(n, ops, op);
    HeldIffKept(n, ops, victim);
    HeldIffKept(n, ops + [op], victim);
    forall x | x != victim && Kept(n, ops, x)
      ensures Kept(n, ops + [op], x) && LastUse(n, ops, victim).value < LastUse(n, ops, x).value
    {
      HeldIffKept(n, ops, x);
      HeldIffKept(n, ops + [op], x);
      var i :| 0 <= i < |s| && s[i].key == x;
      assert s[1..][i - 1] == s[i];
      OrderOfUse(n, ops, 0, i);
    }
  }
}
