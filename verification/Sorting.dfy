/** Python's stable sort by key, lowest key first, as insertion into a sorted sequence. */
module Sorting {

  ghost predicate Ascending<T>(s: seq<T>, key: T -> real) {
    forall i, j :: 0 <= i < j < |s| ==> key(s[i]) <= key(s[j])
  }

  function Insert<T>(s: seq<T>, x: T, key: T -> real): seq<T> {
    if s == [] then [x]
    else if key(s[0]) <= key(x) then [s[0]] + Insert(s[1..], x, key)
    else [x] + s
  }

  function SortBy<T>(s: seq<T>, key: T -> real): seq<T> {
    if s == [] then [] else Insert(SortBy(s[..|s| - 1], key), s[|s| - 1], key)
  }

  lemma {:induction false} InsertMembers<T>(s: seq<T>, x: T, key: T -> real)
    ensures multiset(Insert(s, x, key)) == multiset(s) + multiset{x}
  {
    if s != [] {
      assert s == [s[0]] + s[1..];
      InsertMembers(s[1..], x, key);
    }
  }

  lemma {:induction false} InsertSorts<T>(s: seq<T>, x: T, key: T -> real)
    requires Ascending(s, key)
    ensures Ascending(Insert(s, x, key), key)
  {
    if s != [] && key(s[0]) <= key(x) {
      InsertSorts(s[1..], x, key);
      InsertMembers(s[1..], x, key);
      var rest := Insert(s[1..], x, key);
      forall i | 0 <= i < |rest| ensures key(s[0]) <= key(rest[i]) {
        assert rest[i] in multiset(rest);
        assert rest[i] == x || rest[i] in s[1..];
      }
    }
  }

  /** The result is sorted and has the same elements. */
  lemma {:induction false} SortSorts<T>(s: seq<T>, key: T -> real)
    ensures Ascending(SortBy(s, key), key) && multiset(SortBy(s, key)) == multiset(s)
  {
    if s != [] {
      SortSorts(s[..|s| - 1], key);
      InsertSorts(SortBy(s[..|s| - 1], key), s[|s| - 1], key);
      InsertMembers(SortBy(s[..|s| - 1], key), s[|s| - 1], key);
      assert s == s[..|s| - 1] + [s[|s| - 1]];
    }
  }

  function Count<T>(s: seq<T>, p: T -> bool): nat {
    if s == [] then 0 else Count(s[..|s| - 1], p) + if p(s[|s| - 1]) then 1 else 0
  }

  lemma {:induction false} CountAppend<T>(a: seq<T>, b: seq<T>, p: T -> bool)
    ensures Count(a + b, p) == Count(a, p) + Count(b, p)
  {
    if b == [] {
      assert a + b == a;
    } else {
      CountAppend(a, b[..|b| - 1], p);
      assert (a + b)[..|a + b| - 1] == a + b[..|b| - 1];
    }
  }

  lemma {:induction false} CountInsert<T>(s: seq<T>, x: T, key: T -> real, p: T -> bool)
    ensures Count(Insert(s, x, key), p) == Count(s, p) + Count([x], p)
  {
    if s != [] {
      CountAppend([s[0]], s[1..], p);
      assert s == [s[0]] + s[1..];
      if key(s[0]) <= key(x) {
        CountInsert(s[1..], x, key, p);
        CountAppend([s[0]], Insert(s[1..], x, key), p);
      } else {
        CountAppend([x], s, p);
      }
    }
  }

  /** Sorting keeps how many elements have a property. */
  lemma {:induction false} CountSort<T>(s: seq<T>, key: T -> real, p: T -> bool)
    ensures Count(SortBy(s, key), p) == Count(s, p)
  {
    if s != [] {
      var init, last := s[..|s| - 1], s[|s| - 1];
      CountSort(init, key, p);
      CountInsert(SortBy(init, key), last, key, p);
      CountAppend(init, [last], p);
      assert s == init + [last];
    }
  }

  lemma {:induction false} CountPrefix<T>(s: seq<T>, i: nat, p: T -> bool)
    requires i <= |s| && forall j :: 0 <= j < i ==> p(s[j])
    ensures Count(s, p) >= i
  {
    if s != [] {
      CountPrefix(s[..|s| - 1], if i < |s| then i else i - 1, p);
    }
  }

  lemma {:induction false} CountSuffix<T>(s: seq<T>, i: nat, p: T -> bool)
    requires i <= |s| && forall j :: i <= j < |s| ==> !p(s[j])
    ensures Count(s, p) <= i
  {
    if s != [] {
      CountSuffix(s[..|s| - 1], if i < |s| then i else i - 1, p);
    }
  }
}
