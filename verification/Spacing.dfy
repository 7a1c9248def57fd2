/**
  How many events can happen in a stretch of time when they keep a distance.
*/
module Spacing {

  /** How many of the indices a..b-1 are hits. */
  function Count(hit: nat -> bool, a: nat, b: nat): nat
    requires a <= b
    decreases b - a
  {
    if a == b then 0 else Count(hit, a, b - 1) + if hit(b - 1) then 1 else 0
  }

  lemma {:induction false} LastHit(hit: nat -> bool, a: nat, b: nat) returns (j: nat)
    requires a <= b && Count(hit, a, b) > 0
    ensures a <= j < b && hit(j) && Count(hit, a, b) == Count(hit, a, j) + 1
    decreases b
  {
    if hit(b - 1) {
      j := b - 1;
    } else {
      j := LastHit(hit, a, b - 1);
    }
  }

  ghost predicate Sorted(at: nat -> real, a: nat, b: nat) {
    forall j, k :: a <= j <= k < b ==> at(j) <= at(k)
  }

  /** Hits are `gap` apart. */
  ghost predicate Spaced(hit: nat -> bool, at: nat -> real, gap: real, a: nat, b: nat) {
    forall j, k :: a <= j < k < b && hit(j) && hit(k) ==> at(k) >= at(j) + gap
  }

  /** n gaps, by repeated addition. */
  function Spans(n: nat, gap: real): real {
    if n == 0 then 0.0 else Spans(n - 1, gap) + gap
  }

  lemma {:induction false} SpansIsProduct(n: nat, gap: real)
    ensures Spans(n, gap) == n as real * gap
  {
    if n > 0 {
      SpansIsProduct(n - 1, gap);
    }
  }

  /** n hits span at least n - 1 gaps. */
  lemma {:induction false} SpacedSpan(hit: nat -> bool, at: nat -> real, gap: real, a: nat, b: nat)
    requires a < b && Sorted(at, a, b) && Spaced(hit, at, gap, a, b) && Count(hit, a, b) > 0
    ensures Spans(Count(hit, a, b) - 1, gap) <= at(b - 1) - at(a)
    decreases b
  {
    var k := LastHit(hit, a, b);
    if Count(hit, a, k) > 0 {
      var j := LastHit(hit, a, k);
      assert Count(hit, a, j + 1) == Count(hit, a, k);
      SpacedSpan(hit, at, gap, a, j + 1);
    }
  }

  lemma FloorBound(m: nat, gap: real, span: real)
    requires gap > 0.0 && m as real * gap <= span
    ensures m <= (span / gap).Floor
  {
    assert m as real <= span / gap;
  }

  /** At most one hit more than there are whole gaps in the stretch. */
  lemma SpacedLoad(hit: nat -> bool, at: nat -> real, gap: real, a: nat, b: nat)
    requires a < b && Sorted(at, a, b) && Spaced(hit, at, gap, a, b) && gap > 0.0
    ensures Count(hit, a, b) <= ((at(b - 1) - at(a)) / gap).Floor + 1
  {
    var n := Count(hit, a, b);
    if n > 0 {
      SpacedSpan(hit, at, gap, a, b);
    }
    var m: nat := if n > 0 then n - 1 else 0;
    SpansIsProduct(m, gap);
    FloorBound(m, gap, at(b - 1) - at(a));
  }

  lemma OneMore(k: nat, n: nat)
    ensures k * (n + 1) == k * n + k
  {
  }

  /** At most k more, and only by a hit. */
  predicate GrowsAt(hit: nat -> bool, total: nat -> nat, k: nat, n: nat) {
    total(n + 1) <= total(n) + if hit(n) then k else 0
  }

  lemma {:induction false} GrowsByHits(hit: nat -> bool, total: nat -> nat, k: nat, a: nat, b: nat)
    requires a <= b
    requires forall n :: a <= n < b ==> GrowsAt(hit, total, k, n)
    ensures total(b) <= total(a) + k * Count(hit, a, b)
    decreases b
  {
    if a < b {
      GrowsByHits(hit, total, k, a, b - 1);
      assert GrowsAt(hit, total, k, b - 1);
      OneMore(k, Count(hit, a, b - 1));
    }
  }
}
