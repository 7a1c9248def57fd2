/**
  Timeouts for the calls of one agent turn, from a shared budget and each tool's observed
  latency. Times are real seconds.
*/
module Atba {
  import opened Errors
  import opened Sorting

  datatype Budget = Budget(total: real, startedAt: real, callsMade: nat, spent: real)

  const SAFETY_FACTOR := 1.5
  const MIN_CALL_TIMEOUT_S := 0.5
  const EXPECTED_CALLS_PER_TURN := 5
  const DEFAULT_P95_S := 5.0
  const WINDOW := 500

  function Max(a: real, b: real): real {
    if a >= b then a else b
  }

  function Min(a: real, b: real): real {
    if a <= b then a else b
  }

  function Remaining(b: Budget, now: real): real {
    Max(0.0, b.total - (now - b.startedAt))
  }

  function CallsLeft(callsMade: nat): nat {
    if callsMade < EXPECTED_CALLS_PER_TURN then EXPECTED_CALLS_PER_TURN - callsMade else 1
  }

  function CallTimeout(budget: Option<Budget>, p95: real, now: real): real {
    var target := p95 * SAFETY_FACTOR;
    match budget
    case None => Max(MIN_CALL_TIMEOUT_S, target)
    case Some(b) => Max(MIN_CALL_TIMEOUT_S, Min(target, Remaining(b, now) / CallsLeft(b.callsMade) as real))
  }

  // ---------------------------------------------------------------------------------
  // Latency
  // ---------------------------------------------------------------------------------

  const IDENTITY: real -> real := x => x

  /** The 95th percentile of at least twenty samples, or the default. */
  function P95(samples: seq<real>, default: real): real {
    if |samples| < 20 then default
    else
      SortSorts(samples, IDENTITY);
      assert |SortBy(samples, IDENTITY)| == |multiset(SortBy(samples, IDENTITY))| == |samples|;
      SortBy(samples, IDENTITY)[|samples| * 95 / 100]
  }

  /** It is a sample; at least 95 % of the samples are no larger, at most 95 % are smaller. */
  lemma P95IsPercentile(samples: seq<real>, default: real)
    requires |samples| >= 20
    ensures var p := P95(samples, default);
            && p in samples
            && Count(samples, AtMost(p)) * 100 >= |samples| * 95
            && Count(samples, Below(p)) * 100 <= |samples| * 95
  {
    var s := SortBy(samples, IDENTITY);
    var i := |samples| * 95 / 100;
    SortSorts(samples, IDENTITY);
    assert |s| == |multiset(s)| == |samples|;
    assert s[i] in multiset(samples);
    SortedRank(s, i);
    CountSort(samples, IDENTITY, AtMost(s[i]));
    CountSort(samples, IDENTITY, Below(s[i]));
  }

  function AtMost(p: real): real -> bool {
    x => x <= p
  }

  function Below(p: real): real -> bool {
    x => x < p
  }

  lemma SortedRank(s: seq<real>, i: nat)
    requires i < |s| && Ascending(s, IDENTITY)
    ensures Count(s, AtMost(s[i])) >= i + 1 && Count(s, Below(s[i])) <= i
  {
    forall j | 0 <= j < i + 1 ensures AtMost(s[i])(s[j]) {
      assert j < i ==> IDENTITY(s[j]) <= IDENTITY(s[i]);
    }
    forall j | i <= j < |s| ensures !Below(s[i])(s[j]) {
      assert j > i ==> IDENTITY(s[i]) <= IDENTITY(s[j]);
    }
    CountPrefix(s, i + 1, AtMost(s[i]));
    CountSuffix(s, i, Below(s[i]));
  }

  /** A level reaches the percentile if and only if more samples than its position are within it. */
  lemma P95Within(samples: seq<real>, default: real, level: real)
    requires |samples| >= 20
    ensures P95(samples, default) <= level <==> Count(samples, AtMost(level)) > |samples| * 95 / 100
    ensures P95(samples, default) < level <==> Count(samples, Below(level)) > |samples| * 95 / 100
  {
    var s := SortBy(samples, IDENTITY);
    var i := |samples| * 95 / 100;
    SortSorts(samples, IDENTITY);
    assert |s| == |multiset(s)| == |samples|;
    CountSort(samples, IDENTITY, AtMost(level));
    CountSort(samples, IDENTITY, Below(level));
    SortedWithin(s, i, level, AtMost(level));
    SortedWithin(s, i, level, Below(level));
  }

  /** A downward closed property holds at a position of a sorted sequence if and only if it holds
      of more elements than come before it. */
  lemma SortedWithin(s: seq<real>, i: nat, level: real, p: real -> bool)
    requires i < |s| && Ascending(s, IDENTITY) && forall x, y :: x <= y && p(y) ==> p(x)
    ensures p(s[i]) <==> Count(s, p) > i
  {
    if p(s[i]) {
      forall j | 0 <= j < i + 1 ensures p(s[j]) {
        assert j < i ==> IDENTITY(s[j]) <= IDENTITY(s[i]);
      }
      CountPrefix(s, i + 1, p);
    } else {
      forall j | i <= j < |s| ensures !p(s[j]) {
        assert j > i ==> IDENTITY(s[i]) <= IDENTITY(s[j]);
      }
      CountSuffix(s, i, p);
    }
  }

  /** Without a budget, the timeout stays within a cap if and only if the cap covers the minimum
      and, with fewer than twenty samples, the default's 7.5 s; else more samples than the 95 %
      position lie within the cap over the safety factor. */
  lemma TimeoutWithin(samples: seq<real>, now: real, cap: real)
    ensures CallTimeout(None, P95(samples, DEFAULT_P95_S), now) <= cap <==>
            && cap >= MIN_CALL_TIMEOUT_S
            && if |samples| < 20 then cap >= DEFAULT_P95_S * SAFETY_FACTOR
               else Count(samples, AtMost(cap / SAFETY_FACTOR)) > |samples| * 95 / 100
    ensures CallTimeout(None, P95(samples, DEFAULT_P95_S), now) < cap <==>
            && cap > MIN_CALL_TIMEOUT_S
            && if |samples| < 20 then cap > DEFAULT_P95_S * SAFETY_FACTOR
               else Count(samples, Below(cap / SAFETY_FACTOR)) > |samples| * 95 / 100
  {
    if |samples| >= 20 {
      P95Within(samples, DEFAULT_P95_S, cap / SAFETY_FACTOR);
    }
  }

  /** Within a turn, the timeout stays within a cap if and only if the cap covers the minimum and,
      besides, either the tool's own target or an equal share of what is left of the budget for
      each of the five calls still expected, at least one. */
  lemma BudgetTimeoutWithin(b: Budget, p95: real, now: real, cap: real)
    ensures CallTimeout(Some(b), p95, now) <= cap <==>
            && cap >= MIN_CALL_TIMEOUT_S
            && (p95 * SAFETY_FACTOR <= cap
                || b.total - (now - b.startedAt)
                   <= cap * (if b.callsMade <= 4 then (5 - b.callsMade) as real else 1.0))
  {
    var left := CallsLeft(b.callsMade) as real;
    ShareFits(Remaining(b, now), left, cap);
    if b.total - (now - b.startedAt) < 0.0 && cap >= MIN_CALL_TIMEOUT_S {
      TimesNotNegative(cap, left);
    }
  }

  lemma ShareFits(x: real, n: real, cap: real)
    requires n > 0.0
    ensures x / n <= cap <==> x <= cap * n
  {
    assert x == x / n * n;
    if x / n <= cap {
      TimesMonotone(x / n, cap, n);
    } else {
      TimesStrict(cap, x / n, n);
    }
  }

  lemma TimesMonotone(a: real, b: real, n: real)
    requires a <= b && n > 0.0
    ensures a * n <= b * n
  {
  }

  lemma TimesStrict(a: real, b: real, n: real)
    requires a < b && n > 0.0
    ensures a * n < b * n
  {
  }

  lemma TimesNotNegative(a: real, b: real)
    requires a >= 0.0 && b >= 0.0
    ensures a * b >= 0.0
  {
  }

  /** A bounded deque: the oldest sample goes when the window is full. */
  function Recorded(samples: seq<real>, duration: real, window: nat): seq<real> {
    if |samples| < window then samples + [duration] else (samples + [duration])[1..]
  }

  class LatencyTracker {
    const window: nat
    var samples: map<string, seq<real>>

    constructor (window: nat)
      ensures this.window == window && samples == map[]
    {
      this.window := window;
      samples := map[];
    }

    function Of(tool: string): seq<real>
      reads this
    {
      if tool in samples then samples[tool] else []
    }

    method Record(tool: string, duration: real)
      modifies this
      ensures samples == old(samples)[tool := Recorded(old(Of(tool)), duration, window)]
    {
      var s := Of(tool) + [duration];
      samples := samples[tool := if |s| <= window then s else s[1..]];
    }
  }

  /** The budget of one turn, held by whoever began it. */
  class BudgetContext {
    const total: real
    const startedAt: real
    var callsMade: nat
    var spent: real

    ghost function Value(): Budget
      reads this
    {
      Budget(total, startedAt, callsMade, spent)
    }

    constructor (total: real, startedAt: real)
      ensures Value() == Budget(total, startedAt, 0, 0.0)
    {
      this.total, this.startedAt := total, startedAt;
      callsMade, spent := 0, 0.0;
    }
  }

  /** What the calling task's context variable holds. */
  ghost function BudgetOf(ctx: BudgetContext?): Option<Budget>
    reads ctx
  {
    if ctx == null then None else Some(ctx.Value())
  }

  /** The context variable belongs to the calling task, so it is an argument here. */
  class ATBA {
    const totalBudget: real
    const tracker: LatencyTracker

    constructor (totalBudgetMs: int)
      ensures totalBudget == totalBudgetMs as real / 1000.0
      ensures fresh(tracker) && tracker.samples == map[] && tracker.window == WINDOW
    {
      totalBudget := totalBudgetMs as real / 1000.0;
      tracker := new LatencyTracker(WINDOW);
    }

    /** The caller's context variable becomes the result. */
    method Begin(now: real) returns (ctx: BudgetContext)
      ensures fresh(ctx) && ctx.Value() == Budget(totalBudget, now, 0, 0.0)
    {
      ctx := new BudgetContext(totalBudget, now);
    }

    method TimeoutFor(ctx: BudgetContext?, tool: string, now: real) returns (timeout: real)
      ensures timeout == CallTimeout(BudgetOf(ctx), P95(tracker.Of(tool), DEFAULT_P95_S), now)
    {
      var target := P95(tracker.Of(tool), DEFAULT_P95_S) * SAFETY_FACTOR;
      if ctx == null {
        return Max(MIN_CALL_TIMEOUT_S, target);
      }
      var callsLeft := if EXPECTED_CALLS_PER_TURN - ctx.callsMade > 1
                       then EXPECTED_CALLS_PER_TURN - ctx.callsMade else 1;
      var fairShare := Max(0.0, ctx.total - (now - ctx.startedAt)) / callsLeft as real;
      return Max(MIN_CALL_TIMEOUT_S, Min(target, fairShare));
    }

    /** `call_with_budget` up to the awaited call. */
    method BeginCall(ctx: BudgetContext?, tool: string, now: real) returns (timeout: real)
      modifies if ctx == null then {} else {ctx}
      ensures timeout == CallTimeout(old(BudgetOf(ctx)), P95(tracker.Of(tool), DEFAULT_P95_S), now)
      ensures ctx != null ==> ctx.Value() == old(ctx.Value()).(callsMade := old(ctx.callsMade) + 1)
    {
      timeout := TimeoutFor(ctx, tool, now);
      if ctx != null {
        ctx.callsMade := ctx.callsMade + 1;
      }
    }

    /** `call_with_budget` after the awaited call ended or was cut: `ctx` is the budget it found
        when it began, whatever the task's context variable holds by now. */
    method EndCall(ctx: BudgetContext?, tool: string, started: real, now: real)
      modifies tracker, if ctx == null then {} else {ctx}
      ensures ctx != null ==> ctx.Value() == old(ctx.Value()).(spent := old(ctx.spent) + (now - started))
      ensures tracker.samples ==
              old(tracker.samples)[tool := Recorded(old(tracker.Of(tool)), now - started, tracker.window)]
    {
      tracker.Record(tool, now - started);
      if ctx != null {
        ctx.spent := ctx.spent + (now - started);
      }
    }
  }

  // ---------------------------------------------------------------------------------
  // Back-to-back calls of one turn
  // ---------------------------------------------------------------------------------

  /** One call: the p95 its tool has at that moment, and how long it ran. */
  datatype Timed = Timed(p95: real, duration: real)

  function Elapsed(calls: seq<Timed>): real {
    if calls == [] then 0.0 else Elapsed(calls[..|calls| - 1]) + calls[|calls| - 1].duration
  }

  /** What call i of a turn begun at 0 is allotted, when the calls before it ran back to back. */
  function Allotted(total: real, before: seq<Timed>, p95: real): real {
    CallTimeout(Some(Budget(total, 0.0, |before|, Elapsed(before))), p95, Elapsed(before))
  }

  /** Each call is cut at its allotted timeout. */
  ghost predicate Cut(total: real, calls: seq<Timed>) {
    calls == [] ||
    var before, last := calls[..|calls| - 1], calls[|calls| - 1];
    Cut(total, before) && 0.0 <= last.duration <= Allotted(total, before, last.p95)
  }

  lemma FairShare(remaining: real, callsMade: nat)
    requires callsMade < EXPECTED_CALLS_PER_TURN
    requires remaining >= MIN_CALL_TIMEOUT_S * (EXPECTED_CALLS_PER_TURN - callsMade) as real
    ensures var share := remaining / CallsLeft(callsMade) as real;
            && MIN_CALL_TIMEOUT_S <= share
            && remaining - share >= MIN_CALL_TIMEOUT_S * (EXPECTED_CALLS_PER_TURN - callsMade - 1) as real
  {
  }

  /** The first five calls always leave the minimum for each call still expected. */
  lemma {:induction false} KeepsMinimum(total: real, calls: seq<Timed>)
    requires total >= MIN_CALL_TIMEOUT_S * EXPECTED_CALLS_PER_TURN as real
    requires |calls| <= EXPECTED_CALLS_PER_TURN && Cut(total, calls)
    ensures total - Elapsed(calls) >= MIN_CALL_TIMEOUT_S * (EXPECTED_CALLS_PER_TURN - |calls|) as real
  {
    if calls != [] {
      var before := calls[..|calls| - 1];
      KeepsMinimum(total, before);
      FairShare(total - Elapsed(before), |before|);
    }
  }

  /** n calls taking the minimum timeout each. */
  function Minimal(n: nat): seq<Timed> {
    if n == 0 then [] else Minimal(n - 1) + [Timed(0.0, MIN_CALL_TIMEOUT_S)]
  }

  lemma {:induction false} MinimalCut(total: real, n: nat)
    ensures |Minimal(n)| == n && Cut(total, Minimal(n)) && Elapsed(Minimal(n)) == n as real * MIN_CALL_TIMEOUT_S
  {
    if n > 0 {
      MinimalCut(total, n - 1);
      assert Minimal(n)[..n - 1] == Minimal(n - 1);
    }
  }

  /** The first five back-to-back calls, each cut at its allotted timeout, always finish within
      the budget if and only if the budget covers five minimum timeouts. */
  lemma FiveCallsFit(total: real)
    ensures (forall calls :: |calls| <= EXPECTED_CALLS_PER_TURN && Cut(total, calls) ==> Elapsed(calls) <= total)
            <==> total >= MIN_CALL_TIMEOUT_S * EXPECTED_CALLS_PER_TURN as real
  {
    if total >= MIN_CALL_TIMEOUT_S * EXPECTED_CALLS_PER_TURN as real {
      forall calls | |calls| <= EXPECTED_CALLS_PER_TURN && Cut(total, calls) ensures Elapsed(calls) <= total {
        KeepsMinimum(total, calls);
      }
    } else {
      MinimalCut(total, EXPECTED_CALLS_PER_TURN);
    }
  }

  lemma ShareWithin(remaining: real, n: nat)
    requires remaining >= 0.0 && n > 0
    ensures remaining / n as real <= remaining
  {
  }

  /** Any number of calls overruns the budget by at most one minimum timeout per call, and once
      the budget covers the first five, only the calls beyond them can overrun. */
  lemma {:induction false} OverrunBound(total: real, calls: seq<Timed>)
    requires total >= 0.0 && Cut(total, calls)
    ensures Elapsed(calls) <= total + |calls| as real * MIN_CALL_TIMEOUT_S
    ensures total >= MIN_CALL_TIMEOUT_S * EXPECTED_CALLS_PER_TURN as real && |calls| >= EXPECTED_CALLS_PER_TURN
            ==> Elapsed(calls) <= total + (|calls| - EXPECTED_CALLS_PER_TURN) as real * MIN_CALL_TIMEOUT_S
  {
    if calls != [] {
      var before := calls[..|calls| - 1];
      OverrunBound(total, before);
      ShareWithin(Remaining(Budget(total, 0.0, |before|, Elapsed(before)), Elapsed(before)), CallsLeft(|before|));
      if |calls| == EXPECTED_CALLS_PER_TURN && total >= MIN_CALL_TIMEOUT_S * EXPECTED_CALLS_PER_TURN as real {
        KeepsMinimum(total, calls);
      }
    }
  }

  // ---------------------------------------------------------------------------------
  // A tool that never answers
  // ---------------------------------------------------------------------------------

  /** What the tracker holds after n calls outside any turn, each cut at its allotted timeout. */
  function Hung(n: nat): seq<real>
    decreases n, 0
  {
    if n == 0 then [] else Recorded(Hung(n - 1), HungTimeout(n - 1), WINDOW)
  }

  /** What the next call is allotted. */
  function HungTimeout(n: nat): real
    decreases n, 1
  {
    CallTimeout(None, P95(Hung(n), DEFAULT_P95_S), 0.0)
  }

  function Level(k: nat): real {
    if k == 0 then DEFAULT_P95_S * SAFETY_FACTOR else Level(k - 1) * SAFETY_FACTOR
  }

  lemma {:induction false} LevelGrows(k: nat)
    ensures Level(k) >= DEFAULT_P95_S * SAFETY_FACTOR + k as real
  {
    if k > 0 {
      LevelGrows(k - 1);
    }
  }

  lemma {:induction false} HungLength(n: nat)
    ensures |Hung(n)| == if n <= WINDOW then n else WINDOW
  {
    if n > 0 {
      HungLength(n - 1);
    }
  }

  /** The last m samples are at least `level`. */
  ghost predicate TailAtLeast(samples: seq<real>, m: nat, level: real) {
    forall i :: 0 <= i < |samples| && i + m >= |samples| ==> samples[i] >= level
  }

  /** Once every sample is at least a level, every later timeout is that level with the safety factor. */
  lemma AllottedAbove(n: nat, k: nat)
    requires n >= 20 && TailAtLeast(Hung(n), WINDOW, Level(k))
    ensures HungTimeout(n) >= Level(k + 1)
  {
    HungLength(n);
    P95IsPercentile(Hung(n), DEFAULT_P95_S);
    LevelGrows(k);
  }

  lemma {:induction false} FirstLevel(n: nat)
    ensures TailAtLeast(Hung(n), WINDOW, Level(0)) && HungTimeout(n) >= Level(0)
  {
    HungLength(n);
    if n > 0 {
      FirstLevel(n - 1);
      HungLength(n - 1);
    }
    if n >= 20 {
      AllottedAbove(n, 0);
    }
  }

  /** Each window of calls lifts the samples by one level. */
  lemma {:induction false} NextLevel(n: nat, m: nat, k: nat)
    requires n >= 20 && forall j :: j >= n ==> TailAtLeast(Hung(j), WINDOW, Level(k))
    ensures TailAtLeast(Hung(n + m), m, Level(k + 1))
  {
    if m > 0 {
      NextLevel(n, m - 1, k);
      AllottedAbove(n + m - 1, k);
      HungLength(n + m - 1);
    }
  }

  lemma {:induction false} LevelReached(k: nat, n: nat)
    requires n >= 20 + k * WINDOW
    ensures TailAtLeast(Hung(n), WINDOW, Level(k))
  {
    if k == 0 {
      FirstLevel(n);
    } else {
      var from := 20 + (k - 1) * WINDOW;
      forall j | j >= from ensures TailAtLeast(Hung(j), WINDOW, Level(k - 1)) {
        LevelReached(k - 1, j);
      }
      NextLevel(from, n - from, k - 1);
    }
  }

  /** Outside a turn nothing caps the timeout: a tool that never answers is allotted more than
      any bound after enough calls, and from then on. */
  lemma TimeoutsRatchet(bound: real) returns (enough: nat)
    ensures forall n :: n >= enough ==> HungTimeout(n) > bound
  {
    var k: nat := if bound < 0.0 then 0 else bound.Floor + 1;
    enough := 20 + k * WINDOW;
    forall n | n >= enough ensures HungTimeout(n) > bound {
      LevelReached(k, n);
      AllottedAbove(n, k);
      LevelGrows(k + 1);
    }
  }

  /** Within a turn no call is allotted more than the larger of the minimum and what remains. */
  lemma BudgetCaps(b: Budget, p95: real, now: real)
    requires now >= b.startedAt
    ensures MIN_CALL_TIMEOUT_S <= CallTimeout(Some(b), p95, now) <= Max(MIN_CALL_TIMEOUT_S, Remaining(b, now))
  {
    ShareWithin(Remaining(b, now), CallsLeft(b.callsMade));
  }
}
