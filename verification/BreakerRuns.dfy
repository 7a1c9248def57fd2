/**
  Every interleaving of calls through one circuit breaker.

  A run alternates states and events. An event is a call entering the breaker or a call
  in flight ending; times never go back. The state carries, beside the breaker, the calls
  in flight and two observations the theorems speak of: the counted failures since the
  breaker last closed, and the time of the latest entry. Neither influences a step.
*/
module BreakerRuns {
  import opened Errors
  import opened CircuitBreaker
  import Spacing

  datatype Call = Call(start: real, probe: bool)

  datatype Event =
    | Enter(id: nat, at: real)
    | Finish(id: nat, at: real, outcome: Outcome<()>)

  datatype System = System(b: Breaker, clock: real, calls: map<nat, Call>, log: seq<real>, lastEntry: Option<real>)

  predicate Enabled(s: System, e: Event) {
    e.at >= s.clock && (if e.Enter? then e.id !in s.calls else e.id in s.calls)
  }

  /** A call ends in a failure of its upstream that is worth a retry. */
  predicate Fails(e: Event) {
    e.Finish? && e.outcome.Raised? && e.outcome.error.kind.Upstream? && e.outcome.error.retryable
  }

  function Next(cfg: Config, s: System, e: Event): System
    requires Enabled(s, e)
  {
    match e
    case Enter(id, at) =>
      var (b, admission) := Entered(cfg, s.b, at);
      System(b, at, if admission.Rejected? then s.calls else s.calls[id := Call(at, admission.AsProbe?)],
             s.log, Some(at))
    case Finish(id, at, outcome) =>
      var b := Finished(cfg, s.b, s.calls[id].probe, outcome, at);
      var log := if s.b.phase.HalfOpen? && b.phase.Closed? then []
                 else if Fails(e) then s.log + [at]
                 else s.log;
      System(b, at, s.calls - {id}, log, s.lastEntry)
  }

  ghost predicate IsRun(cfg: Config, ss: seq<System>, es: seq<Event>) {
    && |ss| == |es| + 1
    && ss[0] == System(NEW_BREAKER, ss[0].clock, map[], [], None)
    && forall i {:trigger es[i]} :: 0 <= i < |es| ==> Enabled(ss[i], es[i]) && ss[i + 1] == Next(cfg, ss[i], es[i])
  }

  /** A function starts at event i. */
  predicate Starts(ss: seq<System>, es: seq<Event>, i: nat)
    requires |ss| == |es| + 1 && i < |es|
  {
    es[i].Enter? && es[i].id in ss[i + 1].calls
  }

  /** Event i opens the breaker or re-arms it while open. */
  predicate Trips(ss: seq<System>, i: nat)
    requires i + 1 < |ss|
  {
    ss[i + 1].b.trips > ss[i].b.trips
  }

  lemma {:induction false} ClockMonotone(cfg: Config, ss: seq<System>, es: seq<Event>, i: nat, j: nat)
    requires IsRun(cfg, ss, es) && i <= j < |ss|
    ensures ss[i].clock <= ss[j].clock
  {
    if i < j {
      ClockMonotone(cfg, ss, es, i, j - 1);
      assert Enabled(ss[j - 1], es[j - 1]);
    }
  }

  // ---------------------------------------------------------------------------------
  // Probe exclusivity
  // ---------------------------------------------------------------------------------

  /** The flag is up exactly when a probe is in flight, and then the breaker is half-open
      and nothing else is in flight. */
  ghost predicate Exclusive(s: System) {
    && (s.b.probe <==> exists id :: id in s.calls && s.calls[id].probe)
    && (s.b.probe ==> s.b.phase.HalfOpen? && |s.calls| == 1)
  }

  predicate HalfOpens(cfg: Config, s: System, e: Event) {
    e.Enter? && RecoveryElapsed(cfg, s.b, e.at)
  }

  /** Whenever the breaker half-opens, no earlier call is still in flight. */
  ghost predicate Drained(cfg: Config, ss: seq<System>, es: seq<Event>)
    requires |ss| == |es| + 1
  {
    forall i {:trigger es[i]} :: 0 <= i < |es| && HalfOpens(cfg, ss[i], es[i]) ==> ss[i].calls == map[]
  }

  /** At every event, each call in flight has lasted less than the recovery time. */
  ghost predicate ShortCalls(cfg: Config, ss: seq<System>, es: seq<Event>)
    requires |ss| == |es| + 1
  {
    forall i, id {:trigger es[i], ss[i].calls[id]} ::
      0 <= i < |es| && id in ss[i].calls ==> es[i].at - ss[i].calls[id].start < cfg.recovery
  }

  /** What a drained run keeps: outside HalfOpen only ordinary calls are in flight. */
  ghost predicate Settled(s: System) {
    match s.b.phase
    case HalfOpen =>
      if s.b.probe then exists id :: s.calls.Keys == {id} && s.calls[id].probe else s.calls == map[]
    case _ => !s.b.probe && forall id :: id in s.calls ==> !s.calls[id].probe
  }

  lemma SettledStep(cfg: Config, s: System, e: Event)
    requires Enabled(s, e) && Settled(s)
    requires HalfOpens(cfg, s, e) ==> s.calls == map[]
    ensures Settled(Next(cfg, s, e))
  {
  }

  lemma SettledIsExclusive(s: System)
    requires Settled(s)
    ensures Exclusive(s)
  {
  }

  lemma {:induction false} DrainedSettles(cfg: Config, ss: seq<System>, es: seq<Event>, n: nat)
    requires IsRun(cfg, ss, es) && Drained(cfg, ss, es) && n <= |es|
    ensures Settled(ss[n])
  {
    if n > 0 {
      DrainedSettles(cfg, ss, es, n - 1);
      assert Enabled(ss[n - 1], es[n - 1]);
      SettledStep(cfg, ss[n - 1], es[n - 1]);
    }
  }

  /** Probes are exclusive throughout a run if and only if the breaker only ever half-opens
      with nothing in flight. */
  lemma ExclusiveIffDrained(cfg: Config, ss: seq<System>, es: seq<Event>)
    requires IsRun(cfg, ss, es)
    ensures (forall n :: 0 <= n <= |es| ==> Exclusive(ss[n])) <==> Drained(cfg, ss, es)
  {
    if Drained(cfg, ss, es) {
      forall n | 0 <= n <= |es| ensures Exclusive(ss[n]) {
        DrainedSettles(cfg, ss, es, n);
        SettledIsExclusive(ss[n]);
      }
    } else {
      var i :| 0 <= i < |es| && HalfOpens(cfg, ss[i], es[i]) && ss[i].calls != map[];
      assert Enabled(ss[i], es[i]) && ss[i + 1] == Next(cfg, ss[i], es[i]);
      assert ss[i + 1].calls.Keys == ss[i].calls.Keys + {es[i].id};
      assert |ss[i].calls.Keys| > 0;
      assert !Exclusive(ss[i + 1]);
    }
  }

  /** Unconditional: while open, everything in flight was admitted before the breaker opened. */
  lemma {:induction false} OpenAdmitsNothing(cfg: Config, ss: seq<System>, es: seq<Event>, n: nat, id: nat)
    requires IsRun(cfg, ss, es) && n <= |es| && id in ss[n].calls
    ensures ss[n].calls[id].start <= ss[n].clock
    ensures ss[n].b.phase.Open? ==> ss[n].calls[id].start <= ss[n].b.openedAt
  {
    if n > 0 {
      assert Enabled(ss[n - 1], es[n - 1]);
      if id in ss[n - 1].calls {
        OpenAdmitsNothing(cfg, ss, es, n - 1, id);
      }
    }
  }

  /** If every call lasts less than the recovery time, then in every interleaving the probe
      is exclusive. */
  lemma ShortCallsExclusive(cfg: Config, ss: seq<System>, es: seq<Event>, n: nat)
    requires IsRun(cfg, ss, es) && ShortCalls(cfg, ss, es) && n <= |es|
    ensures Drained(cfg, ss, es)
    ensures Exclusive(ss[n])
  {
    forall i | 0 <= i < |es| && HalfOpens(cfg, ss[i], es[i])
      ensures ss[i].calls == map[]
    {
      if id :| id in ss[i].calls {
        OpenAdmitsNothing(cfg, ss, es, i, id);
        assert false;
      }
    }
    ExclusiveIffDrained(cfg, ss, es);
  }

  const TRANSIENT: Outcome<()> := Raised(ToolError(Upstream, "transient", true))

  /** The bound is tight: calls lasting exactly the recovery time let two probes overlap. */
  lemma ProbesOverlapAtTheBound(recovery: real, window: real) returns (cfg: Config, ss: seq<System>, es: seq<Event>)
    requires recovery > 0.0
    ensures cfg == Config(1, recovery, window) && IsRun(cfg, ss, es)
    ensures forall i, id {:trigger es[i], ss[i].calls[id]} ::
              0 <= i < |es| && id in ss[i].calls ==> es[i].at - ss[i].calls[id].start <= recovery
    ensures exists p, q :: p != q && {p, q} <= ss[|es|].calls.Keys && ss[|es|].calls[p].probe && ss[|es|].calls[q].probe
  {
    cfg := Config(1, recovery, window);
    es := [Enter(0, 0.0), Enter(1, 0.0), Finish(0, 0.0, TRANSIENT),
           Enter(2, recovery), Finish(1, recovery, TRANSIENT), Enter(3, 2.0 * recovery)];
    var s0 := System(NEW_BREAKER, 0.0, map[], [], None);
    var s1 := Next(cfg, s0, es[0]);
    var s2 := Next(cfg, s1, es[1]);
    var s3 := Next(cfg, s2, es[2]);
    assert s3.b == Breaker(Open, 0.0, [], false, 1);
    var s4 := Next(cfg, s3, es[3]);
    assert s4.b == Breaker(HalfOpen, 0.0, [], true, 1);
    var s5 := Next(cfg, s4, es[4]);
    assert s5.b == Breaker(Open, recovery, [], true, 2);
    var s6 := Next(cfg, s5, es[5]);
    ss := [s0, s1, s2, s3, s4, s5, s6];
    assert s6.calls == map[2 := Call(recovery, true), 3 := Call(2.0 * recovery, true)];
    assert 2 != 3 && {2, 3} <= ss[|es|].calls.Keys;
  }

  // ---------------------------------------------------------------------------------
  // Load on a backend in an outage
  // ---------------------------------------------------------------------------------

  ghost predicate ArmedSince(cfg: Config, s: System, t: real) {
    (s.b.phase.Open? && s.b.openedAt >= t) || s.clock >= t + cfg.recovery
  }

  lemma {:induction false} StaysArmed(cfg: Config, ss: seq<System>, es: seq<Event>, i: nat, j: nat)
    requires IsRun(cfg, ss, es) && i < j <= |es| && Trips(ss, i)
    ensures ArmedSince(cfg, ss[j], es[i].at)
  {
    assert Enabled(ss[j - 1], es[j - 1]);
    if j > i + 1 {
      StaysArmed(cfg, ss, es, i, j - 1);
      ClockMonotone(cfg, ss, es, i + 1, j - 1);
    }
    assert Enabled(ss[i], es[i]);
  }

  /** No function starts within the recovery time of a trip, whatever the calls do. */
  lemma NoStartDuringRecovery(cfg: Config, ss: seq<System>, es: seq<Event>, i: nat, j: nat)
    requires IsRun(cfg, ss, es) && i < j < |es| && Trips(ss, i) && Starts(ss, es, j)
    ensures es[j].at >= es[i].at + cfg.recovery
  {
    StaysArmed(cfg, ss, es, i, j);
    assert Enabled(ss[j], es[j]);
  }

  /** From event i on, every probe that ends, ends in a counted failure. */
  ghost predicate ProbesFailFrom(ss: seq<System>, es: seq<Event>, i: nat)
    requires |ss| == |es| + 1
  {
    forall m {:trigger es[m]} :: i <= m < |es| && es[m].Finish? && es[m].id in ss[m].calls &&
                              ss[m].calls[es[m].id].probe
      ==> Fails(es[m])
  }

  /** Down since t: waiting for a probe, or re-opened no earlier than t. */
  ghost predicate DownSince(s: System, t: real) {
    (s.b.phase.HalfOpen? && s.b.probe) || (s.b.phase.Open? && s.b.openedAt >= t)
  }

  lemma {:induction false} StaysDown(cfg: Config, ss: seq<System>, es: seq<Event>, t: real, k: nat, j: nat)
    requires IsRun(cfg, ss, es) && Drained(cfg, ss, es) && ProbesFailFrom(ss, es, k)
    requires k <= j <= |es| && t <= ss[k].clock && DownSince(ss[k], t)
    ensures DownSince(ss[j], t)
  {
    if k < j {
      StaysDown(cfg, ss, es, t, k, j - 1);
      DrainedSettles(cfg, ss, es, j - 1);
      ClockMonotone(cfg, ss, es, k, j - 1);
      assert Enabled(ss[j - 1], es[j - 1]);
    }
  }

  /** Once tripped, if every probe fails and calls are short, starts are a recovery time apart. */
  lemma OutageSpacing(cfg: Config, ss: seq<System>, es: seq<Event>, i: nat, j: nat, k: nat)
    requires IsRun(cfg, ss, es) && ShortCalls(cfg, ss, es) && ProbesFailFrom(ss, es, i)
    requires i < j < k < |es| && Trips(ss, i) && Starts(ss, es, j) && Starts(ss, es, k)
    ensures es[k].at >= es[j].at + cfg.recovery
  {
    ShortCallsExclusive(cfg, ss, es, j);
    assert Enabled(ss[i], es[i]) && Enabled(ss[j], es[j]) && Enabled(ss[k], es[k]);
    StaysDown(cfg, ss, es, es[i].at, i + 1, j);
    StaysDown(cfg, ss, es, es[j].at, j + 1, k);
  }

  ghost function StartHits(ss: seq<System>, es: seq<Event>): nat -> bool
    requires |ss| == |es| + 1
  {
    (i: nat) => i < |es| && Starts(ss, es, i)
  }

  /** The number of function starts among events a..b. */
  ghost function StartCount(ss: seq<System>, es: seq<Event>, a: nat, b: nat): nat
    requires |ss| == |es| + 1 && a <= b
  {
    Spacing.Count(StartHits(ss, es), a, b)
  }

  lemma EventTimes(cfg: Config, ss: seq<System>, es: seq<Event>, i: nat, j: nat)
    requires IsRun(cfg, ss, es) && i <= j < |es|
    ensures es[i].at <= es[j].at
  {
    assert Enabled(ss[i], es[i]) && Enabled(ss[j], es[j]);
    ClockMonotone(cfg, ss, es, i + 1, j + 1);
  }

  function TimeOf(es: seq<Event>): nat -> real {
    (j: nat) => if j < |es| then es[j].at else 0.0
  }

  lemma TimesInOrder(cfg: Config, ss: seq<System>, es: seq<Event>, a: nat, b: nat)
    requires IsRun(cfg, ss, es) && b <= |es|
    ensures Spacing.Sorted(TimeOf(es), a, b)
  {
    forall j: nat, k: nat | a <= j <= k < b ensures TimeOf(es)(j) <= TimeOf(es)(k) {
      EventTimes(cfg, ss, es, j, k);
    }
  }

  lemma StartsSpaced(cfg: Config, ss: seq<System>, es: seq<Event>, i: nat, a: nat, b: nat)
    requires IsRun(cfg, ss, es) && ShortCalls(cfg, ss, es) && ProbesFailFrom(ss, es, i)
    requires i < a <= b <= |es| && Trips(ss, i)
    ensures Spacing.Spaced(StartHits(ss, es), TimeOf(es), cfg.recovery, a, b)
  {
    forall j: nat, k: nat | a <= j < k < b && StartHits(ss, es)(j) && StartHits(ss, es)(k)
      ensures TimeOf(es)(k) >= TimeOf(es)(j) + cfg.recovery
    {
      OutageSpacing(cfg, ss, es, i, j, k);
    }
  }

  /** At most floor(L / recovery) + 1 functions start among events spanning L seconds. */
  lemma OutageLoad(cfg: Config, ss: seq<System>, es: seq<Event>, i: nat, a: nat, b: nat)
    requires IsRun(cfg, ss, es) && ShortCalls(cfg, ss, es) && ProbesFailFrom(ss, es, i)
    requires i < a < b <= |es| && Trips(ss, i) && cfg.recovery > 0.0
    ensures StartCount(ss, es, a, b) <= ((es[b - 1].at - es[a].at) / cfg.recovery).Floor + 1
  {
    TimesInOrder(cfg, ss, es, a, b);
    StartsSpaced(cfg, ss, es, i, a, b);
    Spacing.SpacedLoad(StartHits(ss, es), TimeOf(es), cfg.recovery, a, b);
  }

  // ---------------------------------------------------------------------------------
  // The failure window
  // ---------------------------------------------------------------------------------

  ghost predicate Sorted(xs: seq<real>) {
    forall i, j :: 0 <= i < j < |xs| ==> xs[i] <= xs[j]
  }

  /** The entries of `log` no older than `cutoff`. */
  function Recent(log: seq<real>, cutoff: real): seq<real> {
    if log == [] then []
    else Recent(log[..|log| - 1], cutoff) + if log[|log| - 1] >= cutoff then [log[|log| - 1]] else []
  }

  /** The part of `log` inside the window ending at the latest entry. */
  function InWindow(cfg: Config, log: seq<real>, lastEntry: Option<real>): seq<real> {
    match lastEntry
    case None => log
    case Some(e) => Recent(log, e - cfg.window)
  }

  function Limit(cfg: Config): nat {
    if cfg.threshold < 1 then 1 else cfg.threshold
  }

  ghost predicate SortedUpTo(xs: seq<real>, now: real) {
    Sorted(xs) && forall k :: 0 <= k < |xs| ==> xs[k] <= now
  }

  ghost predicate WindowInv(cfg: Config, s: System) {
    && SortedUpTo(s.b.failures, s.clock)
    && SortedUpTo(s.log, s.clock)
    && |s.b.failures| < Limit(cfg)
    && (s.lastEntry.Some? ==> s.lastEntry.value <= s.clock)
    && (s.b.phase.Closed? ==> s.b.failures == InWindow(cfg, s.log, s.lastEntry))
  }

  lemma {:induction false} DropStaleLength(xs: seq<real>, cutoff: real)
    ensures |DropStale(xs, cutoff)| <= |xs|
    ensures DropStale(xs, cutoff) == xs[|xs| - |DropStale(xs, cutoff)|..]
  {
    if xs != [] && xs[0] < cutoff {
      DropStaleLength(xs[1..], cutoff);
    }
  }

  lemma {:induction false} RecentCons(x: real, xs: seq<real>, cutoff: real)
    ensures Recent([x] + xs, cutoff) == (if x >= cutoff then [x] else []) + Recent(xs, cutoff)
  {
    if xs != [] {
      RecentCons(x, xs[..|xs| - 1], cutoff);
      assert ([x] + xs)[..|xs|] == [x] + xs[..|xs| - 1];
    }
  }

  lemma {:induction false} RecentAll(xs: seq<real>, cutoff: real)
    requires forall k :: 0 <= k < |xs| ==> xs[k] >= cutoff
    ensures Recent(xs, cutoff) == xs
  {
    if xs != [] {
      RecentAll(xs[..|xs| - 1], cutoff);
    }
  }

  /** On a sorted log, popping from the front keeps exactly the recent entries. */
  lemma {:induction false} DropStaleIsRecent(xs: seq<real>, cutoff: real)
    requires Sorted(xs)
    ensures DropStale(xs, cutoff) == Recent(xs, cutoff)
  {
    if xs != [] {
      if xs[0] < cutoff {
        DropStaleIsRecent(xs[1..], cutoff);
        RecentCons(xs[0], xs[1..], cutoff);
        assert [xs[0]] + xs[1..] == xs;
      } else {
        RecentAll(xs, cutoff);
      }
    }
  }

  lemma {:induction false} RecentTwice(xs: seq<real>, c: real, d: real)
    requires c <= d
    ensures Recent(Recent(xs, c), d) == Recent(xs, d)
  {
    if xs != [] {
      var init, last := xs[..|xs| - 1], xs[|xs| - 1];
      RecentTwice(init, c, d);
      if last >= c {
        assert (Recent(init, c) + [last])[..|Recent(init, c)|] == Recent(init, c);
      } else {
        assert Recent(xs, c) == Recent(init, c) && Recent(xs, d) == Recent(init, d);
      }
    }
  }

  /** Dropping what a later cutoff no longer admits leaves the log's view from that cutoff. */
  lemma WindowSlides(log: seq<real>, before: real, cutoff: real)
    requires Sorted(Recent(log, before)) && before <= cutoff
    ensures DropStale(Recent(log, before), cutoff) == Recent(log, cutoff)
  {
    var kept := Recent(log, before);
    calc {
      DropStale(kept, cutoff);
      { DropStaleIsRecent(kept, cutoff); }
      Recent(kept, cutoff);
      { RecentTwice(log, before, cutoff); }
      Recent(log, cutoff);
    }
  }

  lemma WindowAtEntry(cfg: Config, s: System, at: real)
    requires WindowInv(cfg, s) && s.clock <= at && s.b.phase.Closed?
    ensures DropStale(s.b.failures, at - cfg.window) == Recent(s.log, at - cfg.window)
  {
    match s.lastEntry
    case None => DropStaleIsRecent(s.log, at - cfg.window);
    case Some(t) => WindowSlides(s.log, t - cfg.window, at - cfg.window);
  }

  lemma WindowEnter(cfg: Config, s: System, e: Event)
    requires cfg.window >= 0.0 && Enabled(s, e) && e.Enter? && WindowInv(cfg, s)
    ensures WindowInv(cfg, Next(cfg, s, e))
  {
    DropStaleLength(s.b.failures, e.at - cfg.window);
    assert SortedUpTo(DropStale(s.b.failures, e.at - cfg.window), e.at) && SortedUpTo(s.log, e.at);
    if s.b.phase.Closed? {
      WindowAtEntry(cfg, s, e.at);
    }
  }

  lemma LogGrows(cfg: Config, s: System, at: real)
    requires cfg.window >= 0.0 && WindowInv(cfg, s) && s.clock <= at && s.b.phase.Closed?
    ensures SortedUpTo(s.b.failures + [at], at) && SortedUpTo(s.log + [at], at)
    ensures s.b.failures + [at] == InWindow(cfg, s.log + [at], s.lastEntry)
  {
    assert (s.log + [at])[..|s.log|] == s.log;
  }

  lemma SortedLater(xs: seq<real>, at: real, later: real)
    requires SortedUpTo(xs, at) && at <= later
    ensures SortedUpTo(xs, later)
  {
  }

  lemma WindowFinishClosed(cfg: Config, s: System, e: Event)
    requires cfg.window >= 0.0 && Enabled(s, e) && e.Finish? && WindowInv(cfg, s) && s.b.phase.Closed?
    ensures WindowInv(cfg, Next(cfg, s, e))
  {
    var t := Next(cfg, s, e);
    SortedLater(s.b.failures, s.clock, e.at);
    SortedLater(s.log, s.clock, e.at);
    if !Fails(e) {
      assert t.b.failures == s.b.failures && t.log == s.log && t.b.phase.Closed?;
    } else {
      LogGrows(cfg, s, e.at);
      assert t.log == s.log + [e.at] && t.lastEntry == s.lastEntry;
      assert t.b.failures == if t.b.phase.Open? then [] else s.b.failures + [e.at];
    }
  }

  lemma WindowFinishOpen(cfg: Config, s: System, e: Event)
    requires cfg.window >= 0.0 && Enabled(s, e) && e.Finish? && WindowInv(cfg, s) && !s.b.phase.Closed?
    ensures WindowInv(cfg, Next(cfg, s, e))
  {
    assert SortedUpTo(s.b.failures, e.at) && SortedUpTo(s.log, e.at);
    assert SortedUpTo(s.b.failures + [e.at], e.at) && SortedUpTo(s.log + [e.at], e.at);
  }

  lemma WindowFinishes(cfg: Config, s: System, e: Event)
    requires cfg.window >= 0.0 && Enabled(s, e) && e.Finish? && WindowInv(cfg, s)
    ensures WindowInv(cfg, Next(cfg, s, e))
  {
    if s.b.phase.Closed? {
      WindowFinishClosed(cfg, s, e);
    } else {
      WindowFinishOpen(cfg, s, e);
    }
  }

  lemma {:induction false} WindowHolds(cfg: Config, ss: seq<System>, es: seq<Event>, n: nat)
    requires cfg.window >= 0.0 && IsRun(cfg, ss, es) && n <= |es|
    ensures WindowInv(cfg, ss[n])
  {
    if n > 0 {
      WindowHolds(cfg, ss, es, n - 1);
      assert Enabled(ss[n - 1], es[n - 1]);
      if es[n - 1].Enter? {
        WindowEnter(cfg, ss[n - 1], es[n - 1]);
      } else {
        WindowFinishes(cfg, ss[n - 1], es[n - 1]);
      }
    }
  }

  /** The deque refines the log: in every reachable state it is sorted and below the
      threshold, and while closed it holds exactly the failures since the last close that
      the latest entry still saw in the window. */
  lemma WindowRefinement(cfg: Config, ss: seq<System>, es: seq<Event>, n: nat)
    requires cfg.window >= 0.0 && IsRun(cfg, ss, es) && n <= |es|
    ensures Sorted(ss[n].b.failures) && |ss[n].b.failures| < Limit(cfg)
    ensures ss[n].b.phase.Closed? ==> ss[n].b.failures == InWindow(cfg, ss[n].log, ss[n].lastEntry)
  {
    WindowHolds(cfg, ss, es, n);
  }

  /** While closed, an event opens the breaker if and only if it is a counted failure that
      brings the failures in the window to the threshold, which it then meets exactly. */
  lemma TripMeansThreshold(cfg: Config, ss: seq<System>, es: seq<Event>, n: nat)
    requires cfg.window >= 0.0 && IsRun(cfg, ss, es) && n < |es| && ss[n].b.phase.Closed?
    ensures ss[n + 1].b.phase.Open? <==>
            Fails(es[n]) && |InWindow(cfg, ss[n].log + [es[n].at], ss[n].lastEntry)| >= Limit(cfg)
    ensures ss[n + 1].b.phase.Open? ==>
              |InWindow(cfg, ss[n].log + [es[n].at], ss[n].lastEntry)| == Limit(cfg)
  {
    WindowHolds(cfg, ss, es, n);
    assert Enabled(ss[n], es[n]);
    assert (ss[n].log + [es[n].at])[..|ss[n].log|] == ss[n].log;
  }

  /** Failures need not be consecutive: a success between two of them does not reset the window. */
  lemma SuccessDoesNotReset(recovery: real, window: real) returns (cfg: Config, ss: seq<System>, es: seq<Event>)
    requires window >= 2.0
    ensures cfg == Config(2, recovery, window) && IsRun(cfg, ss, es) && |es| == 6
    ensures Fails(es[1]) && es[3].Finish? && es[3].outcome.Returned? && Fails(es[5])
    ensures ss[6].b.phase.Open?
  {
    cfg := Config(2, recovery, window);
    es := [Enter(0, 0.0), Finish(0, 0.0, TRANSIENT), Enter(1, 1.0), Finish(1, 1.0, Returned(())),
           Enter(2, 2.0), Finish(2, 2.0, TRANSIENT)];
    var s0 := System(NEW_BREAKER, 0.0, map[], [], None);
    var s1 := Next(cfg, s0, es[0]);
    var s2 := Next(cfg, s1, es[1]);
    assert s2.b.failures == [0.0];
    var s3 := Next(cfg, s2, es[2]);
    var s4 := Next(cfg, s3, es[3]);
    var s5 := Next(cfg, s4, es[4]);
    assert s5.b.failures == [0.0];
    var s6 := Next(cfg, s5, es[5]);
    ss := [s0, s1, s2, s3, s4, s5, s6];
  }

  // ---------------------------------------------------------------------------------
  // The trip counter
  // ---------------------------------------------------------------------------------

  ghost predicate Opens(ss: seq<System>, i: nat)
    requires i + 1 < |ss|
  {
    !ss[i].b.phase.Open? && ss[i + 1].b.phase.Open?
  }

  /** A late failure that meets the threshold while the breaker is already open. */
  ghost predicate Rearms(cfg: Config, s: System, e: Event) {
    s.b.phase.Open? && Fails(e) && |s.b.failures| + 1 >= cfg.threshold
  }

  ghost function OpeningCount(ss: seq<System>, n: nat): nat
    requires n < |ss|
  {
    if n == 0 then 0 else OpeningCount(ss, n - 1) + if Opens(ss, n - 1) then 1 else 0
  }

  /** `trips` equals the documented count of CLOSED or HALF_OPEN to OPEN transitions if and
      only if no late failure ever re-armed an open breaker; otherwise it is larger. */
  lemma {:induction false} TripsCountOpenings(cfg: Config, ss: seq<System>, es: seq<Event>, n: nat)
    requires IsRun(cfg, ss, es) && n <= |es|
    ensures ss[n].b.trips >= OpeningCount(ss, n)
    ensures ss[n].b.trips == OpeningCount(ss, n) <==>
            forall i {:trigger es[i]} :: 0 <= i < n ==> !Rearms(cfg, ss[i], es[i])
  {
    if n > 0 {
      TripsCountOpenings(cfg, ss, es, n - 1);
      assert Enabled(ss[n - 1], es[n - 1]) && ss[n] == Next(cfg, ss[n - 1], es[n - 1]);
    }
  }

  /** Re-arms happen: a late failure of a call admitted before the trip is counted as another
      trip, although the breaker opened once. */
  lemma LateFailureCounts(recovery: real, window: real) returns (cfg: Config, ss: seq<System>, es: seq<Event>)
    ensures cfg == Config(1, recovery, window) && IsRun(cfg, ss, es) && |es| == 4
    ensures Rearms(cfg, ss[3], es[3]) && ss[4].b.trips == 2 && OpeningCount(ss, 4) == 1
  {
    cfg := Config(1, recovery, window);
    es := [Enter(0, 0.0), Enter(1, 0.0), Finish(0, 0.0, TRANSIENT), Finish(1, 0.0, TRANSIENT)];
    var s0 := System(NEW_BREAKER, 0.0, map[], [], None);
    var s1 := Next(cfg, s0, es[0]);
    var s2 := Next(cfg, s1, es[1]);
    var s3 := Next(cfg, s2, es[2]);
    var s4 := Next(cfg, s3, es[3]);
    ss := [s0, s1, s2, s3, s4];
    assert s3.b == Breaker(Open, 0.0, [], false, 1) && s4.b == Breaker(Open, 0.0, [], false, 2);
    assert s1.b == s2.b == NEW_BREAKER;
    assert OpeningCount(ss, 0) == OpeningCount(ss, 1) == OpeningCount(ss, 2) == 0;
    assert OpeningCount(ss, 3) == 1;
  }

  // ---------------------------------------------------------------------------------
  // Calls that never fail the way the breaker counts
  // ---------------------------------------------------------------------------------

  /** Without a counted failure the breaker stays as it was built and turns no call away. */
  lemma {:induction false} StaysClosed(cfg: Config, ss: seq<System>, es: seq<Event>, n: nat)
    requires IsRun(cfg, ss, es) && n <= |es| && forall i :: 0 <= i < n ==> !Fails(es[i])
    ensures ss[n].b == NEW_BREAKER
    ensures forall i :: 0 <= i < n && es[i].Enter? ==> Starts(ss, es, i)
  {
    if n > 0 {
      StaysClosed(cfg, ss, es, n - 1);
      assert Enabled(ss[n - 1], es[n - 1]);
    }
  }
}
