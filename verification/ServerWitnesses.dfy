/**
  Runs of the server that show where a promise fails, and that the premises of the theorems can
  be met: calls of one harmless tool, on time, under any settings that let them through.
*/
module ServerWitnesses {
  import opened Errors
  import opened Server
  import opened ServerRuns
  import opened ServerParts
  import opened ServerSafety
  import opened ServerScenes
  import opened ServerAccounts
  import opened ServerLocks
  import Atba
  import BucketRuns
  import CacheManager
  import CircuitBreaker
  import PolicyEngine
  import SingleFlight
  import TokenBucket

  function QuotaOf(cfg: Settings, c: Call): TokenBucket.Quota {
    TokenBucket.QuotaFor(cfg.quota, ToolName(c))
  }

  /** Tokens only grow with time. */
  lemma RoomLater(cfg: Settings, s: State, c: Call, at: real, later: real, n: nat)
    requires Room(cfg, s, c, at, n) && at <= later && QuotaOf(cfg, c).refillPerMinute >= 0
    ensures Room(cfg, s, c, later, n)
  {
    var q := QuotaOf(cfg, c);
    var stored := TokenBucket.At(s.guards.buckets, TokenBucket.LimiterKey(c.tenant, ToolName(c)));
    assert Millis(at) <= Millis(later);
    if stored.Some? && Millis(at) >= stored.value.lastMs {
      BucketRuns.GainMonotone(TokenBucket.RatePerSecond(q), Millis(at) - stored.value.lastMs,
                              Millis(later) - stored.value.lastMs);
    }
  }

  // ---------------------------------------------------------------------------------
  // The premises can be met
  // ---------------------------------------------------------------------------------

  /** The server's default settings, with a policy that denies nothing. */
  function Defaults(digest: string -> string): Settings {
    Settings(s => s, [], false, true, TokenBucket.Quota(20, 60), digest, true, true,
             CacheManager.Settings(10_000, 60, 600), 3, 100, CircuitBreaker.Config(5, 30.0, 60.0))
  }

  /** A call of a cacheable tool that is not destructive and needs no scope. */
  function PlainCall(tenant: string, tool: string, args: string): Call {
    Call(Some(Tool(tool, [], false, true, 60)), None, args, args, tenant, "subject", [], PolicyEngine.Context(None, []),
         true, "")
  }

  /** Under the default settings every such call is harmless, cached and let through twice at once. */
  lemma DefaultsAdmit(digest: string -> string, tenant: string, tool: string, args: string)
    ensures var cfg, c := Defaults(digest), PlainCall(tenant, tool, args);
            && Harmless(cfg, c) && UsesCache(cfg, c) && QuotaOf(cfg, c).capacity >= 2 && Refills(cfg, c)
            && cfg.retryMax >= 1 && CacheManager.L2Ttl(cfg.cache, TtlOf(c)) >= 0
  {
  }

  // ---------------------------------------------------------------------------------
  // Two calls on one lock
  // ---------------------------------------------------------------------------------

  /** On a tool without samples, the first call is launched with a timeout of 7.5 s. */
  lemma FirstLaunched(cfg: Settings, c: Call, n: nat) returns (ss: seq<State>, es: seq<Event>, s: State)
    requires Harmless(cfg, c) && (cfg.rateLimited ==> QuotaOf(cfg, c).capacity >= n + 1)
    ensures Reaches(cfg, ss, es, s) && Underway(cfg, INITIAL, s, c, 0.0, 7.5) && Room(cfg, s, c, 0.0, n)
    ensures es == [Begin(c, 0.0), Launch(0, 0.0)]
  {
    ReachesInitial(cfg);
    ss, es, s := BeginAndLaunch(cfg, [INITIAL], [], INITIAL, c, 0.0, n);
    assert Allotted(INITIAL, ToolName(c)) == 7.5;
  }

  /** On a tool without samples, a call that has run for the lock's 5 s is not yet cut at its 7.5 s
      when a second call of the key takes the lock too. */
  lemma FreshToolSharesLock(cfg: Settings, c: Call) returns (ss: seq<State>, es: seq<Event>)
    requires Harmless(cfg, c) && UsesCache(cfg, c) && QuotaOf(cfg, c).refillPerMinute >= 0 && cfg.retryMax >= 1
    requires cfg.rateLimited ==> QuotaOf(cfg, c).capacity >= 2
    ensures IsRun(cfg, ss, es) && OnTime(ss, es, 0.0)
    ensures es == [Begin(c, 0.0), Launch(0, 0.0), Begin(c, LOCK_TTL)]
    ensures SingleFlight.Holds(ss[3].cache, 0, KeyOf(cfg, c)) && SingleFlight.Holds(ss[3].cache, 1, KeyOf(cfg, c))
    ensures !SingleFlight.LockExclusive(ss[3].cache, KeyOf(cfg, c))
  {
    var t;
    ss, es, t := FirstLaunched(cfg, c, 1);
    ss, es := SecondTakesLock(cfg, c, ss, es, t);
  }

  lemma SecondTakesLock(cfg: Settings, c: Call, ss: seq<State>, es: seq<Event>, s: State)
    returns (ss': seq<State>, es': seq<Event>)
    requires Harmless(cfg, c) && UsesCache(cfg, c) && QuotaOf(cfg, c).refillPerMinute >= 0
    requires Reaches(cfg, ss, es, s) && Underway(cfg, INITIAL, s, c, 0.0, 7.5) && Room(cfg, s, c, 0.0, 1)
    ensures IsRun(cfg, ss', es') && OnTime(ss', es', 0.0) && es' == es + [Begin(c, LOCK_TTL)]
    ensures SingleFlight.Holds(ss'[|es'|].cache, 0, KeyOf(cfg, c))
    ensures SingleFlight.Holds(ss'[|es'|].cache, 1, KeyOf(cfg, c))
  {
    RoomLater(cfg, s, c, 0.0, LOCK_TTL, 1);
    GuardsPass(cfg, s, c, LOCK_TTL);
    BeginScene(cfg, s, c, LOCK_TTL);
    ss', es' := ReachNext(cfg, ss, es, s, Begin(c, LOCK_TTL));
  }

  // ---------------------------------------------------------------------------------
  // One call after another
  // ---------------------------------------------------------------------------------

  /** Every call has ended, and the server is as new but for latencies and tokens. */
  ghost predicate Idle(cfg: Settings, s: State, c: Call) {
    && (forall id :: 0 <= id < |s.flights| ==> s.flights[id].stage.Done? && s.flights[id].blames == 0)
    && SystemOf(s, ToolName(c)).b == CircuitBreaker.NEW_BREAKER && Solvent(cfg, s, c)
    && (UsesCache(cfg, c) ==> s.cache.c.l1 == [] && s.cache.c.l2 == map[] && s.cache.c.locks == map[])
  }

  /** The limiter, if there is one, refills at least a token a minute. */
  predicate Refills(cfg: Settings, c: Call) {
    cfg.rateLimited ==> QuotaOf(cfg, c).capacity >= 1 && QuotaOf(cfg, c).refillPerMinute >= 1
  }

  lemma MinuteRefills(rpm: int, ms: int)
    requires rpm >= 1 && ms >= 60_000
    ensures TokenBucket.Gain(rpm as real / 60.0, ms) >= 1.0
  {
    BucketRuns.GainMonotone(rpm as real / 60.0, 60_000, ms);
    assert TokenBucket.Gain(rpm as real / 60.0, 60_000) == 60.0 * (rpm as real / 60.0);
  }

  lemma MinuteGivesRoom(cfg: Settings, s: State, c: Call)
    requires Solvent(cfg, s, c) && Refills(cfg, c)
    ensures Room(cfg, s, c, s.clock + 60.0, 1)
  {
    var stored := TokenBucket.At(s.guards.buckets, TokenBucket.LimiterKey(c.tenant, ToolName(c)));
    if cfg.rateLimited && stored.Some? {
      assert Millis(s.clock + 60.0) == Millis(s.clock) + 60_000;
      MinuteRefills(QuotaOf(cfg, c).refillPerMinute, Millis(s.clock + 60.0) - stored.value.lastMs);
    }
  }

  /** A minute later, one more call is under way. */
  lemma NextCall(cfg: Settings, ss: seq<State>, es: seq<Event>, s: State, c: Call)
    returns (ss': seq<State>, es': seq<Event>, t: State)
    requires Reaches(cfg, ss, es, s) && Idle(cfg, s, c) && Harmless(cfg, c) && Refills(cfg, c)
    ensures Reaches(cfg, ss', es', t) && Underway(cfg, s, t, c, s.clock + 60.0, Allotted(s, ToolName(c)))
    ensures Solvent(cfg, t, c)
    ensures SystemOf(t, ToolName(c)).b == CircuitBreaker.NEW_BREAKER
    ensures es' == es + [Begin(c, s.clock + 60.0), Launch(|s.flights|, s.clock + 60.0)] && ss <= ss'
  {
    MinuteGivesRoom(cfg, s, c);
    ss', es', t := BeginAndLaunch(cfg, ss, es, s, c, s.clock + 60.0, 0);
  }

  /** What a call that ended adds to an idle server. */
  ghost predicate Added(cfg: Settings, s: State, t: State, c: Call, duration: real) {
    && Idle(cfg, t, c) && |t.flights| == |s.flights| + 1 && t.flights[|s.flights|].call == c
    && t.flights[..|s.flights|] == s.flights
    && SamplesOf(t, ToolName(c)) == Atba.Recorded(SamplesOf(s, ToolName(c)), duration, Atba.WINDOW)
  }

  lemma EndsIdle(cfg: Settings, s: State, m: State, t: State, c: Call, ended: Flight, at: real,
                 timeout: real, duration: real)
    requires Idle(cfg, s, c) && Underway(cfg, s, m, c, at, timeout) && Solvent(cfg, m, c)
    requires SystemOf(m, ToolName(c)).b == CircuitBreaker.NEW_BREAKER
    requires OnlyMoved(m, t, |s.flights|, ended, at + duration) && ended.stage.Done? && ended.call == c
    requires ended.blames == 0
    requires Released(cfg, m, t, c) && Sampled(m, t, m.flights[|s.flights|], at + duration) && duration >= 0.0
    requires SystemOf(t, ToolName(c)).b == SystemOf(m, ToolName(c)).b
    ensures Added(cfg, s, t, c, duration)
  {
    assert Millis(at) <= Millis(at + duration);
    forall id | 0 <= id < |t.flights| ensures t.flights[id].stage.Done? && t.flights[id].blames == 0 {
      if id < |s.flights| {
        assert t.flights[id] == m.flights[id] == s.flights[id];
      }
    }
  }

  lemma UnderwayDue(cfg: Settings, s: State, m: State, c: Call, at: real, timeout: real, now: real)
    requires Idle(cfg, s, c) && Underway(cfg, s, m, c, at, timeout) && now <= at + timeout
    ensures AllDue(m, now)
  {
    forall id | 0 <= id < |m.flights| ensures Due(m.flights[id], now, 0.0) {
      assert id < |s.flights| ==> m.flights[id] == s.flights[id];
    }
  }

  lemma Expired(cfg: Settings, s: State, m: State, c: Call, at: real, timeout: real) returns (t: State)
    requires timeout >= 0.0 && Idle(cfg, s, c) && Tied(cfg, m) && Underway(cfg, s, m, c, at, timeout)
    requires Solvent(cfg, m, c)
    requires SystemOf(m, ToolName(c)).b == CircuitBreaker.NEW_BREAKER
    ensures Enabled(cfg, m, Expire(|s.flights|, at + timeout)) && t == Next(cfg, m, Expire(|s.flights|, at + timeout))
    ensures Added(cfg, s, t, c, timeout)
  {
    var id, until := |s.flights|, at + timeout;
    ExpireScene(cfg, m, id, until);
    t := Next(cfg, m, Expire(id, until));
    var ended := m.flights[id].(stage := Stage.Done(Raised(TIMED_OUT)));
    EndsIdle(cfg, s, m, t, c, ended, at, timeout, timeout);
  }

  lemma HangsOut(cfg: Settings, ss: seq<State>, es: seq<Event>, s: State, m: State, c: Call, at: real, timeout: real)
    returns (ss': seq<State>, es': seq<Event>, t: State)
    requires Reaches(cfg, ss, es, m) && Idle(cfg, s, c) && Underway(cfg, s, m, c, at, timeout) && Solvent(cfg, m, c)
    requires timeout >= 0.0 && SystemOf(m, ToolName(c)).b == CircuitBreaker.NEW_BREAKER
    ensures Reaches(cfg, ss', es', t) && Added(cfg, s, t, c, timeout)
  {
    t := Expired(cfg, s, m, c, at, timeout);
    UnderwayDue(cfg, s, m, c, at, timeout, at + timeout);
    ss', es' := ReachNext(cfg, ss, es, m, Expire(|s.flights|, at + timeout));
  }

  /** A call that never answers is cut at its timeout. */
  lemma HangingCall(cfg: Settings, ss: seq<State>, es: seq<Event>, s: State, c: Call)
    returns (ss': seq<State>, es': seq<Event>, t: State)
    requires Reaches(cfg, ss, es, s) && Idle(cfg, s, c) && Harmless(cfg, c) && Refills(cfg, c)
    ensures Reaches(cfg, ss', es', t) && Added(cfg, s, t, c, Allotted(s, ToolName(c)))
  {
    var m;
    ss', es', m := NextCall(cfg, ss, es, s, c);
    ss', es', t := HangsOut(cfg, ss', es', s, m, c, s.clock + 60.0, Allotted(s, ToolName(c)));
  }

  const REFUSAL := ToolError(OtherTool, "refused", false)

  lemma Refuses(cfg: Settings, s: State, m: State, c: Call, at: real, timeout: real) returns (t: State)
    requires timeout >= 0.0 && Idle(cfg, s, c) && Tied(cfg, m) && Underway(cfg, s, m, c, at, timeout)
    requires Solvent(cfg, m, c)
    requires SystemOf(m, ToolName(c)).b == CircuitBreaker.NEW_BREAKER && Allowance(cfg, c) > 0
    ensures Enabled(cfg, m, AttemptEnds(|s.flights|, Failure(REFUSAL), 0.0, at))
    ensures t == Next(cfg, m, AttemptEnds(|s.flights|, Failure(REFUSAL), 0.0, at)) && Added(cfg, s, t, c, 0.0)
  {
    var id := |s.flights|;
    FailEnds(cfg, m, id, REFUSAL, at);
    t := Next(cfg, m, AttemptEnds(id, Failure(REFUSAL), 0.0, at));
    EndsIdle(cfg, s, m, t, c, t.flights[id], at, timeout, 0.0);
  }

  /** A call whose tool refuses at once. */
  lemma RefusedCall(cfg: Settings, ss: seq<State>, es: seq<Event>, s: State, c: Call)
    returns (ss': seq<State>, es': seq<Event>, t: State)
    requires Reaches(cfg, ss, es, s) && Idle(cfg, s, c) && Harmless(cfg, c) && Refills(cfg, c) && cfg.retryMax >= 1
    ensures Reaches(cfg, ss', es', t) && Added(cfg, s, t, c, 0.0)
    ensures es' == es + [Begin(c, s.clock + 60.0), Launch(|s.flights|, s.clock + 60.0),
                         AttemptEnds(|s.flights|, Failure(REFUSAL), 0.0, s.clock + 60.0)]
  {
    var m;
    ss', es', m := NextCall(cfg, ss, es, s, c);
    ss', es', t := RefusesNow(cfg, ss', es', s, m, c, s.clock + 60.0, Allotted(s, ToolName(c)));
  }

  lemma RefusesNow(cfg: Settings, ss: seq<State>, es: seq<Event>, s: State, m: State, c: Call, at: real, timeout: real)
    returns (ss': seq<State>, es': seq<Event>, t: State)
    requires Reaches(cfg, ss, es, m) && Idle(cfg, s, c) && Underway(cfg, s, m, c, at, timeout) && Solvent(cfg, m, c)
    requires timeout >= 0.0 && SystemOf(m, ToolName(c)).b == CircuitBreaker.NEW_BREAKER && Allowance(cfg, c) > 0
    ensures Reaches(cfg, ss', es', t) && Added(cfg, s, t, c, 0.0)
    ensures es' == es + [AttemptEnds(|s.flights|, Failure(REFUSAL), 0.0, at)]
  {
    t := Refuses(cfg, s, m, c, at, timeout);
    UnderwayDue(cfg, s, m, c, at, timeout, at);
    ss', es' := ReachNext(cfg, ss, es, m, AttemptEnds(|s.flights|, Failure(REFUSAL), 0.0, at));
  }

  // ---------------------------------------------------------------------------------
  // A tool that never answers
  // ---------------------------------------------------------------------------------

  ghost predicate AllCallsAre(s: State, c: Call) {
    forall id :: 0 <= id < |s.flights| ==> s.flights[id].call == c
  }

  lemma InitialIsIdle(cfg: Settings, c: Call)
    ensures Idle(cfg, INITIAL, c) && SamplesOf(INITIAL, ToolName(c)) == []
  {
  }

  lemma AddedKeepsCalls(cfg: Settings, s: State, t: State, c: Call, duration: real)
    requires Added(cfg, s, t, c, duration) && AllCallsAre(s, c)
    ensures AllCallsAre(t, c)
  {
    forall id | 0 <= id < |t.flights| ensures t.flights[id].call == c {
      assert id < |s.flights| ==> t.flights[id] == t.flights[..|s.flights|][id] == s.flights[id];
    }
  }

  /** n calls, one after another, each cut at its timeout: the samples are those of `Hung`. */
  lemma {:induction false} HungRun(cfg: Settings, c: Call, n: nat) returns (ss: seq<State>, es: seq<Event>, s: State)
    requires Harmless(cfg, c) && Refills(cfg, c)
    ensures Reaches(cfg, ss, es, s) && Idle(cfg, s, c) && |s.flights| == n
    ensures SamplesOf(s, ToolName(c)) == Atba.Hung(n) && Allotted(s, ToolName(c)) == Atba.HungTimeout(n)
  {
    if n == 0 {
      ReachesInitial(cfg);
      InitialIsIdle(cfg, c);
      ss, es, s := [INITIAL], [], INITIAL;
    } else {
      ss, es, s := HungRun(cfg, c, n - 1);
      ss, es, s := HangingCall(cfg, ss, es, s, c);
    }
  }

  lemma {:induction false} NoBlames(flights: seq<Flight>, tool: string)
    requires forall id :: 0 <= id < |flights| ==> flights[id].blames == 0
    ensures BlamesOf(flights, tool) == 0
  {
    if flights != [] {
      NoBlames(flights[..|flights| - 1], tool);
    }
  }

  /** The n-th call is launched with the timeout the recurrence of `Hung` gives, and the breaker has
      never left CLOSED nor counted a trip. */
  lemma HungToolIsServed(cfg: Settings, c: Call, n: nat) returns (ss: seq<State>, es: seq<Event>, at: real)
    requires Harmless(cfg, c) && Refills(cfg, c) && cfg.retryMax >= 1
    ensures IsRun(cfg, ss, es) && OnTime(ss, es, 0.0) && |es| > 0 && es[|es| - 1] == Launch(n, at)
    ensures |ss[|es|].flights| == n + 1 && ss[|es|].flights[n].stage == Running(at + Atba.HungTimeout(n))
    ensures forall k :: 0 <= k <= |es| ==> SystemOf(ss[k], ToolName(c)).b == CircuitBreaker.NEW_BREAKER
  {
    var s, t;
    ss, es, s := HungRun(cfg, c, n);
    at := s.clock + 60.0;
    ss, es, t := NextCall(cfg, ss, es, s, c);
    forall id | 0 <= id < |t.flights| ensures t.flights[id].blames == 0 {
      assert id < n ==> t.flights[id] == s.flights[id];
    }
    NoBlames(t.flights, ToolName(c));
    forall k | 0 <= k <= |es| ensures SystemOf(ss[k], ToolName(c)).b == CircuitBreaker.NEW_BREAKER {
      UnblamedNeverTrips(cfg, ss, es, ToolName(c), k, |es|);
    }
  }

  /** So under any settings that let its calls through, a tool that never answers comes to be
      launched with a timeout beyond any bound, and its breaker never stops it. */
  lemma HungToolOutgrows(cfg: Settings, c: Call, bound: real)
    returns (ss: seq<State>, es: seq<Event>, n: nat, at: real)
    requires Harmless(cfg, c) && Refills(cfg, c) && cfg.retryMax >= 1
    ensures IsRun(cfg, ss, es) && OnTime(ss, es, 0.0) && |es| > 0 && es[|es| - 1] == Launch(n, at)
    ensures n < |ss[|es|].flights| && ss[|es|].flights[n].stage.Running? && ss[|es|].flights[n].stage.until - at > bound
    ensures forall k :: 0 <= k <= |es| ==> SystemOf(ss[k], ToolName(c)).b == CircuitBreaker.NEW_BREAKER
  {
    n := Atba.TimeoutsRatchet(bound);
    ss, es, at := HungToolIsServed(cfg, c, n);
  }

  // ---------------------------------------------------------------------------------
  // A warmed tool
  // ---------------------------------------------------------------------------------

  function Zeros(n: nat): seq<real> {
    if n == 0 then [] else Zeros(n - 1) + [0.0]
  }

  lemma {:induction false} ZerosAreZero(n: nat)
    ensures |Zeros(n)| == n && forall i :: 0 <= i < n ==> Zeros(n)[i] == 0.0
  {
    if n > 0 {
      ZerosAreZero(n - 1);
    }
  }

  /** Up to twenty calls, one after another, each refused at once. */
  lemma {:induction false} WarmRun(cfg: Settings, d: Call, n: nat) returns (ss: seq<State>, es: seq<Event>, s: State)
    requires Harmless(cfg, d) && Refills(cfg, d) && cfg.retryMax >= 1 && n <= 20
    ensures Reaches(cfg, ss, es, s) && Idle(cfg, s, d) && AllCallsAre(s, d)
    ensures SamplesOf(s, ToolName(d)) == Zeros(n) && |s.flights| == n
  {
    if n == 0 {
      ReachesInitial(cfg);
      InitialIsIdle(cfg, d);
      ss, es, s := [INITIAL], [], INITIAL;
    } else {
      ZerosAreZero(n - 1);
      ss, es, s := WarmRun(cfg, d, n - 1);
      var before := s;
      ss, es, s := RefusedCall(cfg, ss, es, s, d);
      AddedKeepsCalls(cfg, before, s, d, 0.0);
    }
  }

  lemma WarmAllotted(s: State, tool: string)
    requires SamplesOf(s, tool) == Zeros(20)
    ensures Allotted(s, tool) == 0.5
  {
    ZerosAreZero(20);
    Atba.P95IsPercentile(Zeros(20), Atba.DEFAULT_P95_S);
  }

  /** Calls of another key are not launches of this one. */
  lemma OthersOnly(cfg: Settings, ss: seq<State>, es: seq<Event>, s: State, d: Call, key: string, bound: real, k: nat)
    requires Reaches(cfg, ss, es, s) && AllCallsAre(s, d) && !OfKey(cfg, key)(d) && k < |es|
    ensures LaunchesBelow(ss[k], es[k], OfKey(cfg, key), bound)
  {
    if es[k].Launch? && es[k].id < |ss[k].flights| {
      CallsPersist(cfg, ss, es, k, |es|, es[k].id);
    }
  }

  /** A launch with a timeout below the bound. */
  lemma LastLaunchBelow(cfg: Settings, ss: seq<State>, es: seq<Event>, t: State, who: Call -> bool, id: nat, at: real,
                        timeout: real, bound: real)
    requires Reaches(cfg, ss, es, t) && |es| > 0 && es[|es| - 1] == Launch(id, at) && timeout < bound
    requires id < |t.flights| && t.flights[id].stage == Running(at + timeout)
    ensures LaunchesBelow(ss[|es| - 1], es[|es| - 1], who, bound)
  {
    StepOf(cfg, ss, es, |es| - 1);
  }

  lemma WarmBelow(cfg: Settings, ss: seq<State>, es: seq<Event>, s: State, d: Call, key: string,
                  ss': seq<State>, es': seq<Event>, t: State, c: Call, id: nat, at: real)
    requires Reaches(cfg, ss, es, s) && AllCallsAre(s, d) && !OfKey(cfg, key)(d)
    requires Reaches(cfg, ss', es', t) && es' == es + [Begin(c, at), Launch(id, at)] && ss <= ss'
    requires id < |t.flights| && t.flights[id].stage == Running(at + 0.5)
    ensures AllottedBelow(ss', es', OfKey(cfg, key), LOCK_TTL)
  {
    forall k | 0 <= k < |es'| ensures LaunchesBelow(ss'[k], es'[k], OfKey(cfg, key), LOCK_TTL) {
      if k < |es| {
        OthersOnly(cfg, ss, es, s, d, key, LOCK_TTL, k);
      } else if k == |es'| - 1 {
        LastLaunchBelow(cfg, ss', es', t, OfKey(cfg, key), id, at, 0.5, LOCK_TTL);
      }
    }
  }

  /** The premise of `LocksExclusive` is met by runs in which calls of the key execute: twenty calls
      of another key of the tool, each refused at once, warm it to the minimum timeout. */
  lemma WarmToolMeetsPremise(cfg: Settings, c: Call, d: Call) returns (ss: seq<State>, es: seq<Event>, at: real)
    requires Harmless(cfg, c) && Harmless(cfg, d) && Refills(cfg, c) && cfg.retryMax >= 1 && UsesCache(cfg, c)
    requires c.tool == d.tool && c.tenant == d.tenant && KeyOf(cfg, c) != KeyOf(cfg, d)
    ensures IsRun(cfg, ss, es) && OnTime(ss, es, 0.0) && AllottedBelow(ss, es, OfKey(cfg, KeyOf(cfg, c)), LOCK_TTL)
    ensures |es| > 0 && |ss[|es|].flights| == 21 && es[|es| - 1] == Launch(20, at)
    ensures SingleFlight.Holds(ss[|es|].cache, 20, KeyOf(cfg, c)) && ss[|es|].flights[20].stage == Running(at + 0.5)
  {
    var ss0, es0, s := WarmRun(cfg, d, 20);
    WarmAllotted(s, ToolName(c));
    at := s.clock + 60.0;
    var t;
    ss, es, t := NextCall(cfg, ss0, es0, s, c);
    WarmBelow(cfg, ss0, es0, s, d, KeyOf(cfg, c), ss, es, t, c, 20, at);
  }
}
