/**
  Attempts of a tool while its breaker is open: when they can happen, and whose they are.
*/
module ServerOutage {
  import opened Errors
  import opened Server
  import opened ServerRuns
  import opened ServerParts
  import opened ServerSafety
  import opened ServerAccounts
  import opened ServerScenes
  import BreakerRuns
  import CacheManager
  import CircuitBreaker
  import SingleFlight
  import TokenBucket

  function AttemptsSoFar(s: State, id: nat): nat {
    if id < |s.flights| then s.flights[id].attempts else 0
  }

  /** From s to t the call starts an attempt and its tool's breaker is open. */
  predicate LateAttempt(s: State, t: State, id: nat) {
    && id < |t.flights| && t.flights[id].attempts > AttemptsSoFar(s, id)
    && SystemOf(t, ToolName(t.flights[id].call)).b.phase.Open?
  }

  /** Event k starts a late attempt of the call. */
  predicate LateAt(ss: seq<State>, k: nat, id: nat) {
    k + 1 < |ss| && LateAttempt(ss[k], ss[k + 1], id)
  }

  lemma OnlyResumesAreLate(cfg: Settings, s: State, e: Event, id: nat)
    requires Enabled(cfg, s, e) && LateAttempt(s, Next(cfg, s, e), id)
    ensures e.Resume? && e.id == id && id < |s.flights| && s.flights[id].stage.Pausing?
  {
    if id < |s.flights| {
      FlightsKept(cfg, s, e, id);
    }
  }

  /** In any run an attempt that starts while its tool's breaker is open is a retry, of a call that
      is not destructive and was launched before the breaker opened, under settings with two
      attempts or more. */
  lemma LateAttemptsAreRetries(cfg: Settings, ss: seq<State>, es: seq<Event>, k: nat, id: nat)
    requires IsRun(cfg, ss, es) && k < |es| && LateAt(ss, k, id)
    ensures es[k].Resume? && es[k].id == id && cfg.retryMax >= 2
    ensures var f := ss[k + 1].flights[id];
            !Destructive(f.call) && f.launched <= SystemOf(ss[k + 1], ToolName(f.call)).b.openedAt
  {
    StepOf(cfg, ss, es, k);
    OnlyResumesAreLate(cfg, ss[k], es[k], id);
    AlwaysAccounted(cfg, ss, es, k, id);
    LateAttemptsAreOld(cfg, ss, es, k + 1, id);
  }

  // ---------------------------------------------------------------------------------
  // A run with a late attempt
  // ---------------------------------------------------------------------------------

  /** How many counted failures open a new breaker. */
  function Needed(cfg: Settings): nat {
    BreakerRuns.Limit(cfg.breaker)
  }

  /** The guards let the calls pass, one after another, at time zero. */
  ghost predicate AllPass(cfg: Settings, g: Guards, calls: seq<Call>)
    decreases |calls|
  {
    calls == [] ||
    (Passes(cfg, g, calls[0], 0.0) && AllPass(cfg, Guarded(cfg, g, calls[0], 0.0).0, calls[1..]))
  }

  /** A call, and as many others of its tool as it takes to open the breaker, none with its cache
      key; a server that has just started lets them all pass. */
  ghost predicate Crew(cfg: Settings, c: Call, crew: seq<Call>) {
    && |crew| == Needed(cfg) && !Destructive(c) && AllPass(cfg, INITIAL.guards, [c] + crew)
    && forall i :: 0 <= i < |crew| ==> Mate(cfg, c, crew[i])
  }

  predicate Mate(cfg: Settings, c: Call, d: Call) {
    d.tool == c.tool && (UsesCache(cfg, c) ==> KeyOf(cfg, d) != KeyOf(cfg, c))
  }

  ghost predicate AllZero(failures: seq<real>) {
    forall i :: 0 <= i < |failures| ==> failures[i] == 0.0
  }

  lemma NothingStale(failures: seq<real>, window: real)
    requires AllZero(failures) && window >= 0.0
    ensures CircuitBreaker.DropStale(failures, 0.0 - window) == failures
  {
  }

  /** At time zero the first call backs off, and `failed` others have failed for good. */
  ghost predicate Stalled(cfg: Settings, c: Call, s: State, failed: nat) {
    && |s.flights| > 0 && s.clock == 0.0
    && s.flights[0].call == c && s.flights[0].stage.Pausing? && s.flights[0].attempts == 1
    && s.flights[0].stage.wakeAt == 0.0 <= s.flights[0].stage.until
    && var b := SystemOf(s, ToolName(c)).b;
       b.phase.Closed? && |b.failures| == failed && AllZero(b.failures)
  }

  /** The others have ended. */
  predicate OthersDone(s: State, n: nat) {
    |s.flights| == n && forall id :: 0 < id < n ==> s.flights[id].stage.Done?
  }

  /** No value is cached, and no lock is held but these calls'. */
  predicate LocksOf(cfg: Settings, s: State, calls: set<Call>) {
    && s.cache.c.l1 == [] && s.cache.c.l2 == map[]
    && s.cache.c.locks.Keys <= set c | c in calls :: CacheManager.LockKey(KeyOf(cfg, c))
  }

  ghost predicate Between(cfg: Settings, c: Call, crew: seq<Call>, s: State, failed: nat) {
    && failed < |crew| && Stalled(cfg, c, s, failed) && OthersDone(s, |s.flights|)
    && AllPass(cfg, s.guards, crew[failed..]) && (UsesCache(cfg, c) ==> LocksOf(cfg, s, {c}))
  }

  /** The next call of the crew is in its a-th attempt. */
  ghost predicate Burning(cfg: Settings, c: Call, crew: seq<Call>, s: State, failed: nat, a: nat) {
    && failed < |crew| && Stalled(cfg, c, s, failed) && |s.flights| > 1
    && (forall id :: 0 < id < |s.flights| - 1 ==> s.flights[id].stage.Done?)
    && AllPass(cfg, s.guards, crew[failed + 1..]) && Trying(cfg, crew[failed], s, |s.flights| - 1, a)
    && (UsesCache(cfg, c) ==> LocksOf(cfg, s, {c, crew[failed]}))
  }

  predicate Trying(cfg: Settings, d: Call, s: State, id: nat, a: nat)
    requires id < |s.flights|
  {
    && s.flights[id].call == d && s.flights[id].stage.Running? && s.flights[id].stage.until >= 0.0
    && s.flights[id].attempts == a && Ordinary(s, id) && Holding(cfg, s, id)
  }

  lemma AllottedIsPositive(s: State, tool: string)
    ensures Allotted(s, tool) >= 0.5
  {
  }

  lemma LockOfOther(cfg: Settings, c: Call, d: Call)
    requires Mate(cfg, c, d) && UsesCache(cfg, c)
    ensures CacheManager.LockKey(KeyOf(cfg, c)) != CacheManager.LockKey(KeyOf(cfg, d))
  {
    if CacheManager.LockKey(KeyOf(cfg, c)) == CacheManager.LockKey(KeyOf(cfg, d)) {
      SingleFlight.LockKeyInjective(KeyOf(cfg, c), KeyOf(cfg, d));
    }
  }

  lemma MateIsClear(cfg: Settings, c: Call, d: Call, s: State)
    requires Mate(cfg, c, d) && (UsesCache(cfg, c) ==> LocksOf(cfg, s, {c}))
    ensures Clear(cfg, s, d, 0.0)
  {
    if UsesCache(cfg, c) {
      LockOfOther(cfg, c, d);
    }
  }

  lemma NextPasses(cfg: Settings, g: Guards, crew: seq<Call>, failed: nat)
    requires failed < |crew| && AllPass(cfg, g, crew[failed..])
    ensures Passes(cfg, g, crew[failed], 0.0)
    ensures AllPass(cfg, Guarded(cfg, g, crew[failed], 0.0).0, crew[failed + 1..])
  {
    assert crew[failed..][1..] == crew[failed + 1..];
  }

  /** The first call begins, fails once and backs off. */
  lemma FirstBacksOff(cfg: Settings, c: Call, crew: seq<Call>) returns (ss: seq<State>, es: seq<Event>, s: State)
    requires Crew(cfg, c, crew) && cfg.retryMax >= 2
    ensures Reaches(cfg, ss, es, s) && Between(cfg, c, crew, s, 0)
  {
    ReachesInitial(cfg);
    NextPasses(cfg, INITIAL.guards, [c] + crew, 0);
    assert ([c] + crew)[1..] == crew == crew[0..];
    var m;
    ss, es, m := PassAndLaunch(cfg, [INITIAL], [], INITIAL, c, 0.0);
    AllottedIsPositive(INITIAL, ToolName(c));
    ss, es, s := BacksOff(cfg, ss, es, m, c, crew, Allotted(INITIAL, ToolName(c)));
  }

  lemma BacksOff(cfg: Settings, ss: seq<State>, es: seq<Event>, m: State, c: Call, crew: seq<Call>, timeout: real)
    returns (ss': seq<State>, es': seq<Event>, s: State)
    requires |crew| > 0 && !Destructive(c) && cfg.retryMax >= 2 && timeout >= 0.0
    requires Reaches(cfg, ss, es, m) && Underway(cfg, INITIAL, m, c, 0.0, timeout)
    requires AllPass(cfg, m.guards, crew[0..])
    ensures Reaches(cfg, ss', es', s) && Between(cfg, c, crew, s, 0)
  {
    FailPauses(cfg, m, 0, TRANSIENT, 0.0);
    var e := AttemptEnds(0, Failure(TRANSIENT), 0.0, 0.0);
    s := Next(cfg, m, e);
    ss', es' := ReachNext(cfg, ss, es, m, e);
  }

  /** The next call of the crew begins. */
  lemma Ignites(cfg: Settings, ss: seq<State>, es: seq<Event>, s: State, c: Call, crew: seq<Call>, failed: nat)
    returns (ss': seq<State>, es': seq<Event>, t: State)
    requires Crew(cfg, c, crew) && cfg.retryMax >= 2 && cfg.breaker.window >= 0.0
    requires Reaches(cfg, ss, es, s) && Between(cfg, c, crew, s, failed)
    ensures Reaches(cfg, ss', es', t) && Burning(cfg, c, crew, t, failed, 1)
  {
    var d := crew[failed];
    assert Mate(cfg, c, d);
    forall id | 0 <= id < |s.flights| ensures Due(s.flights[id], 0.0, 0.0) {
      assert id > 0 ==> s.flights[id].stage.Done?;
    }
    NextPasses(cfg, s.guards, crew, failed);
    MateIsClear(cfg, c, d, s);
    ss', es', t := PassAndLaunch(cfg, ss, es, s, d, 0.0);
    NothingStale(SystemOf(s, ToolName(d)).b.failures, cfg.breaker.window);
    AllottedIsPositive(s, ToolName(d));
    UnderwayBurns(cfg, s, t, c, crew, failed, Allotted(s, ToolName(d)));
  }

  lemma UnderwayBurns(cfg: Settings, s: State, t: State, c: Call, crew: seq<Call>, failed: nat, timeout: real)
    requires failed < |crew| && Mate(cfg, c, crew[failed]) && !Destructive(c) && cfg.retryMax >= 2 && timeout >= 0.0
    requires Between(cfg, c, crew, s, failed) && Underway(cfg, s, t, crew[failed], 0.0, timeout)
    requires AllPass(cfg, t.guards, crew[failed + 1..])
    requires SystemOf(t, ToolName(c)).b == SystemOf(s, ToolName(c)).b
    ensures Burning(cfg, c, crew, t, failed, 1)
  {
    forall id | 0 <= id < |s.flights| ensures t.flights[id] == s.flights[id] {
    }
  }

  lemma BurningIsDue(cfg: Settings, c: Call, crew: seq<Call>, s: State, failed: nat, a: nat)
    requires Burning(cfg, c, crew, s, failed, a)
    ensures AllDue(s, 0.0)
  {
  }

  /** Its attempt fails and, with attempts to spare, the next one starts. */
  lemma TriesAgain(cfg: Settings, ss: seq<State>, es: seq<Event>, s: State, c: Call, crew: seq<Call>, failed: nat,
                   a: nat) returns (ss': seq<State>, es': seq<Event>, t: State)
    requires Crew(cfg, c, crew) && 0 < a < cfg.retryMax
    requires Reaches(cfg, ss, es, s) && Burning(cfg, c, crew, s, failed, a)
    ensures Reaches(cfg, ss', es', t) && Burning(cfg, c, crew, t, failed, a + 1)
  {
    var id, fails := |s.flights| - 1, AttemptEnds(|s.flights| - 1, Failure(TRANSIENT), 0.0, 0.0);
    FailPauses(cfg, s, id, TRANSIENT, 0.0);
    BurningIsDue(cfg, c, crew, s, failed, a);
    ss', es' := ReachNext(cfg, ss, es, s, fails);
    var m := Next(cfg, s, fails);
    t := Resumes(cfg, s, m, c, crew, failed, a);
    ss', es' := ReachNext(cfg, ss', es', m, Resume(id, 0.0));
  }

  lemma Resumes(cfg: Settings, s: State, m: State, c: Call, crew: seq<Call>, failed: nat, a: nat) returns (t: State)
    requires Tied(cfg, m) && Burning(cfg, c, crew, s, failed, a)
    requires var id := |s.flights| - 1;
             var f := s.flights[id];
             OnlyMoved(s, m, id, f.(stage := Pausing(f.stage.until, 0.0), pauses := f.pauses + 1,
                                    results := f.results + [Raised(TRANSIENT)]), 0.0)
    requires m.cache == s.cache && m.breakers == s.breakers
    ensures Enabled(cfg, m, Resume(|s.flights| - 1, 0.0)) && t == Next(cfg, m, Resume(|s.flights| - 1, 0.0))
    ensures AllDue(m, 0.0) && Burning(cfg, c, crew, t, failed, a + 1)
  {
    ResumeScene(cfg, m, |s.flights| - 1, 0.0);
    t := Next(cfg, m, Resume(|s.flights| - 1, 0.0));
  }

  /** The breaker is open and the first call still backs off. */
  ghost predicate Tripped(c: Call, s: State) {
    && |s.flights| > 0 && s.clock == 0.0 && AllDue(s, 0.0)
    && s.flights[0].call == c && s.flights[0].stage.Pausing? && s.flights[0].attempts == 1
    && s.flights[0].stage.wakeAt == 0.0
    && SystemOf(s, ToolName(c)).b.phase.Open?
  }

  /** Its last attempt fails: one failure more, and with enough of them the breaker opens. */
  lemma BurnsOut(cfg: Settings, ss: seq<State>, es: seq<Event>, s: State, c: Call, crew: seq<Call>, failed: nat)
    returns (ss': seq<State>, es': seq<Event>, t: State)
    requires Crew(cfg, c, crew) && cfg.retryMax >= 2 && Reaches(cfg, ss, es, s)
    requires Burning(cfg, c, crew, s, failed, cfg.retryMax)
    ensures Reaches(cfg, ss', es', t)
    ensures if failed + 1 < |crew| then Between(cfg, c, crew, t, failed + 1) else Tripped(c, t)
  {
    var e := AttemptEnds(|s.flights| - 1, Failure(TRANSIENT), 0.0, 0.0);
    t := LastFailure(cfg, s, c, crew, failed);
    BurningIsDue(cfg, c, crew, s, failed, cfg.retryMax);
    ss', es' := ReachNext(cfg, ss, es, s, e);
  }

  lemma LastFailure(cfg: Settings, s: State, c: Call, crew: seq<Call>, failed: nat) returns (t: State)
    requires Crew(cfg, c, crew) && cfg.retryMax >= 2 && Tied(cfg, s) && Burning(cfg, c, crew, s, failed, cfg.retryMax)
    ensures var e := AttemptEnds(|s.flights| - 1, Failure(TRANSIENT), 0.0, 0.0);
            Enabled(cfg, s, e) && t == Next(cfg, s, e)
    ensures if failed + 1 < |crew| then Between(cfg, c, crew, t, failed + 1) else Tripped(c, t)
  {
    var id := |s.flights| - 1;
    FailEnds(cfg, s, id, TRANSIENT, 0.0);
    t := Next(cfg, s, AttemptEnds(id, Failure(TRANSIENT), 0.0, 0.0));
    AfterLastFailure(cfg, s, t, c, crew, failed);
  }

  lemma AfterLastFailure(cfg: Settings, s: State, t: State, c: Call, crew: seq<Call>, failed: nat)
    requires Crew(cfg, c, crew) && cfg.retryMax >= 2 && Burning(cfg, c, crew, s, failed, cfg.retryMax)
    requires var id := |s.flights| - 1;
             |t.flights| == |s.flights| && OnlyMoved(s, t, id, t.flights[id], 0.0) && t.flights[id].stage.Done?
    requires Released(cfg, s, t, crew[failed])
    requires SystemOf(t, ToolName(c)).b ==
             CircuitBreaker.AfterCountedFailure(cfg.breaker, SystemOf(s, ToolName(c)).b, 0.0)
    ensures if failed + 1 < |crew| then Between(cfg, c, crew, t, failed + 1) else Tripped(c, t)
  {
    forall id | 0 <= id < |s.flights| - 1 ensures t.flights[id] == s.flights[id] {
    }
  }

  lemma {:induction false} BurnAll(cfg: Settings, ss: seq<State>, es: seq<Event>, s: State, c: Call, crew: seq<Call>,
                                   failed: nat,
                                   a: nat) returns (ss': seq<State>, es': seq<Event>, t: State)
    requires Crew(cfg, c, crew) && cfg.retryMax >= 2 && 0 < a <= cfg.retryMax
    requires Reaches(cfg, ss, es, s) && Burning(cfg, c, crew, s, failed, a)
    ensures Reaches(cfg, ss', es', t)
    ensures if failed + 1 < |crew| then Between(cfg, c, crew, t, failed + 1) else Tripped(c, t)
    decreases cfg.retryMax - a
  {
    if a == cfg.retryMax {
      ss', es', t := BurnsOut(cfg, ss, es, s, c, crew, failed);
    } else {
      ss', es', t := TriesAgain(cfg, ss, es, s, c, crew, failed, a);
      ss', es', t := BurnAll(cfg, ss', es', t, c, crew, failed, a + 1);
    }
  }

  lemma {:induction false} TripsAtLast(cfg: Settings, ss: seq<State>, es: seq<Event>, s: State, c: Call,
                                       crew: seq<Call>, failed: nat)
    returns (ss': seq<State>, es': seq<Event>, t: State)
    requires Crew(cfg, c, crew) && cfg.retryMax >= 2 && cfg.breaker.window >= 0.0
    requires Reaches(cfg, ss, es, s) && Between(cfg, c, crew, s, failed)
    ensures Reaches(cfg, ss', es', t) && Tripped(c, t)
    decreases |crew| - failed
  {
    ss', es', t := Ignites(cfg, ss, es, s, c, crew, failed);
    ss', es', t := BurnAll(cfg, ss', es', t, c, crew, failed, 1);
    if failed + 1 < |crew| {
      ss', es', t := TripsAtLast(cfg, ss', es', t, c, crew, failed + 1);
    }
  }

  /** With two attempts or more, there is a run, on time, in which a retry is late. */
  lemma RetryDuringOutage(cfg: Settings, c: Call, crew: seq<Call>) returns (ss: seq<State>, es: seq<Event>)
    requires Crew(cfg, c, crew) && cfg.retryMax >= 2 && cfg.breaker.window >= 0.0
    ensures IsRun(cfg, ss, es) && OnTime(ss, es, 0.0) && |es| > 0 && LateAt(ss, |es| - 1, 0)
  {
    var s;
    ss, es, s := FirstBacksOff(cfg, c, crew);
    ss, es, s := TripsAtLast(cfg, ss, es, s, c, crew, 0);
    ResumeScene(cfg, s, 0, 0.0);
    ss, es := ReachNext(cfg, ss, es, s, Resume(0, 0.0));
  }

  ghost predicate NeverLate(ss: seq<State>) {
    forall k: nat, id: nat :: !LateAt(ss, k, id)
  }

  /** If a server that has just started lets as many calls of a tool through as it takes to open
      the breaker, and one more, then no attempt of a tool ever starts while its breaker is open
      if and only if calls are not retried. */
  lemma NeverLateIff(cfg: Settings, c: Call, crew: seq<Call>)
    requires Crew(cfg, c, crew) && cfg.breaker.window >= 0.0
    ensures (forall ss, es :: IsRun(cfg, ss, es) ==> NeverLate(ss)) <==> cfg.retryMax < 2
  {
    if cfg.retryMax < 2 {
      forall ss, es | IsRun(cfg, ss, es) ensures NeverLate(ss) {
        forall k: nat, id: nat ensures !LateAt(ss, k, id) {
          if LateAt(ss, k, id) {
            LateAttemptsAreRetries(cfg, ss, es, k, id);
            assert false;
          }
        }
      }
    } else {
      var ss, es := RetryDuringOutage(cfg, c, crew);
      assert !NeverLate(ss);
    }
  }

  // ---------------------------------------------------------------------------------
  // Calls that a new server lets through
  // ---------------------------------------------------------------------------------

  function BucketOf(c: Call): string {
    TokenBucket.LimiterKey(c.tenant, ToolName(c))
  }

  /** Harmless calls of a tool whose buckets, if they are limited, hold a token. */
  ghost predicate Affordable(cfg: Settings, calls: seq<Call>, tokens: int) {
    forall i :: 0 <= i < |calls| ==>
      && Harmless(cfg, calls[i])
      && (cfg.rateLimited ==> TokenBucket.QuotaFor(cfg.quota, ToolName(calls[i])).capacity >= tokens)
  }

  /** Calls of as many tenants need one token each. */
  lemma {:induction false} FreshBucketsPass(cfg: Settings, g: Guards, calls: seq<Call>)
    requires Affordable(cfg, calls, 1)
    requires forall i :: 0 <= i < |calls| ==> BucketOf(calls[i]) !in g.buckets
    requires forall i, j :: 0 <= i < j < |calls| ==> BucketOf(calls[i]) != BucketOf(calls[j])
    ensures AllPass(cfg, g, calls)
    decreases |calls|
  {
    if calls != [] {
      var c := calls[0];
      GuardsPass(cfg, INITIAL.(guards := g), c, 0.0);
      FreshBucketsPass(cfg, Guarded(cfg, g, c, 0.0).0, calls[1..]);
    }
  }

  /** Calls of one tenant need a burst. */
  lemma {:induction false} BurstPasses(cfg: Settings, s: State, calls: seq<Call>, c: Call)
    requires Affordable(cfg, calls, 1) && Room(cfg, s, c, 0.0, |calls|)
    requires forall i :: 0 <= i < |calls| ==> calls[i].tenant == c.tenant && calls[i].tool == c.tool
    ensures AllPass(cfg, s.guards, calls)
    decreases |calls|
  {
    if calls != [] {
      GuardsPass(cfg, s, calls[0], 0.0);
      var t := s.(guards := Guarded(cfg, s.guards, calls[0], 0.0).0);
      PassTakesToken(cfg, s, t, calls[0], 0.0, |calls| - 1);
      BurstPasses(cfg, t, calls[1..], c);
    }
  }

  /** So a tool whose burst is smaller than the breaker's threshold is covered by calls of several
      tenants, and one whose burst is larger by calls of one. */
  lemma CrewsExist(cfg: Settings, c: Call, crew: seq<Call>)
    requires |crew| == Needed(cfg) && forall i :: 0 <= i < |crew| ==> Mate(cfg, c, crew[i])
    requires Affordable(cfg, [c] + crew, 1)
    requires
      || (forall i, j :: 0 <= i < j < |[c] + crew| ==> BucketOf(([c] + crew)[i]) != BucketOf(([c] + crew)[j]))
      || ((forall i :: 0 <= i < |crew| ==> crew[i].tenant == c.tenant) && Affordable(cfg, [c], Needed(cfg) + 1))
    ensures Crew(cfg, c, crew)
  {
    var calls := [c] + crew;
    assert Harmless(cfg, calls[0]);
    if forall i, j :: 0 <= i < j < |calls| ==> BucketOf(calls[i]) != BucketOf(calls[j]) {
      FreshBucketsPass(cfg, INITIAL.guards, calls);
    } else {
      BurstPasses(cfg, INITIAL, calls, c);
    }
  }
}
