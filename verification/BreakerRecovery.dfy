/**
  How a circuit breaker comes back: what moves it between its phases, which entries it turns away,
  and that a probe that succeeds restores service until the breaker next trips.
*/
module BreakerRecovery {
  import opened Errors
  import opened CircuitBreaker
  import opened BreakerRuns

  // ---------------------------------------------------------------------------------
  // What moves the breaker
  // ---------------------------------------------------------------------------------

  /** A probe in flight ends with a value while the breaker is half-open. */
  predicate ProbeSucceeds(s: System, e: Event) {
    e.Finish? && e.id in s.calls && s.calls[e.id].probe && e.outcome.Returned? && s.b.phase.HalfOpen?
  }

  /** Nothing but a probe that succeeds closes the breaker, and it does, with an empty window. */
  lemma ClosesIff(cfg: Config, ss: seq<System>, es: seq<Event>, i: nat)
    requires IsRun(cfg, ss, es) && i < |es|
    ensures !ss[i].b.phase.Closed? && ss[i + 1].b.phase.Closed? <==> ProbeSucceeds(ss[i], es[i])
    ensures ProbeSucceeds(ss[i], es[i]) ==> ss[i + 1].b.failures == [] && !ss[i + 1].b.probe
  {
    assert Enabled(ss[i], es[i]) && ss[i + 1] == Next(cfg, ss[i], es[i]);
  }

  /** A half-open breaker opens exactly when a call ends in a counted failure, probe or not. */
  lemma ReopensIff(cfg: Config, ss: seq<System>, es: seq<Event>, i: nat)
    requires IsRun(cfg, ss, es) && i < |es| && ss[i].b.phase.HalfOpen?
    ensures ss[i + 1].b.phase.Open? <==> Fails(es[i])
    ensures Fails(es[i]) ==> ss[i + 1].b.openedAt == es[i].at
  {
    assert Enabled(ss[i], es[i]) && ss[i + 1] == Next(cfg, ss[i], es[i]);
  }

  /** It half-opens exactly when a call comes to an open breaker no sooner than the recovery time
      after it opened. */
  lemma HalfOpensIff(cfg: Config, ss: seq<System>, es: seq<Event>, i: nat)
    requires IsRun(cfg, ss, es) && i < |es|
    ensures !ss[i].b.phase.HalfOpen? && ss[i + 1].b.phase.HalfOpen? <==>
            es[i].Enter? && ss[i].b.phase.Open? && es[i].at >= ss[i].b.openedAt + cfg.recovery
  {
    assert Enabled(ss[i], es[i]) && ss[i + 1] == Next(cfg, ss[i], es[i]);
  }

  // ---------------------------------------------------------------------------------
  // Which entries are turned away
  // ---------------------------------------------------------------------------------

  /** The time of the last trip among the first n events. */
  ghost function LastTrip(ss: seq<System>, es: seq<Event>, n: nat): Option<real>
    requires n <= |es| < |ss|
  {
    if n == 0 then None else if Trips(ss, n - 1) then Some(es[n - 1].at) else LastTrip(ss, es, n - 1)
  }

  /** Once it has tripped, a breaker remembers when it last did. */
  lemma {:induction false} OpenedAtIsLastTrip(cfg: Config, ss: seq<System>, es: seq<Event>, n: nat)
    requires IsRun(cfg, ss, es) && n <= |es|
    ensures ss[n].b.trips == 0 ==> ss[n].b.phase.Closed?
    ensures ss[n].b.trips > 0 ==> LastTrip(ss, es, n) == Some(ss[n].b.openedAt)
  {
    if n > 0 {
      OpenedAtIsLastTrip(cfg, ss, es, n - 1);
      assert Enabled(ss[n - 1], es[n - 1]) && ss[n] == Next(cfg, ss[n - 1], es[n - 1]);
    }
  }

  ghost predicate ProbeInFlight(s: System) {
    exists id :: id in s.calls && s.calls[id].probe
  }

  /** In any run an entry is turned away exactly when the breaker is open and less than the recovery
      time has passed since its last trip, or half-open with its flag up. */
  lemma TurnedAwayIff(cfg: Config, ss: seq<System>, es: seq<Event>, i: nat)
    requires IsRun(cfg, ss, es) && i < |es| && es[i].Enter?
    ensures !Starts(ss, es, i) <==>
            || (ss[i].b.phase.Open? && LastTrip(ss, es, i).Some? && es[i].at < LastTrip(ss, es, i).value + cfg.recovery)
            || (ss[i].b.phase.HalfOpen? && ss[i].b.probe)
  {
    OpenedAtIsLastTrip(cfg, ss, es, i);
    assert Enabled(ss[i], es[i]) && ss[i + 1] == Next(cfg, ss[i], es[i]);
  }

  /** If calls are shorter than the recovery time, that is when a probe is in flight, or the last
      trip was less than the recovery time ago and nothing has closed the breaker since. */
  lemma TurnedAwayByProbe(cfg: Config, ss: seq<System>, es: seq<Event>, i: nat)
    requires IsRun(cfg, ss, es) && ShortCalls(cfg, ss, es) && i < |es| && es[i].Enter?
    ensures !Starts(ss, es, i) <==>
            || (ss[i].b.phase.Open? && LastTrip(ss, es, i).Some? && es[i].at < LastTrip(ss, es, i).value + cfg.recovery)
            || ProbeInFlight(ss[i])
  {
    TurnedAwayIff(cfg, ss, es, i);
    ShortCallsExclusive(cfg, ss, es, i);
  }

  // ---------------------------------------------------------------------------------
  // Recovery
  // ---------------------------------------------------------------------------------

  lemma {:induction false} ClosedUntilItTrips(cfg: Config, ss: seq<System>, es: seq<Event>, i: nat, j: nat)
    requires IsRun(cfg, ss, es) && i <= j <= |es| && ss[i].b.phase.Closed?
    ensures ss[i].b.trips <= ss[j].b.trips && (ss[j].b.trips == ss[i].b.trips ==> ss[j].b.phase.Closed?)
  {
    if i < j {
      ClosedUntilItTrips(cfg, ss, es, i, j - 1);
      assert Enabled(ss[j - 1], es[j - 1]) && ss[j] == Next(cfg, ss[j - 1], es[j - 1]);
    }
  }

  /** After a probe that succeeds every entry starts its function until the breaker next trips. */
  lemma SuccessRestores(cfg: Config, ss: seq<System>, es: seq<Event>, i: nat, j: nat)
    requires IsRun(cfg, ss, es) && i < j < |es| && ProbeSucceeds(ss[i], es[i])
    requires es[j].Enter? && ss[j].b.trips == ss[i].b.trips
    ensures Starts(ss, es, j) && !ss[j + 1].calls[es[j].id].probe
  {
    ClosesIff(cfg, ss, es, i);
    assert Enabled(ss[i], es[i]) && ss[i + 1] == Next(cfg, ss[i], es[i]);
    ClosedUntilItTrips(cfg, ss, es, i + 1, j);
    assert Enabled(ss[j], es[j]) && ss[j + 1] == Next(cfg, ss[j], es[j]);
  }

  /** If the breaker only half-opens with nothing in flight, whatever probe returns a value succeeds. */
  lemma ProbeReturnIsSuccess(cfg: Config, ss: seq<System>, es: seq<Event>, i: nat)
    requires IsRun(cfg, ss, es) && Drained(cfg, ss, es) && i < |es|
    requires es[i].Finish? && es[i].id in ss[i].calls && ss[i].calls[es[i].id].probe && es[i].outcome.Returned?
    ensures ProbeSucceeds(ss[i], es[i]) && ss[i + 1].b.phase.Closed?
  {
    DrainedSettles(cfg, ss, es, i);
    ClosesIff(cfg, ss, es, i);
  }

  lemma {:induction false} ProbeStays(cfg: Config, ss: seq<System>, es: seq<Event>, i: nat, j: nat, id: nat)
    requires IsRun(cfg, ss, es) && i <= j <= |es| && id in ss[i].calls
    requires forall m :: i <= m < j ==> !(es[m].Finish? && es[m].id == id)
    ensures id in ss[j].calls && ss[j].calls[id] == ss[i].calls[id]
  {
    if i < j {
      ProbeStays(cfg, ss, es, i, j - 1, id);
      assert Enabled(ss[j - 1], es[j - 1]) && ss[j] == Next(cfg, ss[j - 1], es[j - 1]);
    }
  }

  /** The whole way back: a call comes to an open breaker the recovery time after the last trip, and
      when it returns a value the breaker closes. */
  lemma Recovers(cfg: Config, ss: seq<System>, es: seq<Event>, i: nat, j: nat)
    requires IsRun(cfg, ss, es) && Drained(cfg, ss, es) && i < j < |es| && es[i].Enter? && ss[i].b.phase.Open?
    requires LastTrip(ss, es, i).Some? ==> es[i].at >= LastTrip(ss, es, i).value + cfg.recovery
    requires es[j].Finish? && es[j].id == es[i].id && es[j].outcome.Returned?
    requires forall m :: i < m < j ==> !(es[m].Finish? && es[m].id == es[i].id)
    ensures Starts(ss, es, i) && ss[i + 1].b.phase.HalfOpen? && ss[j + 1].b.phase.Closed?
  {
    OpenedAtIsLastTrip(cfg, ss, es, i);
    TurnedAwayIff(cfg, ss, es, i);
    assert Enabled(ss[i], es[i]) && ss[i + 1] == Next(cfg, ss[i], es[i]);
    ProbeStays(cfg, ss, es, i + 1, j, es[i].id);
    ProbeReturnIsSuccess(cfg, ss, es, j);
  }

  lemma ProbeHappens(cfg: Config, recovery: real, window: real) returns (ss: seq<System>, es: seq<Event>)
    requires recovery > 0.0 && cfg == Config(1, recovery, window)
    ensures IsRun(cfg, ss, es) && Drained(cfg, ss, es)
    ensures es == [Enter(0, 0.0), Finish(0, 0.0, TRANSIENT), Enter(1, recovery)]
    ensures ss[2].b.phase.Open? && ss[3].b == Breaker(HalfOpen, 0.0, [], true, 1)
    ensures ss[3].calls == map[1 := Call(recovery, true)] && ss[3].clock == recovery
  {
    es := [Enter(0, 0.0), Finish(0, 0.0, TRANSIENT), Enter(1, recovery)];
    var s0 := System(NEW_BREAKER, 0.0, map[], [], None);
    var s1 := Next(cfg, s0, es[0]);
    var s2 := Next(cfg, s1, es[1]);
    assert s2.b == Breaker(Open, 0.0, [], false, 1) && s2.calls == map[];
    ss := [s0, s1, s2, Next(cfg, s2, es[2])];
  }

  /** Such a run: a failure trips the breaker, a probe a recovery time later succeeds, and the next
      two calls are both served at once. */
  lemma RecoveryHappens(recovery: real, window: real) returns (cfg: Config, ss: seq<System>, es: seq<Event>)
    requires recovery > 0.0
    ensures cfg == Config(1, recovery, window) && IsRun(cfg, ss, es) && Drained(cfg, ss, es) && |es| == 6
    ensures ss[2].b.phase.Open? && ProbeSucceeds(ss[3], es[3]) && es[2].at == es[1].at + recovery
    ensures ss[6].calls.Keys == {2, 3} && ss[6].b.phase.Closed? && es[4].at == es[5].at == es[3].at
  {
    cfg := Config(1, recovery, window);
    ss, es := ProbeHappens(cfg, recovery, window);
    var more := [Finish(1, recovery, Returned(())), Enter(2, recovery), Enter(3, recovery)];
    var s4 := Next(cfg, ss[3], more[0]);
    assert s4.b == Breaker(Closed, 0.0, [], false, 1) && s4.calls == map[];
    var s5 := Next(cfg, s4, more[1]);
    assert s5.b.phase.Closed? && s5.calls == map[2 := Call(recovery, false)];
    ss, es := ss + [s4, s5, Next(cfg, s5, more[2])], es + more;
  }
}
