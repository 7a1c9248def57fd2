/**
  How a tool comes back into service: when the server turns its calls away, and what a probe that
  answers restores.
*/
module ServerRecovery {
  import opened Errors
  import opened Server
  import opened ServerRuns
  import opened ServerParts
  import opened ServerSafety
  import opened ServerAccounts
  import BreakerRecovery
  import BreakerRuns

  /** The event comes to a call of the tool that is ready to run. */
  predicate Attempts(s: State, e: Event, tool: string) {
    e.Launch? && e.id < |s.flights| && ToolName(s.flights[e.id].call) == tool
  }

  lemma AttemptIsEntry(cfg: Settings, ss: seq<State>, es: seq<Event>, tool: string, steps: seq<nat>,
                       bs: seq<BreakerRuns.System>, bes: seq<BreakerRuns.Event>, j: nat) returns (q: nat)
    requires IsRun(cfg, ss, es) && BreakerProjection(cfg, ss, es, tool, |es|, steps, bs, bes)
    requires j < |es| && Attempts(ss[j], es[j], tool)
    ensures q < |steps| && steps[q] == j && bes[q] == BreakerRuns.Enter(es[j].id, es[j].at)
    ensures bs[q] == SystemOf(ss[j], tool) && bs[q + 1] == SystemOf(ss[j + 1], tool)
    ensures BreakerRuns.Starts(bs, bes, q) <==> Launches(cfg, ss[j], es[j], tool)
    ensures es[j].id < |ss[j + 1].flights|
    ensures Launches(cfg, ss[j], es[j], tool) ==> ss[j + 1].flights[es[j].id].stage.Running?
    ensures !Launches(cfg, ss[j], es[j], tool) ==>
              ss[j + 1].flights[es[j].id].stage == Stage.Done(Raised(CIRCUIT_OPEN))
  {
    StepOf(cfg, ss, es, j);
    SystemStep(cfg, ss[j], es[j], tool);
    AlwaysTied(cfg, ss, es, j);
    assert FlightAtBreaker(ss[j], es[j].id);
    q := PlaceOf(cfg, ss, es, tool, |es|, steps, bs, bes, j);
  }

  /** When timeouts and lag stay below the recovery time, a call of the tool is turned away with the
      breaker's error exactly when another is being tried as a probe, or the breaker is open and
      was opened or re-armed less than the recovery time ago. */
  lemma TurnedAwayIff(cfg: Settings, ss: seq<State>, es: seq<Event>, tool: string, lag: real, j: nat)
    requires IsRun(cfg, ss, es) && OnTime(ss, es, lag) && j < |es| && Attempts(ss[j], es[j], tool)
    requires AllottedBelow(ss, es, OfTool(tool), cfg.breaker.recovery - lag)
    ensures es[j].id < |ss[j + 1].flights|
    ensures var b := SystemOf(ss[j], tool).b;
            ss[j + 1].flights[es[j].id].stage == Stage.Done(Raised(CIRCUIT_OPEN)) <==>
            BreakerRecovery.ProbeInFlight(SystemOf(ss[j], tool)) ||
            (b.phase.Open? && es[j].at < b.openedAt + cfg.breaker.recovery)
  {
    var steps, bs, bes := BreakerRefines(cfg, ss, es, tool, |es|);
    var q := AttemptIsEntry(cfg, ss, es, tool, steps, bs, bes, j);
    ShortInServer(cfg, ss, es, tool, lag, |es|, steps, bs, bes);
    BreakerRecovery.TurnedAwayByProbe(cfg.breaker, bs, bes, q);
    BreakerRecovery.OpenedAtIsLastTrip(cfg.breaker, bs, bes, q);
  }

  /** The event ends a call of the tool with an answer of its backend, while the breaker is half-open
      and this call is its probe. */
  ghost predicate ProbeAnswers(s: State, e: Event, tool: string) {
    && e.AttemptEnds? && e.execution.Answer? && e.id < |s.flights| && ToolName(s.flights[e.id].call) == tool
    && e.id in SystemOf(s, tool).calls && SystemOf(s, tool).calls[e.id].probe && SystemOf(s, tool).b.phase.HalfOpen?
  }

  lemma AnswerIsSuccess(cfg: Settings, ss: seq<State>, es: seq<Event>, tool: string, steps: seq<nat>,
                        bs: seq<BreakerRuns.System>, bes: seq<BreakerRuns.Event>, i: nat) returns (p: nat)
    requires IsRun(cfg, ss, es) && BreakerProjection(cfg, ss, es, tool, |es|, steps, bs, bes) && cfg.retryMax >= 1
    requires i < |es| && ProbeAnswers(ss[i], es[i], tool)
    ensures p < |steps| && steps[p] == i && BreakerRecovery.ProbeSucceeds(bs[p], bes[p])
    ensures bs[p] == SystemOf(ss[i], tool) && bs[p + 1] == SystemOf(ss[i + 1], tool)
  {
    StepOf(cfg, ss, es, i);
    AlwaysAccounted(cfg, ss, es, i, es[i].id);
    p := PlaceOf(cfg, ss, es, tool, |es|, steps, bs, bes, i);
  }

  /** In every run, when a probe is answered the breaker closes, and whatever call of the tool comes
      from then on is launched, until the breaker next trips. */
  lemma AnswerRestoresService(cfg: Settings, ss: seq<State>, es: seq<Event>, tool: string, i: nat, j: nat)
    requires IsRun(cfg, ss, es) && cfg.retryMax >= 1 && i < j < |es|
    requires ProbeAnswers(ss[i], es[i], tool) && Attempts(ss[j], es[j], tool)
    requires SystemOf(ss[j], tool).b.trips == SystemOf(ss[i], tool).b.trips
    ensures SystemOf(ss[i + 1], tool).b.phase.Closed? && SystemOf(ss[i + 1], tool).b.failures == []
    ensures es[j].id < |ss[j + 1].flights| && ss[j + 1].flights[es[j].id].stage.Running?
  {
    var steps, bs, bes := BreakerRefines(cfg, ss, es, tool, |es|);
    var p := AnswerIsSuccess(cfg, ss, es, tool, steps, bs, bes, i);
    var q := AttemptIsEntry(cfg, ss, es, tool, steps, bs, bes, j);
    BreakerRecovery.ClosesIff(cfg.breaker, bs, bes, p);
    InOrder(steps, p, q);
    BreakerRecovery.SuccessRestores(cfg.breaker, bs, bes, p, q);
  }

  lemma MovesByTouch(cfg: Settings, ss: seq<State>, es: seq<Event>, tool: string, i: nat)
    requires IsRun(cfg, ss, es) && i < |es| && SystemOf(ss[i + 1], tool) != SystemOf(ss[i], tool)
    ensures Touches(cfg, ss[i], es[i], tool)
  {
    StepOf(cfg, ss, es, i);
    SystemStep(cfg, ss[i], es[i], tool);
  }

  lemma SuccessIsAnswer(cfg: Settings, s: State, e: Event, tool: string)
    requires Touches(cfg, s, e, tool)
    requires BreakerRecovery.ProbeSucceeds(SystemOf(s, tool), BreakerEvent(cfg, s, e).value.1)
    ensures ProbeAnswers(s, e, tool)
  {
  }

  /** And nothing else closes it. */
  lemma OnlyAnswersClose(cfg: Settings, ss: seq<State>, es: seq<Event>, tool: string, i: nat)
    requires IsRun(cfg, ss, es) && i < |es|
    requires !SystemOf(ss[i], tool).b.phase.Closed? && SystemOf(ss[i + 1], tool).b.phase.Closed?
    ensures ProbeAnswers(ss[i], es[i], tool)
  {
    var steps, bs, bes := BreakerRefines(cfg, ss, es, tool, |es|);
    MovesByTouch(cfg, ss, es, tool, i);
    var p := PlaceOf(cfg, ss, es, tool, |es|, steps, bs, bes, i);
    BreakerRecovery.ClosesIff(cfg.breaker, bs, bes, p);
    SuccessIsAnswer(cfg, ss[i], es[i], tool);
  }
}
