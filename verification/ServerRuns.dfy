/**
  Every interleaving of dispatched calls through the whole server.

  A call suspends only while it sleeps behind another caller of its cache key, while its tool
  runs, and while it backs off before a retry; each event below is an uninterrupted stretch
  between two of these, or part of one. The state embeds the systems of modules SingleFlight
  and BreakerRuns, so what they prove of their runs carries over (modules ServerParts and
  ServerSafety). One clock serves all components and never goes back.
*/
module ServerRuns {
  import opened Errors
  import opened Server
  import opened CacheTransparency
  import BucketRuns
  import Approval
  import CacheManager
  import CacheFreshness
  import SingleFlight
  import CircuitBreaker
  import BreakerRuns
  import Retry
  import Atba

  /** Where a call is. A running or pausing call is cut at `until`. */
  datatype Stage =
    | Refused(error: ToolError)
    | AtCache
    | Ready(since: real)
    | Running(until: real)
    | Pausing(until: real, wakeAt: real)
    | Done(outcome: Outcome<Response>)

  /** A call and its account: how many attempts it started, how often and how long it was to back
      off, how its attempts ended, how many failures it gave its breaker, and how long the
      approval log was when it began. */
  datatype Flight = Flight(
    call: Call, begun: real, approvalsSeen: nat, stage: Stage, launched: real, attempts: nat, pauses: nat,
    pausedMs: real, results: seq<Outcome<Response>>, blames: nat)

  datatype State = State(
    guards: Guards, limiterLog: seq<BucketRuns.Call>, approvalLog: seq<Approval.Event>,
    cache: SingleFlight.System<Response>, breakers: map<string, BreakerRuns.System>, samples: map<string, seq<real>>,
    flights: seq<Flight>, clock: real)

  /** How an attempt of a tool ends; a crash is any exception but a ToolError. */
  datatype Execution = Answer(body: string) | Failure(error: ToolError) | Crash

  datatype Event =
    | Begin(call: Call, at: real)
    | Wake(id: nat, at: real)
    | Launch(id: nat, at: real)
    | AttemptEnds(id: nat, execution: Execution, jitterMs: real, at: real)
    | Resume(id: nat, at: real)
    | Expire(id: nat, at: real)
    | Abandon(id: nat, at: real)
    | Decide(approvalId: string, approve: bool, approver: string, at: real)
    | Direct(op: CacheFreshness.Op<Response>)

  const FRESH := BreakerRuns.System(CircuitBreaker.NEW_BREAKER, 0.0, map[], [], None)

  const INITIAL := State(
    Guards(map[], map[]), [], [], SingleFlight.System(CacheManager.Cache([], map[], map[], 0, 0), 0.0, map[]), map[],
    map[], [], 0.0)

  function At(e: Event): real {
    if e.Direct? then e.op.at else e.at
  }

  function SystemOf(s: State, tool: string): BreakerRuns.System {
    if tool in s.breakers then s.breakers[tool] else FRESH
  }

  function SamplesOf(s: State, tool: string): seq<real> {
    if tool in s.samples then s.samples[tool] else []
  }

  // ---------------------------------------------------------------------------------
  // Calls
  // ---------------------------------------------------------------------------------

  /** The most attempts a call makes: one for a destructive tool. */
  function Allowance(cfg: Settings, c: Call): nat {
    if Destructive(c) then 1 else if cfg.retryMax < 0 then 0 else cfg.retryMax
  }

  /** The timeout the server allots: it never begins a turn, so there is no budget. */
  function Allotted(s: State, tool: string): real {
    Atba.CallTimeout(None, Atba.P95(SamplesOf(s, tool), Atba.DEFAULT_P95_S), 0.0)
  }

  // ---------------------------------------------------------------------------------
  // What an event does
  // ---------------------------------------------------------------------------------

  /** A crash becomes a failure that is not retryable. Without attempts allowed there is none,
      and the retry loop's final assertion fails. */
  function ResultOf(f: Flight, x: Execution): Outcome<Response> {
    if f.attempts == 0 then Aborted
    else match x
      case Answer(body) => Returned(Response(RequestOf(f.call), body))
      case Failure(e) => Raised(e)
      case Crash => Raised(INTERNAL)
  }

  predicate Retries(cfg: Settings, f: Flight, x: Execution) {
    !Destructive(f.call) && !Retry.Stops(ResultOf(f, x), f.attempts, cfg.retryMax)
  }

  function Blank(o: Outcome<Response>): Outcome<()> {
    match o
    case Returned(_) => Returned(())
    case Raised(e) => Raised(e)
    case Aborted => Aborted
  }

  /** The breaker turns the call away. */
  predicate ShortCircuits(cfg: Settings, s: State, f: Flight, at: real) {
    CircuitBreaker.Entered(cfg.breaker, SystemOf(s, ToolName(f.call)).b, at).1.Rejected?
  }

  /** The event speaks of a call there is, or of none. */
  predicate Known(s: State, e: Event) {
    !e.Begin? && !e.Decide? && !e.Direct? ==> e.id < |s.flights|
  }

  /** The event a breaker sees, with the tool it guards. */
  function BreakerEvent(cfg: Settings, s: State, e: Event): Option<(string, BreakerRuns.Event)> {
    if !Known(s, e) then None
    else match e
    case Launch(id, at) => Some((ToolName(s.flights[id].call), BreakerRuns.Enter(id, at)))
    case AttemptEnds(id, x, _, at) =>
      if Retries(cfg, s.flights[id], x) then None
      else Some((ToolName(s.flights[id].call), BreakerRuns.Finish(id, at, Blank(ResultOf(s.flights[id], x)))))
    case Expire(id, at) => Some((ToolName(s.flights[id].call), BreakerRuns.Finish(id, at, Aborted)))
    case Abandon(id, at) =>
      if s.flights[id].stage.AtCache? then None
      else Some((ToolName(s.flights[id].call), BreakerRuns.Finish(id, at, Aborted)))
    case _ => None
  }

  /** The event the cache sees. */
  ghost function CacheEvent(cfg: Settings, s: State, e: Event): Option<SingleFlight.Event<Response>> {
    if !Known(s, e) then None
    else match e
    case Begin(c, at) =>
      if UsesCache(cfg, c) && Guarded(cfg, s.guards, c, at).1.None?
      then Some(SingleFlight.Arrive(|s.flights|, KeyOf(cfg, c), TtlOf(c), at)) else None
    case Direct(op) => Some(SingleFlight.Direct(op))
    case Decide(_, _, _, _) => None
    case Resume(_, _) => None
    case Wake(id, at) => Some(SingleFlight.Wake(id, at))
    case _ =>
      var f := s.flights[e.id];
      if !UsesCache(cfg, f.call) then None
      else match e
        case Launch(id, at) =>
          if ShortCircuits(cfg, s, f, at) then Some(SingleFlight.Return(id, Raised(CIRCUIT_OPEN), at)) else None
        case AttemptEnds(id, x, _, at) =>
          if Retries(cfg, f, x) then None else Some(SingleFlight.Return(id, ResultOf(f, x), at))
        case Expire(id, at) => Some(SingleFlight.Return(id, Raised(TIMED_OUT), at))
        case Abandon(id, at) =>
          if f.stage.AtCache? then Some(SingleFlight.Cancel(id, at)) else Some(SingleFlight.Return(id, Aborted, at))
        case _ => None
  }

  /** The event comes to a call that is at the point it speaks of, in time order. */
  predicate Expected(cfg: Settings, s: State, e: Event) {
    && At(e) >= s.clock
    && Known(s, e)
    && match e
       case Wake(id, _) => s.flights[id].stage.AtCache?
       case Launch(id, _) => s.flights[id].stage.Ready?
       case AttemptEnds(id, _, jitterMs, _) =>
         s.flights[id].stage.Running?
         && 0.0 <= jitterMs <= Retry.Cap(if s.flights[id].attempts == 0 then 1 else s.flights[id].attempts,
                                         cfg.retryBaseMs, Retry.MAX_DELAY_MS) as real
       case Resume(id, at) => s.flights[id].stage.Pausing? && at >= s.flights[id].stage.wakeAt
       case Expire(id, at) =>
         (s.flights[id].stage.Running? || s.flights[id].stage.Pausing?) && at >= s.flights[id].stage.until
       case Abandon(id, _) =>
         s.flights[id].stage.AtCache? || s.flights[id].stage.Running? || s.flights[id].stage.Pausing?
       case Direct(op) => !op.SetOp?
       case _ => true
  }

  /** The components can take it. */
  ghost predicate Enabled(cfg: Settings, s: State, e: Event) {
    && Expected(cfg, s, e)
    && (CacheEvent(cfg, s, e).Some? ==> SingleFlight.Enabled(s.cache, CacheEvent(cfg, s, e).value))
    && (BreakerEvent(cfg, s, e).Some? ==>
          BreakerRuns.Enabled(SystemOf(s, BreakerEvent(cfg, s, e).value.0), BreakerEvent(cfg, s, e).value.1))
  }

  ghost function GuardsAfter(cfg: Settings, s: State, e: Event): Guards {
    match e
    case Begin(c, at) => Guarded(cfg, s.guards, c, at).0
    case Decide(id, approve, approver, at) =>
      var state := if approve then Approval.Approved else Approval.Denied;
      s.guards.(approvals := Approval.Transitioned(s.guards.approvals, id, state, approver, at).0)
    case _ => s.guards
  }

  /** The call asks the limiter. */
  ghost predicate AsksLimiter(cfg: Settings, c: Call) {
    cfg.rateLimited && Screened(cfg, c).None?
  }

  /** The call asks the approval gate. */
  ghost predicate AsksApproval(cfg: Settings, s: State, c: Call, at: real) {
    NeedsApproval(cfg, c) && Screened(cfg, c).None? && Limited(cfg, s.guards, c, at).1.None?
  }

  ghost function LimiterLogAfter(cfg: Settings, s: State, e: Event): seq<BucketRuns.Call> {
    if e.Begin? && AsksLimiter(cfg, e.call)
    then s.limiterLog + [BucketRuns.Call(e.call.tenant, ToolName(e.call), 1, Millis(e.at))]
    else s.limiterLog
  }

  ghost function ApprovalLogAfter(cfg: Settings, s: State, e: Event): seq<Approval.Event> {
    match e
    case Begin(c, at) =>
      if AsksApproval(cfg, s, c, at)
      then s.approvalLog + [Approval.Enforce(ApprovalRequest(c), c.subject, c.createdAt, at)]
      else s.approvalLog
    case Decide(id, approve, approver, at) => s.approvalLog + [Approval.Decide(id, approve, approver, at)]
    case _ => s.approvalLog
  }

  ghost function CacheAfter(cfg: Settings, s: State, e: Event): SingleFlight.System<Response>
    requires Enabled(cfg, s, e)
  {
    match CacheEvent(cfg, s, e)
    case None => s.cache
    case Some(ce) => SingleFlight.Next(cfg.cache, s.cache, ce)
  }

  ghost function BreakersAfter(cfg: Settings, s: State, e: Event): map<string, BreakerRuns.System>
    requires Enabled(cfg, s, e)
  {
    match BreakerEvent(cfg, s, e)
    case None => s.breakers
    case Some((tool, be)) => s.breakers[tool := BreakerRuns.Next(cfg.breaker, SystemOf(s, tool), be)]
  }

  /** Every breaker call that ends, or is turned away, leaves its duration as a latency sample. */
  ghost function SamplesAfter(cfg: Settings, s: State, e: Event): map<string, seq<real>>
    requires Enabled(cfg, s, e)
  {
    match BreakerEvent(cfg, s, e)
    case None => s.samples
    case Some((tool, be)) =>
      var f := s.flights[e.id];
      if e.Launch? && !ShortCircuits(cfg, s, f, e.at) then s.samples
      else
        var duration := if e.Launch? then 0.0 else e.at - f.launched;
        s.samples[tool := Atba.Recorded(SamplesOf(s, tool), duration, Atba.WINDOW)]
  }

  /** Where a caller of the cache is. */
  function StageAt(p: SingleFlight.Phase<Response>, at: real): Stage {
    match p
    case Computing(_, _) => Ready(at)
    case Waiting(_, _) => AtCache
    case Done(outcome, _) => Stage.Done(outcome)
  }

  ghost function NewFlight(cfg: Settings, s: State, c: Call, at: real): Flight
    requires Enabled(cfg, s, Begin(c, at))
  {
    var refusal := Guarded(cfg, s.guards, c, at).1;
    var stage := if refusal.Some? then Refused(refusal.value)
                 else if UsesCache(cfg, c) then StageAt(CacheAfter(cfg, s, Begin(c, at)).callers[|s.flights|].phase, at)
                 else Ready(at);
    Flight(c, at, |s.approvalLog|, stage, at, 0, 0, 0.0, [], 0)
  }

  ghost function FlightAfter(cfg: Settings, s: State, e: Event): Flight
    requires Enabled(cfg, s, e) && !e.Begin? && !e.Decide? && !e.Direct?
  {
    var f := s.flights[e.id];
    match e
    case Wake(id, at) => f.(stage := StageAt(CacheAfter(cfg, s, e).callers[id].phase, at))
    case Launch(id, at) =>
      if ShortCircuits(cfg, s, f, at) then f.(stage := Stage.Done(Raised(CIRCUIT_OPEN)))
      else f.(stage := Running(at + Allotted(s, ToolName(f.call))), launched := at,
              attempts := if Allowance(cfg, f.call) > 0 then 1 else 0)
    case AttemptEnds(id, x, jitterMs, at) =>
      var g := if f.attempts == 0 then f else f.(results := f.results + [ResultOf(f, x)]);
      if Retries(cfg, f, x) then
        g.(stage := Pausing(f.stage.until, at + jitterMs / 1000.0), pauses := f.pauses + 1,
           pausedMs := f.pausedMs + jitterMs)
      else
        g.(stage := Stage.Done(ResultOf(f, x)), blames := f.blames + if CountedFailure(ResultOf(f, x)) then 1 else 0)
    case Resume(id, at) => f.(stage := Running(f.stage.until), attempts := f.attempts + 1)
    case Expire(id, at) => f.(stage := Stage.Done(Raised(TIMED_OUT)))
    case Abandon(id, at) => f.(stage := Stage.Done(Aborted))
  }

  ghost function FlightsAfter(cfg: Settings, s: State, e: Event): seq<Flight>
    requires Enabled(cfg, s, e)
  {
    match e
    case Begin(c, at) => s.flights + [NewFlight(cfg, s, c, at)]
    case Decide(_, _, _, _) => s.flights
    case Direct(_) => s.flights
    case _ => s.flights[e.id := FlightAfter(cfg, s, e)]
  }

  ghost function Next(cfg: Settings, s: State, e: Event): State
    requires Enabled(cfg, s, e)
  {
    State(GuardsAfter(cfg, s, e), LimiterLogAfter(cfg, s, e), ApprovalLogAfter(cfg, s, e), CacheAfter(cfg, s, e),
          BreakersAfter(cfg, s, e), SamplesAfter(cfg, s, e), FlightsAfter(cfg, s, e), At(e))
  }

  ghost predicate StepAt(cfg: Settings, ss: seq<State>, es: seq<Event>, i: nat)
    requires i < |es| < |ss|
  {
    Enabled(cfg, ss[i], es[i]) && ss[i + 1] == Next(cfg, ss[i], es[i])
  }

  ghost predicate IsRun(cfg: Settings, ss: seq<State>, es: seq<Event>) {
    && |ss| == |es| + 1
    && ss[0] == INITIAL
    && forall i :: 0 <= i < |es| ==> StepAt(cfg, ss, es, i)
  }
}
