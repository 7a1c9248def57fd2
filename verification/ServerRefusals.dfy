/**
  Which calls the server refuses, and with which error, over every run and in the words of the
  call, the rules and the approvals.
*/
module ServerRefusals {
  import opened Errors
  import opened Server
  import opened ServerRuns
  import opened ServerParts
  import opened ServerAccess
  import opened ServerAccounts
  import Approval
  import BucketLaw
  import BucketRuns
  import CacheKeys
  import PolicyEngine
  import TokenBucket

  // ---------------------------------------------------------------------------------
  // The checks before the limiter
  // ---------------------------------------------------------------------------------

  /** The caller does not hold the scope itself, nor the scope that stands for all of its kind. */
  ghost predicate Missing(c: Call, scope: string) {
    scope !in c.held && !((exists rest :: scope == "tool:" + rest) && "tool:*:admin" in c.held)
  }

  ghost predicate LacksScope(c: Call, tool: Tool) {
    exists scope :: scope in tool.scopes && Missing(c, scope)
  }

  /** Some rule, denying or not, speaks of the call: its caller, its tenant, and its tool by name,
      both as the action and as the resource. */
  ghost predicate RuleSpeaks(cfg: Settings, c: Call, tool: Tool, deny: bool) {
    PolicyEngine.SomeSpeaks(cfg.upper, cfg.rules,
                            PolicyEngine.Request(c.subject, c.tenant, tool.name, tool.name, c.context), deny)
  }

  /** What the checks say of a call of a known tool with valid arguments. */
  ghost predicate ScreenSays(cfg: Settings, c: Call, tool: Tool, refusal: Option<ToolError>) {
    var lacks, denied, allowed :=
      LacksScope(c, tool), RuleSpeaks(cfg, c, tool, true), !cfg.defaultDeny || RuleSpeaks(cfg, c, tool, false);
    && (refusal == Some(NO_SCOPE) <==> lacks)
    && (refusal == Some(DENIED) <==> !lacks && denied)
    && (refusal == Some(NOT_AUTHORIZED) <==> !lacks && !denied && !allowed)
    && (refusal == Some(NO_HOST) <==> !lacks && !denied && allowed && !c.hostAllowed)
    && (refusal == None <==> !lacks && !denied && allowed && c.hostAllowed)
  }

  lemma ScopeHeld(held: seq<string>, scope: string)
    ensures HasScope(held, scope) <==>
            scope in held || ((exists rest :: scope == "tool:" + rest) && "tool:*:admin" in held)
  {
    if "tool:" <= scope {
      assert scope == "tool:" + scope[5..];
    }
  }

  lemma ScopedMeans(c: Call)
    requires c.tool.Some?
    ensures Scoped(c) <==> !LacksScope(c, c.tool.value)
  {
    var scopes := c.tool.value.scopes;
    forall scope ensures HasScope(c.held, scope) <==> !Missing(c, scope) {
      ScopeHeld(c.held, scope);
    }
    if scope :| scope in scopes && Missing(c, scope) {
      var i :| 0 <= i < |scopes| && scopes[i] == scope;
      assert !HasScope(c.held, scopes[i]);
    }
  }

  lemma ScreenMeans(cfg: Settings, c: Call)
    requires c.tool.Some? && c.fault.None?
    ensures ScreenSays(cfg, c, c.tool.value, Screened(cfg, c))
  {
    ScopedMeans(c);
    var d := Ruled(cfg, c);
    PolicyEngine.DecisionMeans(cfg.upper, cfg.rules, cfg.defaultDeny, PolicyRequest(c), d);
  }

  /** The last guards. */
  predicate ByLimiterOrGate(error: ToolError) {
    error == RATE_LIMITED || error == PENDING || error == APPROVAL_DENIED
  }

  /** A flight is refused as the checks said, or by the guards after them. */
  ghost predicate RefusedAs(cfg: Settings, f: Flight) {
    match Screened(cfg, f.call)
    case Some(error) => f.stage == Refused(error)
    case None => f.stage.Refused? ==> ByLimiterOrGate(f.stage.error)
  }

  lemma RefusedAsBegun(cfg: Settings, s: State, e: Event)
    requires Enabled(cfg, s, e) && e.Begin?
    ensures RefusedAs(cfg, NewFlight(cfg, s, e.call, e.at))
  {
  }

  lemma RefusedAsMoved(cfg: Settings, s: State, e: Event)
    requires Enabled(cfg, s, e) && !e.Begin? && !e.Decide? && !e.Direct?
    requires RefusedAs(cfg, s.flights[e.id]) && FlightAtCache(cfg, s, e.id) && FlightAtBreaker(s, e.id)
    ensures RefusedAs(cfg, FlightAfter(cfg, s, e))
  {
  }

  lemma {:induction false} AlwaysRefusedAs(cfg: Settings, ss: seq<State>, es: seq<Event>, n: nat, id: nat)
    requires IsRun(cfg, ss, es) && n <= |es| && id < |ss[n].flights|
    ensures RefusedAs(cfg, ss[n].flights[id])
  {
    if n > 0 {
      var s, e := ss[n - 1], es[n - 1];
      StepOf(cfg, ss, es, n - 1);
      if id < |s.flights| {
        AlwaysRefusedAs(cfg, ss, es, n - 1, id);
        AlwaysTied(cfg, ss, es, n - 1);
        FlightsKept(cfg, s, e, id);
        if Moves(e, id) {
          RefusedAsMoved(cfg, s, e);
        }
      } else {
        RefusedAsBegun(cfg, s, e);
      }
    }
  }

  /** The refusal the checks gave a flight, if it is one of theirs. */
  function RefusalOf(f: Flight): Option<ToolError> {
    if f.stage.Refused? && !ByLimiterOrGate(f.stage.error) then Some(f.stage.error) else None
  }

  /** In every run, whatever becomes of a call of a known tool with valid arguments, it was refused
      by the checks exactly as they say: for a scope held in neither way, by a denying rule, for
      want of an allowing one, or for its host. */
  lemma RefusalIff(cfg: Settings, ss: seq<State>, es: seq<Event>, n: nat, id: nat)
    requires IsRun(cfg, ss, es) && n <= |es| && id < |ss[n].flights|
    requires ss[n].flights[id].call.tool.Some? && ss[n].flights[id].call.fault.None?
    ensures var f := ss[n].flights[id];
            ScreenSays(cfg, f.call, f.call.tool.value, RefusalOf(f))
  {
    AlwaysRefusedAs(cfg, ss, es, n, id);
    ScreenMeans(cfg, ss[n].flights[id].call);
  }

  /** A call of no tool, or with faulty arguments, is refused for that. */
  lemma FaultyAreRefused(cfg: Settings, ss: seq<State>, es: seq<Event>, n: nat, id: nat)
    requires IsRun(cfg, ss, es) && n <= |es| && id < |ss[n].flights|
    ensures var f := ss[n].flights[id];
            && (f.call.tool.None? ==> f.stage == Refused(NOT_FOUND))
            && (f.call.tool.Some? && f.call.fault.Some? ==> f.stage == Refused(f.call.fault.value))
  {
    AlwaysRefusedAs(cfg, ss, es, n, id);
  }

  /** So whoever is not refused holds every scope of the tool, or it is one that the scope of
      administrators stands for, and they hold that. */
  lemma ScopesAreHeld(cfg: Settings, ss: seq<State>, es: seq<Event>, n: nat, id: nat, scope: string)
    requires IsRun(cfg, ss, es) && n <= |es| && id < |ss[n].flights| && !ss[n].flights[id].stage.Refused?
    requires ss[n].flights[id].call.tool.Some? && scope in ss[n].flights[id].call.tool.value.scopes
    ensures var held := ss[n].flights[id].call.held;
            scope in held || ("tool:*:admin" in held && exists rest :: scope == "tool:" + rest)
  {
    FaultyAreRefused(cfg, ss, es, n, id);
    RefusalIff(cfg, ss, es, n, id);
    assert !Missing(ss[n].flights[id].call, scope);
  }

  // ---------------------------------------------------------------------------------
  // The approval gate
  // ---------------------------------------------------------------------------------

  /** Event k begins a call of a destructive tool that needs an approval, and no other guard stops it. */
  ghost predicate ComesToGate(cfg: Settings, ss: seq<State>, es: seq<Event>, k: nat)
    requires k < |es| && |ss| == |es| + 1
  {
    && es[k].Begin? && |ss[k + 1].flights| == |ss[k].flights| + 1
    && cfg.approvalRequired && es[k].call.tool.Some? && es[k].call.tool.value.destructive && es[k].call.fault.None?
    && var stage := ss[k + 1].flights[|ss[k].flights|].stage;
       stage.Refused? ==> stage.error == PENDING || stage.error == APPROVAL_DENIED
  }

  /** The last decision that took effect on the record of this tenant, tool and arguments, if it was
      no more than an hour ago: Some(true) for an approval. */
  ghost function Standing(cfg: Settings, log: seq<Approval.Event>, c: Call, at: real): Option<bool>
    requires c.tool.Some?
  {
    var id := Approval.ApprovalId(cfg.digest, CacheKeys.Request(c.tenant, c.tool.value.name, c.args));
    var last := Approval.LastDecision(cfg.digest, log, id);
    if last.Some? && at <= log[last.value].at + 3600.0 then Some(log[last.value].approve)
    else None
  }

  lemma GateRules(cfg: Settings, s: State, c: Call, at: real)
    requires ApprovalsTied(cfg, s) && s.clock <= at && c.tool.Some?
    ensures var id := Approval.ApprovalId(cfg.digest, CacheKeys.Request(c.tenant, c.tool.value.name, c.args));
            var ruling := Approval.Enforced(s.guards.approvals, id, c.subject, c.createdAt, at).1;
            && (ruling.Pass? <==> Standing(cfg, s.approvalLog, c, at) == Some(true))
            && (ruling.Refused? <==> Standing(cfg, s.approvalLog, c, at) == Some(false))
            && (ruling.AwaitApproval? <==> Standing(cfg, s.approvalLog, c, at) == None)
  {
    var r := CacheKeys.Request(c.tenant, c.tool.value.name, c.args);
    Approval.PassIffApproved(cfg.digest, s.approvalLog, r, c.subject, c.createdAt, at);
    Approval.RefusedIffDenied(cfg.digest, s.approvalLog, r, c.subject, c.createdAt, at);
    Approval.WaitsIffUndecided(cfg.digest, s.approvalLog, r, c.subject, c.createdAt, at);
  }

  lemma GateDecides(cfg: Settings, s: State, c: Call, at: real)
    requires Enabled(cfg, s, Begin(c, at)) && c.tool.Some? && c.tool.value.destructive && cfg.approvalRequired
    requires c.fault.None?
    requires var stage := NewFlight(cfg, s, c, at).stage;
             stage.Refused? ==> stage.error == PENDING || stage.error == APPROVAL_DENIED
    ensures var id := Approval.ApprovalId(cfg.digest, CacheKeys.Request(c.tenant, c.tool.value.name, c.args));
            var ruling, stage := Approval.Enforced(s.guards.approvals, id, c.subject, c.createdAt, at).1,
                                 NewFlight(cfg, s, c, at).stage;
            && (!stage.Refused? <==> ruling.Pass?)
            && (stage == Refused(APPROVAL_DENIED) <==> ruling.Refused?)
            && (stage == Refused(PENDING) <==> ruling.AwaitApproval?)
  {
  }

  /** In every run, a call of a destructive tool that no other guard stops passes exactly if the last
      decision on its record, within the hour, was an approval; it is refused with approval_denied
      exactly if that was a denial, and told to wait exactly if there is none. */
  lemma GateIff(cfg: Settings, ss: seq<State>, es: seq<Event>, k: nat)
    requires IsRun(cfg, ss, es) && k < |es| && ComesToGate(cfg, ss, es, k)
    ensures var stage, standing := ss[k + 1].flights[|ss[k].flights|].stage,
                                   Standing(cfg, ss[k].approvalLog, es[k].call, es[k].at);
            && (!stage.Refused? <==> standing == Some(true))
            && (stage == Refused(APPROVAL_DENIED) <==> standing == Some(false))
            && (stage == Refused(PENDING) <==> standing == None)
  {
    StepOf(cfg, ss, es, k);
    AlwaysApprovalsTied(cfg, ss, es, k);
    GateRules(cfg, ss[k], es[k].call, es[k].at);
    GateDecides(cfg, ss[k], es[k].call, es[k].at);
  }

  lemma NoGate(cfg: Settings, s: State, c: Call, at: real)
    requires Enabled(cfg, s, Begin(c, at)) && c.fault.None?
    requires !(cfg.approvalRequired && c.tool.Some? && c.tool.value.destructive)
    ensures NewFlight(cfg, s, c, at).stage != Refused(PENDING)
    ensures NewFlight(cfg, s, c, at).stage != Refused(APPROVAL_DENIED)
    ensures Next(cfg, s, Begin(c, at)).guards.approvals == s.guards.approvals
  {
    if c.tool.Some? {
      ScreenMeans(cfg, c);
    }
  }

  /** A call that is not destructive, or under settings that ask for no approvals, neither is stopped by
      the gate nor leaves a record. */
  lemma GateLetsOthersBe(cfg: Settings, ss: seq<State>, es: seq<Event>, k: nat)
    requires IsRun(cfg, ss, es) && k < |es| && es[k].Begin? && es[k].call.fault.None?
    requires !(cfg.approvalRequired && es[k].call.tool.Some? && es[k].call.tool.value.destructive)
    ensures |ss[k + 1].flights| == |ss[k].flights| + 1
    ensures var stage := ss[k + 1].flights[|ss[k].flights|].stage;
            stage != Refused(PENDING) && stage != Refused(APPROVAL_DENIED)
    ensures ss[k + 1].guards.approvals == ss[k].guards.approvals
  {
    StepOf(cfg, ss, es, k);
    NoGate(cfg, ss[k], es[k].call, es[k].at);
  }

  // ---------------------------------------------------------------------------------
  // The limiter
  // ---------------------------------------------------------------------------------

  /** Event k begins a call of a tool, and the checks before the limiter let it through. */
  ghost predicate ComesToLimiter(cfg: Settings, ss: seq<State>, es: seq<Event>, k: nat)
    requires k < |es| && |ss| == |es| + 1
  {
    && es[k].Begin? && |ss[k + 1].flights| == |ss[k].flights| + 1 && es[k].call.tool.Some? && es[k].call.fault.None?
    && var stage := ss[k + 1].flights[|ss[k].flights|].stage;
       stage.Refused? ==> ByLimiterOrGate(stage.error)
  }

  lemma LimiterDecides(cfg: Settings, s: State, c: Call, at: real)
    requires Enabled(cfg, s, Begin(c, at)) && c.tool.Some? && c.fault.None?
    requires NewFlight(cfg, s, c, at).stage.Refused? ==> ByLimiterOrGate(NewFlight(cfg, s, c, at).stage.error)
    ensures NewFlight(cfg, s, c, at).stage == Refused(RATE_LIMITED) <==>
            cfg.rateLimited &&
            !TokenBucket.Acquired(cfg.quota, s.guards.buckets, c.tenant, c.tool.value.name, 1, Millis(at)).1.allowed
  {
    ScreenMeans(cfg, c);
  }

  lemma LogSorted(log: seq<BucketRuns.Call>, c: BucketRuns.Call)
    requires BucketRuns.TimesSorted(log) && forall i :: 0 <= i < |log| ==> log[i].nowMs <= c.nowMs
    ensures BucketRuns.TimesSorted(log + [c])
  {
  }

  lemma OneToolApart(log: seq<BucketRuns.Call>, tenant: string, tool: string)
    requires forall i :: 0 <= i < |log| ==> BucketRuns.Apart(log[i].tenant, log[i].tool, tenant, tool)
    ensures BucketRuns.OneTool(log, TokenBucket.LimiterKey(tenant, tool), tool)
  {
    forall i | 0 <= i < |log| && BucketRuns.Hits(log[i], TokenBucket.LimiterKey(tenant, tool))
      ensures log[i].tool == tool
    {
      BucketRuns.LimiterKeyInjective(log[i].tenant, tenant, log[i].tool, tool);
    }
  }

  lemma LogDecides(cfg: Settings, s: State, c: Call, at: real)
    requires LimiterTied(cfg, s) && s.clock <= at && c.tool.Some?
    requires BucketRuns.OneTool(s.limiterLog, TokenBucket.LimiterKey(c.tenant, c.tool.value.name), c.tool.value.name)
    ensures var tool, q := c.tool.value.name, TokenBucket.QuotaFor(cfg.quota, c.tool.value.name);
            TokenBucket.Acquired(cfg.quota, s.guards.buckets, c.tenant, tool, 1, Millis(at)).1.allowed <==>
            && 1 <= q.capacity
            && BucketLaw.FitsAll(cfg.quota, s.limiterLog, TokenBucket.LimiterKey(c.tenant, tool), q,
                                 |s.limiterLog|, Millis(at), 1.0)
  {
    var call := BucketRuns.Call(c.tenant, c.tool.value.name, 1, Millis(at));
    assert Millis(s.clock) <= Millis(at);
    LogSorted(s.limiterLog, call);
    BucketLaw.PassesIffItFits(cfg.quota, s.limiterLog, call);
    assert (s.limiterLog + [call])[..|s.limiterLog|] == s.limiterLog;
  }

  /** In every run, with colon-free tenants or tools, a call that the checks let through is refused
      with rate_limited exactly if the limiter is on and one more call does not fit: into the tool's
      capacity, or, with the tenant's calls it let through from some earlier one on, into the
      capacity and what the time since that one refills. */
  lemma RateLimitedIff(cfg: Settings, ss: seq<State>, es: seq<Event>, k: nat)
    requires IsRun(cfg, ss, es) && k < |es| && ComesToLimiter(cfg, ss, es, k)
    requires ApartFrom(es, es[k].call.tenant, es[k].call.tool.value.name)
    ensures var c, log := es[k].call, ss[k].limiterLog;
            var q := TokenBucket.QuotaFor(cfg.quota, c.tool.value.name);
            ss[k + 1].flights[|ss[k].flights|].stage == Refused(RATE_LIMITED) <==>
            cfg.rateLimited &&
            !(1 <= q.capacity
              && BucketLaw.FitsAll(cfg.quota, log, TokenBucket.LimiterKey(c.tenant, c.tool.value.name), q, |log|,
                                   Millis(es[k].at), 1.0))
  {
    var c := es[k].call;
    StepOf(cfg, ss, es, k);
    AlwaysLimiterTied(cfg, ss, es, k);
    LogApart(cfg, ss, es, k, c.tenant, c.tool.value.name);
    OneToolApart(ss[k].limiterLog, c.tenant, c.tool.value.name);
    LimiterDecides(cfg, ss[k], c, es[k].at);
    LogDecides(cfg, ss[k], c, es[k].at);
  }
}
