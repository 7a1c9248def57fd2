/**
  Who gets what, over every run of the server: which calls may execute, whose result a call
  is answered with, and what a refused or cached call leaves untouched.
*/
module ServerAccess {
  import opened Errors
  import opened Server
  import opened ServerRuns
  import opened ServerParts
  import opened ServerAccounts
  import opened CacheTransparency
  import CacheKeys
  import PolicyEngine
  import Approval

  // ---------------------------------------------------------------------------------
  // Approvals and policy
  // ---------------------------------------------------------------------------------

  function ApprovalIdOf(cfg: Settings, c: Call): string {
    Approval.ApprovalId(cfg.digest, CacheKeys.Request(c.tenant, ToolName(c), c.args))
  }

  /** A call past the guards was screened, and approved if it needs to be, when it began. */
  ghost predicate Vetted(cfg: Settings, s: State, f: Flight) {
    !f.stage.Refused? ==>
    && Screened(cfg, f.call).None? && f.approvalsSeen <= |s.approvalLog|
    && (forall i :: 0 <= i < f.approvalsSeen ==> s.approvalLog[i].at <= f.begun)
    && (NeedsApproval(cfg, f.call) ==>
          Approval.Enforced(Approval.After(cfg.digest, s.approvalLog[..f.approvalsSeen]), ApprovalIdOf(cfg, f.call),
                            f.call.subject, f.call.createdAt, f.begun).1.Pass?)
  }

  /** The approval store is what the logged attempts and decisions left, in time order. */
  ghost predicate ApprovalsTied(cfg: Settings, s: State) {
    && s.guards.approvals == Approval.After(cfg.digest, s.approvalLog)
    && Approval.TimesSorted(s.approvalLog)
    && (forall i :: 0 <= i < |s.approvalLog| ==> s.approvalLog[i].at <= s.clock)
  }

  lemma ApprovalsTiedStep(cfg: Settings, s: State, e: Event)
    requires Enabled(cfg, s, e) && ApprovalsTied(cfg, s)
    ensures ApprovalsTied(cfg, Next(cfg, s, e))
  {
    var log := ApprovalLogAfter(cfg, s, e);
    if log != s.approvalLog {
      assert log[..|s.approvalLog|] == s.approvalLog;
      assert Approval.After(cfg.digest, log) == Approval.Step(cfg.digest, s.guards.approvals, log[|s.approvalLog|]);
    }
  }

  /** The log only grows. */
  lemma LogGrows(cfg: Settings, s: State, e: Event)
    requires Enabled(cfg, s, e)
    ensures s.approvalLog <= Next(cfg, s, e).approvalLog
  {
  }

  lemma VettedBegin(cfg: Settings, s: State, e: Event)
    requires Enabled(cfg, s, e) && ApprovalsTied(cfg, s) && e.Begin?
    ensures Vetted(cfg, s, NewFlight(cfg, s, e.call, e.at))
  {
    assert s.approvalLog[..|s.approvalLog|] == s.approvalLog;
  }

  lemma VettedLater(cfg: Settings, s: State, t: State, f: Flight, g: Flight)
    requires Vetted(cfg, s, f) && s.approvalLog <= t.approvalLog
    requires g.call == f.call && g.begun == f.begun && g.approvalsSeen == f.approvalsSeen
    requires f.stage.Refused? ==> g.stage.Refused?
    ensures Vetted(cfg, t, g)
  {
    if !f.stage.Refused? {
      assert t.approvalLog[..f.approvalsSeen] == s.approvalLog[..f.approvalsSeen];
    }
  }

  lemma FlightKeeps(cfg: Settings, s: State, e: Event, id: nat)
    requires Enabled(cfg, s, e) && id < |s.flights|
    ensures var f, g := s.flights[id], Next(cfg, s, e).flights[id];
            && g.call == f.call && g.begun == f.begun && g.approvalsSeen == f.approvalsSeen
            && (f.stage.Refused? ==> g.stage.Refused?)
  {
  }

  lemma {:induction false} AlwaysApprovalsTied(cfg: Settings, ss: seq<State>, es: seq<Event>, n: nat)
    requires IsRun(cfg, ss, es) && n <= |es|
    ensures ApprovalsTied(cfg, ss[n])
  {
    if n > 0 {
      AlwaysApprovalsTied(cfg, ss, es, n - 1);
      StepOf(cfg, ss, es, n - 1);
      ApprovalsTiedStep(cfg, ss[n - 1], es[n - 1]);
    }
  }

  lemma {:induction false} AlwaysVetted(cfg: Settings, ss: seq<State>, es: seq<Event>, n: nat, id: nat)
    requires IsRun(cfg, ss, es) && n <= |es| && id < |ss[n].flights|
    ensures Vetted(cfg, ss[n], ss[n].flights[id])
  {
    if n > 0 {
      var s, e, t := ss[n - 1], es[n - 1], ss[n];
      StepOf(cfg, ss, es, n - 1);
      LogGrows(cfg, s, e);
      if id < |s.flights| {
        AlwaysVetted(cfg, ss, es, n - 1, id);
        FlightKeeps(cfg, s, e, id);
        VettedLater(cfg, s, t, s.flights[id], t.flights[id]);
      } else {
        AlwaysApprovalsTied(cfg, ss, es, n - 1);
        VettedBegin(cfg, s, e);
        VettedLater(cfg, s, t, t.flights[id], t.flights[id]);
      }
    }
  }

  /** In every run, a call of a destructive tool gets past the guards only if the last decision
      that took effect on the record of that tenant, tool and arguments was an approval no more
      than the ttl before the call began. */
  lemma NoneUnapproved(cfg: Settings, ss: seq<State>, es: seq<Event>, n: nat, id: nat)
    requires IsRun(cfg, ss, es) && n <= |es| && id < |ss[n].flights|
    requires !ss[n].flights[id].stage.Refused? && cfg.approvalRequired
    requires ss[n].flights[id].call.tool.Some? && ss[n].flights[id].call.tool.value.destructive
    ensures var f := ss[n].flights[id];
            && f.approvalsSeen <= |ss[n].approvalLog|
            && var log := ss[n].approvalLog[..f.approvalsSeen];
               var last := Approval.LastDecision(cfg.digest, log, ApprovalIdOf(cfg, f.call));
               && last.Some? && log[last.value].approve
               && log[last.value].at <= f.begun <= log[last.value].at + Approval.APPROVAL_TTL_SECONDS as real
  {
    AlwaysVetted(cfg, ss, es, n, id);
    AlwaysApprovalsTied(cfg, ss, es, n);
    ApprovedWhenBegun(cfg, ss[n], ss[n].flights[id]);
  }

  lemma ApprovedWhenBegun(cfg: Settings, s: State, f: Flight)
    requires ApprovalsTied(cfg, s) && Vetted(cfg, s, f) && !f.stage.Refused? && NeedsApproval(cfg, f.call)
    ensures var log := s.approvalLog[..f.approvalsSeen];
            var last := Approval.LastDecision(cfg.digest, log, ApprovalIdOf(cfg, f.call));
            && last.Some? && log[last.value].approve
            && log[last.value].at <= f.begun <= log[last.value].at + Approval.APPROVAL_TTL_SECONDS as real
  {
    var log := s.approvalLog[..f.approvalsSeen];
    assert Approval.TimesSorted(log);
    Approval.PassIffApproved(cfg.digest, log, CacheKeys.Request(f.call.tenant, ToolName(f.call), f.call.args),
                             f.call.subject, f.call.createdAt, f.begun);
  }

  /** With default deny and slash-free tenants, if every allowing rule is scoped to a tenant, only
      that tenant's calls get past the guards, let alone execute. */
  lemma OnlyTheScopedTenant(cfg: Settings, ss: seq<State>, es: seq<Event>, n: nat, id: nat, tenant: string)
    requires IsRun(cfg, ss, es) && n <= |es| && id < |ss[n].flights| && !ss[n].flights[id].stage.Refused?
    requires cfg.defaultDeny && PolicyEngine.ScopedTo(cfg.rules, tenant)
    requires PolicyEngine.SlashFree(tenant) && PolicyEngine.SlashFree(ss[n].flights[id].call.tenant)
    ensures ss[n].flights[id].call.tenant == tenant
  {
    AlwaysVetted(cfg, ss, es, n, id);
    ScreenedIsScoped(cfg, ss[n].flights[id].call, tenant);
  }

  lemma ScreenedIsScoped(cfg: Settings, c: Call, tenant: string)
    requires Screened(cfg, c).None? && cfg.defaultDeny && PolicyEngine.ScopedTo(cfg.rules, tenant)
    requires PolicyEngine.SlashFree(tenant) && PolicyEngine.SlashFree(c.tenant)
    ensures c.tenant == tenant
  {
    ScreenedIsAllowed(cfg, c);
    PolicyEngine.TenantConfined(cfg.upper, cfg.rules, tenant, PolicyRequest(c), PolicyEngine.Allowed);
  }

  lemma ScreenedIsAllowed(cfg: Settings, c: Call)
    requires Screened(cfg, c).None?
    ensures c.tool.Some? && Decides(cfg, c, PolicyEngine.Allowed)
  {
    var decision := Ruled(cfg, c);
  }

  /** Some decision is always the right one. */
  lemma Ruled(cfg: Settings, c: Call) returns (d: PolicyEngine.Decision)
    requires c.tool.Some?
    ensures Decides(cfg, c, d)
  {
    var rules, r := PolicyEngine.RuleSet(cfg.rules), PolicyRequest(c);
    if rule :| rule in rules && PolicyEngine.Applies(cfg.upper, rule, r) && PolicyEngine.Denies(rule) {
      d := PolicyEngine.Denied(rule.id);
    } else if rule :| rule in rules && PolicyEngine.Applies(cfg.upper, rule, r) && !PolicyEngine.Denies(rule) {
      d := PolicyEngine.Allowed;
    } else if !cfg.defaultDeny {
      d := PolicyEngine.Allowed;
    } else {
      d := PolicyEngine.NotAuthorized;
    }
  }

  // ---------------------------------------------------------------------------------
  // Replies
  // ---------------------------------------------------------------------------------

  function RequestsOf(flights: seq<Flight>): map<nat, CacheKeys.Request> {
    map id: nat | id < |flights| :: RequestOf(flights[id].call)
  }

  /** The calls of the server use the cache as module CacheTransparency asks. */
  lemma CacheUsedProperly(cfg: Settings, ss: seq<State>, es: seq<Event>, k: nat, n: nat)
    requires IsRun(cfg, ss, es) && k < n <= |es| && CacheEvent(cfg, ss[k], es[k]).Some?
    ensures Dispatched(cfg.digest, RequestsOf(ss[n].flights), CacheEvent(cfg, ss[k], es[k]).value)
  {
    StepOf(cfg, ss, es, k);
    if es[k].Begin? {
      CallsPersist(cfg, ss, es, k + 1, n, |ss[k].flights|);
    } else if !es[k].Direct? {
      CallsPersist(cfg, ss, es, k, n, es[k].id);
    }
  }

  lemma CallersGenuine(cfg: Settings, ss: seq<State>, es: seq<Event>, n: nat)
    requires IsRun(cfg, ss, es) && n <= |es|
    ensures GenuineCallers(cfg.digest, RequestsOf(ss[n].flights), ss[n].cache)
  {
    var steps, cs, ces := CacheRefines(cfg, ss, es, n);
    var requests := RequestsOf(ss[n].flights);
    forall i | 0 <= i < |ces| ensures Dispatched(cfg.digest, requests, ces[i]) {
      CacheUsedProperly(cfg, ss, es, steps[i], n);
    }
    SharesKey(cfg.digest, requests, cfg.cache, cs, ces, |ces|);
  }

  /** In every run and whatever the names, a cacheable call that is answered, from the cache, behind
      another caller or by itself, gets what some dispatched call with its own key returned. */
  lemma RepliesShareKey(cfg: Settings, ss: seq<State>, es: seq<Event>, n: nat, id: nat) returns (j: nat)
    requires IsRun(cfg, ss, es) && n <= |es| && id < |ss[n].flights| && UsesCache(cfg, ss[n].flights[id].call)
    requires ss[n].flights[id].stage.Done? && ss[n].flights[id].stage.outcome.Returned?
    ensures j < |ss[n].flights| && KeyOf(cfg, ss[n].flights[j].call) == KeyOf(cfg, ss[n].flights[id].call)
    ensures ss[n].flights[id].stage.outcome.value.request == RequestOf(ss[n].flights[j].call)
  {
    CallersGenuine(cfg, ss, es, n);
    AlwaysTied(cfg, ss, es, n);
    assert FlightAtCache(cfg, ss[n], id);
    var requests, request := RequestsOf(ss[n].flights), ss[n].flights[id].stage.outcome.value.request;
    assert request in requests.Values;
    j :| j in requests && requests[j] == request;
  }

  /** With an injective hexadecimal digest and colon-free tools, whatever the tenants, that is what
      its own tool returned for its own tenant and validated arguments. */
  lemma RepliesGenuine(cfg: Settings, ss: seq<State>, es: seq<Event>, n: nat, id: nat)
    requires IsRun(cfg, ss, es) && n <= |es| && CacheKeys.Injective(cfg.digest) && CacheKeys.Hex(cfg.digest)
    requires forall i :: 0 <= i < |ss[n].flights| ==> CacheKeys.ColonFree(ToolName(ss[n].flights[i].call))
    requires id < |ss[n].flights| && UsesCache(cfg, ss[n].flights[id].call)
    requires ss[n].flights[id].stage.Done? && ss[n].flights[id].stage.outcome.Returned?
    ensures var c := ss[n].flights[id].call;
            && c.tool.Some?
            && ss[n].flights[id].stage.outcome.value.request
               == CacheKeys.Request(c.tenant, c.tool.value.name, c.normal)
  {
    var j := RepliesShareKey(cfg, ss, es, n, id);
    CacheKeys.KeyInjective(cfg.digest, RequestOf(ss[n].flights[j].call), RequestOf(ss[n].flights[id].call));
  }

  // ---------------------------------------------------------------------------------
  // Refusals
  // ---------------------------------------------------------------------------------

  lemma RefusedStays(cfg: Settings, s: State, e: Event, id: nat)
    requires Enabled(cfg, s, e) && id < |s.flights| && s.flights[id].stage.Refused?
    ensures id < |Next(cfg, s, e).flights| && Next(cfg, s, e).flights[id] == s.flights[id]
  {
    FlightsKept(cfg, s, e, id);
  }

  /** In every run a refused call stays exactly as it was refused: it makes no attempt, it is never
      a caller of the cache, and no breaker ever sees it. */
  lemma {:induction false} RefusedForever(cfg: Settings, ss: seq<State>, es: seq<Event>, k: nat, n: nat, id: nat,
                                          tool: string)
    requires IsRun(cfg, ss, es) && k <= n <= |es| && id < |ss[k].flights| && ss[k].flights[id].stage.Refused?
    ensures id < |ss[n].flights| && ss[n].flights[id] == ss[k].flights[id] && ss[n].flights[id].attempts == 0
    ensures id !in ss[n].cache.callers && id !in SystemOf(ss[n], tool).calls
    decreases n
  {
    if k < n {
      RefusedForever(cfg, ss, es, k, n - 1, id, tool);
      StepOf(cfg, ss, es, n - 1);
      RefusedStays(cfg, ss[n - 1], es[n - 1], id);
    }
    AlwaysTied(cfg, ss, es, n);
    AlwaysAccounted(cfg, ss, es, n, id);
    assert FlightAtCache(cfg, ss[n], id) && FlightAtBreaker(ss[n], id) && CallTied(ss[n], tool, id);
  }
}
