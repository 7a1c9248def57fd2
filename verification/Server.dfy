/**
  The guards of a dispatched tool call and the components the server holds.

  `Guarded` is everything `dispatch` does before it runs the tool. The class has the same
  stretch as the method Admit, and the two ends of `_execute_reliably` around the awaited
  call. None of them suspends: each is one step of the server's runs (module ServerRuns).
*/
module Server {
  import opened Errors
  import PolicyEngine
  import TokenBucket
  import Approval
  import CacheKeys
  import CacheManager
  import CircuitBreaker
  import Atba

  datatype Tool = Tool(name: string, scopes: seq<string>, destructive: bool, cacheable: bool, cacheTtl: int)

  /** One call of a registered tool, or of a name that resolves to none. `args` is the text of
      the arguments as sent and `normal` that of the validated ones; `fault` is the error that
      validating them raises. */
  datatype Call = Call(
    tool: Option<Tool>, fault: Option<ToolError>, args: string, normal: string, tenant: string, subject: string,
    held: seq<string>, context: PolicyEngine.Context, hostAllowed: bool, createdAt: string)

  datatype Settings = Settings(
    upper: string -> string, rules: seq<PolicyEngine.Rule>, defaultDeny: bool, rateLimited: bool,
    quota: TokenBucket.Quota,
    digest: string -> string, approvalRequired: bool, cached: bool, cache: CacheManager.Settings, retryMax: int,
    retryBaseMs: nat, breaker: CircuitBreaker.Config)

  /** What the guards before the cache keep. */
  datatype Guards = Guards(buckets: map<string, TokenBucket.Bucket>, approvals: Approval.Store)

  const NOT_FOUND := ToolError(OtherTool, "tool_not_found", false)
  const NO_SCOPE := ToolError(Policy, "insufficient_scope", false)
  const DENIED := ToolError(Policy, "denied_by_policy", false)
  const NOT_AUTHORIZED := ToolError(Policy, "not_authorized", false)
  const NO_HOST := ToolError(Policy, "host_not_allowlisted", false)
  const RATE_LIMITED := ToolError(RateLimit, "rate_limited", true)
  const PENDING := ToolError(PendingApproval, "pending_approval", false)
  const APPROVAL_DENIED := ToolError(Policy, "approval_denied", false)
  const CIRCUIT_OPEN := ToolError(CircuitOpen, "circuit_open", true)
  const TIMED_OUT := ToolError(ErrorKind.Timeout, "timeout", true)
  const INTERNAL := ToolError(Upstream, "internal_error", false)

  function Millis(now: real): int {
    (now * 1000.0).Floor
  }

  predicate HasScope(held: seq<string>, scope: string) {
    scope in held || ("tool:" <= scope && "tool:*:admin" in held)
  }

  predicate Scoped(c: Call)
    requires c.tool.Some?
  {
    forall i :: 0 <= i < |c.tool.value.scopes| ==> HasScope(c.held, c.tool.value.scopes[i])
  }

  function PolicyRequest(c: Call): PolicyEngine.Request
    requires c.tool.Some?
  {
    PolicyEngine.Request(c.subject, c.tenant, c.tool.value.name, c.tool.value.name, c.context)
  }

  ghost predicate Decides(cfg: Settings, c: Call, d: PolicyEngine.Decision)
    requires c.tool.Some?
  {
    PolicyEngine.Decides(cfg.upper, PolicyEngine.RuleSet(cfg.rules), cfg.defaultDeny, PolicyRequest(c), d)
  }

  /** The checks that change nothing: the tool exists, its arguments are valid, the caller
      holds its scopes, the policy allows it, and its host is allow-listed. */
  ghost function Screened(cfg: Settings, c: Call): Option<ToolError> {
    if c.tool.None? then Some(NOT_FOUND)
    else if c.fault.Some? then c.fault
    else if !Scoped(c) then Some(NO_SCOPE)
    else if exists id :: Decides(cfg, c, PolicyEngine.Denied(id)) then Some(DENIED)
    else if Decides(cfg, c, PolicyEngine.NotAuthorized) then Some(NOT_AUTHORIZED)
    else if !c.hostAllowed then Some(NO_HOST)
    else None
  }

  function Limited(cfg: Settings, g: Guards, c: Call, now: real): (Guards, Option<ToolError>)
    requires c.tool.Some?
  {
    if !cfg.rateLimited then (g, None)
    else
      var (m, v) := TokenBucket.Acquired(cfg.quota, g.buckets, c.tenant, c.tool.value.name, 1, Millis(now));
      (g.(buckets := m), if v.allowed then None else Some(RATE_LIMITED))
  }

  predicate NeedsApproval(cfg: Settings, c: Call) {
    c.tool.Some? && c.tool.value.destructive && cfg.approvalRequired
  }

  function ApprovalRequest(c: Call): CacheKeys.Request
    requires c.tool.Some?
  {
    CacheKeys.Request(c.tenant, c.tool.value.name, c.args)
  }

  function Confirmed(cfg: Settings, g: Guards, c: Call, now: real): (Guards, Option<ToolError>)
    requires c.tool.Some?
  {
    if !NeedsApproval(cfg, c) then (g, None)
    else
      var id := Approval.ApprovalId(cfg.digest, ApprovalRequest(c));
      var (store, ruling) := Approval.Enforced(g.approvals, id, c.subject, c.createdAt, now);
      (g.(approvals := store),
       match ruling case Pass => None case AwaitApproval(_) => Some(PENDING) case Refused => Some(APPROVAL_DENIED))
  }

  ghost function Guarded(cfg: Settings, g: Guards, c: Call, now: real): (Guards, Option<ToolError>) {
    if Screened(cfg, c).Some? then (g, Screened(cfg, c))
    else
      var (h, limited) := Limited(cfg, g, c, now);
      if limited.Some? then (h, limited) else Confirmed(cfg, h, c, now)
  }

  // ---------------------------------------------------------------------------------
  // The cached call
  // ---------------------------------------------------------------------------------

  function ToolName(c: Call): string {
    if c.tool.Some? then c.tool.value.name else ""
  }

  predicate Destructive(c: Call) {
    c.tool.Some? && c.tool.value.destructive
  }

  predicate UsesCache(cfg: Settings, c: Call) {
    cfg.cached && c.tool.Some? && c.tool.value.cacheable
  }

  function RequestOf(c: Call): CacheKeys.Request {
    CacheKeys.Request(c.tenant, ToolName(c), c.normal)
  }

  function KeyOf(cfg: Settings, c: Call): string {
    CacheKeys.CacheKey(cfg.digest, RequestOf(c))
  }

  function TtlOf(c: Call): Option<int> {
    if c.tool.Some? then Some(c.tool.value.cacheTtl) else None
  }

  class CircuitBreakerRegistry {
    const cfg: CircuitBreaker.Config
    var breakers: map<string, CircuitBreaker.CircuitBreaker>

    ghost predicate Valid()
      reads this
    {
      && (forall n :: n in breakers ==> breakers[n].cfg == cfg)
      && (forall m, n :: m in breakers && n in breakers && breakers[m] == breakers[n] ==> m == n)
    }

    ghost function Objects(): set<object>
      reads this
    {
      set n | n in breakers :: breakers[n]
    }

    /** The breaker of a tool; one not asked for yet is as good as new. */
    ghost function Of(tool: string): CircuitBreaker.Breaker
      reads this, Objects()
    {
      if tool in breakers then breakers[tool].Snapshot() else CircuitBreaker.NEW_BREAKER
    }

    constructor (cfg: CircuitBreaker.Config)
      ensures Valid() && this.cfg == cfg && breakers == map[]
    {
      this.cfg := cfg;
      breakers := map[];
    }

    /** Found or created: either way no breaker changes. */
    method ForTool(tool: string) returns (breaker: CircuitBreaker.CircuitBreaker)
      requires Valid()
      modifies this
      ensures Valid() && breakers.Keys == old(breakers).Keys + {tool} && breakers[tool] == breaker
      ensures fresh(Objects() - old(Objects()))
      ensures forall t :: Of(t) == old(Of(t))
    {
      if tool !in breakers {
        breaker := new CircuitBreaker.CircuitBreaker(cfg);
        breakers := breakers[tool := breaker];
      }
      breaker := breakers[tool];
    }

    /** `for_tool(tool).call` up to where it awaits the function. */
    method Enter(tool: string, now: real) returns (admission: CircuitBreaker.Admission)
      requires Valid()
      modifies this, Objects()
      ensures Valid() && breakers.Keys == old(breakers).Keys + {tool}
      ensures fresh(Objects() - old(Objects()))
      ensures (Of(tool), admission) == CircuitBreaker.Entered(cfg, old(Of(tool)), now)
      ensures forall t :: t != tool ==> Of(t) == old(Of(t))
    {
      var breaker := ForTool(tool);
      admission := breaker.Enter(now);
    }

    /** The same `call` from where the function ended. */
    method Finish<V>(tool: string, probe: bool, outcome: Outcome<V>, now: real)
      requires Valid() && tool in breakers
      modifies Objects()
      ensures Of(tool) == CircuitBreaker.Finished(cfg, old(Of(tool)), probe, outcome, now)
      ensures forall t :: t != tool ==> Of(t) == old(Of(t))
    {
      breakers[tool].Finish(probe, outcome, now);
    }
  }

  class AtlasServer {
    const cfg: Settings
    const rateLimiter: TokenBucket.RateLimiter
    const approvals: Approval.ApprovalGate
    const breakers: CircuitBreakerRegistry
    const atba: Atba.ATBA
    const cache: CacheManager.CacheManager<string>

    ghost predicate Valid()
      reads this, cache, cache.l1
    {
      rateLimiter.Valid() && rateLimiter.default == cfg.quota && cache.Valid() && cache.cfg == cfg.cache
    }

    ghost predicate BreakersValid()
      reads this, breakers
    {
      breakers.Valid() && breakers.cfg == cfg.breaker
    }

    ghost function GuardState(): Guards
      reads this, rateLimiter.backend, approvals.records
    {
      Guards(rateLimiter.backend.buckets, approvals.records.store)
    }

    constructor (cfg: Settings, totalBudgetMs: int)
      ensures Valid() && BreakersValid() && this.cfg == cfg
      ensures GuardState() == Guards(map[], map[]) && breakers.breakers == map[]
      ensures cache.Contents() == CacheManager.Cache([], map[], map[], 0, 0)
    {
      this.cfg := cfg;
      rateLimiter := new TokenBucket.RateLimiter(cfg.quota);
      approvals := new Approval.ApprovalGate();
      breakers := new CircuitBreakerRegistry(cfg.breaker);
      atba := new Atba.ATBA(totalBudgetMs);
      cache := new CacheManager.CacheManager(cfg.cache);
    }

    method Screen(c: Call) returns (refusal: Option<ToolError>)
      ensures refusal == Screened(cfg, c)
    {
      if c.tool.None? {
        return Some(NOT_FOUND);
      }
      if c.fault.Some? {
        return c.fault;
      }
      var scopes := c.tool.value.scopes;
      for i := 0 to |scopes|
        invariant forall j :: 0 <= j < i ==> HasScope(c.held, scopes[j])
      {
        if !HasScope(c.held, scopes[i]) {
          return Some(NO_SCOPE);
        }
      }
      var decision := PolicyEngine.Check(cfg.upper, cfg.rules, cfg.defaultDeny, PolicyRequest(c));
      assert Decides(cfg, c, decision);
      if decision.Denied? {
        assert decision == PolicyEngine.Denied(decision.ruleId);
        return Some(DENIED);
      }
      if decision.NotAuthorized? {
        return Some(NOT_AUTHORIZED);
      }
      return if c.hostAllowed then None else Some(NO_HOST);
    }

    /** `dispatch` up to `_run_observed`. */
    method Admit(c: Call, now: real) returns (refusal: Option<ToolError>)
      requires Valid()
      modifies rateLimiter.backend, approvals.records
      ensures Valid()
      ensures (GuardState(), refusal) == Guarded(cfg, old(GuardState()), c, now)
    {
      refusal := Screen(c);
      if refusal.Some? {
        return;
      }
      var tool := c.tool.value;
      if cfg.rateLimited {
        var retryAfter := rateLimiter.Acquire(c.tenant, tool.name, 1, Millis(now));
        if retryAfter.Some? {
          return Some(RATE_LIMITED);
        }
      }
      if tool.destructive && cfg.approvalRequired {
        var ruling := approvals.Enforce(cfg.digest, ApprovalRequest(c), c.subject, c.createdAt, now);
        match ruling {
          case Pass =>
          case AwaitApproval(_) => return Some(PENDING);
          case Refused => return Some(APPROVAL_DENIED);
        }
      }
    }

    /** `_run_observed` up to where it suspends or executes: the cache, for a cacheable tool. */
    method Consult(c: Call, now: real) returns (a: CacheManager.Arrival<string>)
      requires Valid()
      modifies cache, cache.l1, cache.l2
      ensures Valid()
      ensures (cache.Contents(), a) ==
              if UsesCache(cfg, c) then CacheManager.CacheArrive(cfg.cache, old(cache.Contents()), KeyOf(cfg, c), now)
              else (old(cache.Contents()), CacheManager.Compute)
    {
      if !UsesCache(cfg, c) {
        return CacheManager.Compute;
      }
      a := cache.Arrive(KeyOf(cfg, c), now);
    }

    /** `_run_observed` from where the execution ended. */
    method Publish(c: Call, holder: bool, outcome: Outcome<string>, now: real)
      requires Valid()
      modifies cache, cache.l1, cache.l2
      ensures Valid()
      ensures cache.Contents() ==
              if UsesCache(cfg, c) then
                CacheManager.CacheComplete(cfg.cache, old(cache.Contents()), KeyOf(cfg, c), holder, outcome, TtlOf(c),
                                           now)
              else old(cache.Contents())
    {
      if UsesCache(cfg, c) {
        cache.Complete(KeyOf(cfg, c), holder, outcome, TtlOf(c), now);
      }
    }

    /** `_execute_reliably` up to the awaited function: the timeout, then the breaker. `ctx` is
        the calling task's budget, if it began one. */
    method Launch(ctx: Atba.BudgetContext?, tool: string, now: real)
      returns (timeout: real, admission: CircuitBreaker.Admission)
      requires BreakersValid()
      modifies breakers, breakers.Objects(), atba.tracker, if ctx == null then {} else {ctx}
      ensures BreakersValid() && breakers.breakers.Keys == old(breakers.breakers).Keys + {tool}
      ensures timeout ==
              Atba.CallTimeout(old(Atba.BudgetOf(ctx)), Atba.P95(old(atba.tracker.Of(tool)), Atba.DEFAULT_P95_S), now)
      ensures (breakers.Of(tool), admission) == CircuitBreaker.Entered(cfg.breaker, old(breakers.Of(tool)), now)
      ensures forall t :: t != tool ==> breakers.Of(t) == old(breakers.Of(t))
      ensures ctx != null ==> ctx.Value() == old(ctx.Value()).(callsMade := old(ctx.callsMade) + 1)
      ensures atba.tracker.samples ==
              if admission.Rejected? then
                old(atba.tracker.samples)[tool := Atba.Recorded(old(atba.tracker.Of(tool)), 0.0, atba.tracker.window)]
              else old(atba.tracker.samples)
    {
      timeout := atba.BeginCall(ctx, tool, now);
      admission := breakers.Enter(tool, now);
      if admission.Rejected? {
        atba.EndCall(ctx, tool, now, now);
      }
    }

    /** `_execute_reliably` from where the awaited function ended or was cut. */
    method Land(ctx: Atba.BudgetContext?, tool: string, probe: bool, outcome: Outcome<string>, started: real, now: real)
      requires BreakersValid() && tool in breakers.breakers
      modifies breakers.Objects(), atba.tracker, if ctx == null then {} else {ctx}
      ensures BreakersValid()
      ensures breakers.Of(tool) == CircuitBreaker.Finished(cfg.breaker, old(breakers.Of(tool)), probe, outcome, now)
      ensures forall t :: t != tool ==> breakers.Of(t) == old(breakers.Of(t))
      ensures ctx != null ==> ctx.Value() == old(ctx.Value()).(spent := old(ctx.spent) + (now - started))
      ensures atba.tracker.samples ==
              old(atba.tracker.samples)[
                tool := Atba.Recorded(old(atba.tracker.Of(tool)), now - started, atba.tracker.window)]
    {
      breakers.Finish(tool, probe, outcome, now);
      atba.EndCall(ctx, tool, started, now);
    }
  }
}
