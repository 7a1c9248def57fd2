/**
  Whose result a dispatched call can get: between which calls, and which tenants, the server mixes
  replies up.
*/
module ServerLeaks {
  import opened Errors
  import opened Server
  import opened ServerRuns
  import opened ServerParts
  import opened ServerSafety
  import opened ServerScenes
  import opened ServerWitnesses
  import opened ServerOutage
  import opened ServerInvalidation
  import opened ServerAccess
  import opened CacheTransparency
  import CacheKeys
  import CacheManager
  import Lru
  import TokenBucket

  /** The call returned a value. */
  predicate Replied(s: State, id: nat) {
    id < |s.flights| && s.flights[id].stage.Done? && s.flights[id].stage.outcome.Returned?
  }

  // ---------------------------------------------------------------------------------
  // Calls past the cache
  // ---------------------------------------------------------------------------------

  predicate OwnReply(cfg: Settings, s: State, id: nat) {
    Replied(s, id) && !UsesCache(cfg, s.flights[id].call) ==>
      var c := s.flights[id].call;
      s.flights[id].stage.outcome.value.request
      == CacheKeys.Request(c.tenant, if c.tool.Some? then c.tool.value.name else "", c.normal)
  }

  lemma OwnReplyStep(cfg: Settings, s: State, e: Event, id: nat)
    requires Enabled(cfg, s, e) && OwnReply(cfg, s, id) && (id < |s.flights| ==> FlightAtCache(cfg, s, id))
    ensures OwnReply(cfg, Next(cfg, s, e), id)
  {
  }

  lemma {:induction false} AlwaysOwnReply(cfg: Settings, ss: seq<State>, es: seq<Event>, n: nat, id: nat)
    requires IsRun(cfg, ss, es) && n <= |es|
    ensures OwnReply(cfg, ss[n], id)
  {
    if n > 0 {
      AlwaysOwnReply(cfg, ss, es, n - 1, id);
      AlwaysTied(cfg, ss, es, n - 1);
      StepOf(cfg, ss, es, n - 1);
      OwnReplyStep(cfg, ss[n - 1], es[n - 1], id);
    }
  }

  /** Whoever is answered with the result of another tenant's call bears a name that goes on from
      that tenant's with a colon, or the other way round. */
  lemma RepliesExtend(cfg: Settings, ss: seq<State>, es: seq<Event>, n: nat, id: nat)
    requires IsRun(cfg, ss, es) && n <= |es| && CacheKeys.Injective(cfg.digest) && CacheKeys.Hex(cfg.digest)
    requires Replied(ss[n], id)
    ensures var f := ss[n].flights[id];
            var tenant := f.stage.outcome.value.request.tenant;
            tenant == f.call.tenant || CacheKeys.Extends(tenant, f.call.tenant)
  {
    var c, r := ss[n].flights[id].call, ss[n].flights[id].stage.outcome.value.request;
    if UsesCache(cfg, c) {
      var j := RepliesShareKey(cfg, ss, es, n, id);
      CacheKeys.KeysEqualIff(cfg.digest, r, RequestOf(c));
      if r.tenant != c.tenant {
        CacheKeys.SameFullName(r.tenant, r.tool, c.tenant, ToolName(c));
      }
    } else {
      AlwaysOwnReply(cfg, ss, es, n, id);
    }
  }

  /** With colon-free tools, whatever the tenants, every reply, cached or not, is what the call's own
      tool returned for its own tenant and validated arguments. */
  lemma RepliesAreOwn(cfg: Settings, ss: seq<State>, es: seq<Event>, n: nat, id: nat)
    requires IsRun(cfg, ss, es) && n <= |es| && CacheKeys.Injective(cfg.digest) && CacheKeys.Hex(cfg.digest)
    requires forall i :: 0 <= i < |ss[n].flights| ==> CacheKeys.ColonFree(ToolName(ss[n].flights[i].call))
    requires Replied(ss[n], id)
    ensures var c := ss[n].flights[id].call;
            ss[n].flights[id].stage.outcome.value.request
            == CacheKeys.Request(c.tenant, if c.tool.Some? then c.tool.value.name else "", c.normal)
  {
    if UsesCache(cfg, ss[n].flights[id].call) {
      RepliesGenuine(cfg, ss, es, n, id);
    } else {
      AlwaysOwnReply(cfg, ss, es, n, id);
    }
  }

  // ---------------------------------------------------------------------------------
  // Two calls
  // ---------------------------------------------------------------------------------

  /** Two cacheable calls that a server which has just started lets pass one after the other; what
      the first returns is stored for some time. */
  ghost predicate Follows(cfg: Settings, c: Call, d: Call) {
    && UsesCache(cfg, c) && UsesCache(cfg, d) && AllPass(cfg, INITIAL.guards, [c, d]) && Allowance(cfg, c) > 0
    && CacheManager.L2Ttl(cfg.cache, TtlOf(c)) >= 0
  }

  /** A call like d was answered with what a call like c returned. */
  predicate AnsweredFor(s: State, id: nat, c: Call, d: Call) {
    Replied(s, id) && s.flights[id].call == d && s.flights[id].stage.outcome.value.request == RequestOf(c)
  }

  /** On one key the second call is answered with what the first returned, all on time. */
  lemma SharedAnswer(cfg: Settings, c: Call, d: Call, body: string) returns (ss: seq<State>, es: seq<Event>)
    requires Follows(cfg, c, d) && KeyOf(cfg, c) == KeyOf(cfg, d)
    ensures IsRun(cfg, ss, es) && OnTime(ss, es, 0.0)
    ensures es == [Begin(c, 0.0), Launch(0, 0.0), AttemptEnds(0, Answer(body), 0.0, 0.0), Begin(d, 0.0)]
    ensures AnsweredFor(ss[4], 1, c, d)
  {
    var s;
    ss, es, s := FirstRuns(cfg, c, d);
    ss, es := AnswersNow(cfg, ss, es, s, c, d, body);
  }

  lemma FirstRuns(cfg: Settings, c: Call, d: Call) returns (ss: seq<State>, es: seq<Event>, s: State)
    requires Follows(cfg, c, d)
    ensures Reaches(cfg, ss, es, s) && es == [Begin(c, 0.0), Launch(0, 0.0)] && s.clock == 0.0 && |s.flights| == 1
    ensures s.flights[0].call == c && s.flights[0].stage.Running? && s.flights[0].attempts > 0
    ensures Passes(cfg, s.guards, d, 0.0) && AllDue(s, 0.0) && Lru.DistinctKeys(s.cache.c.l1)
  {
    ReachesInitial(cfg);
    NextPasses(cfg, INITIAL.guards, [c, d], 0);
    assert [c, d][1..] == [d];
    ss, es, s := PassAndLaunch(cfg, [INITIAL], [], INITIAL, c, 0.0);
    NextPasses(cfg, s.guards, [d], 0);
    AllottedIsPositive(INITIAL, ToolName(c));
    StaysDistinct(cfg, ss, es, |es|);
  }

  /** In some run one call is answered with the result of the other if and only if their tenants and
      tools, joined by a colon, spell the same and their arguments are the same. */
  lemma AnsweredForIff(cfg: Settings, c: Call, d: Call)
    requires Follows(cfg, c, d) && CacheKeys.Injective(cfg.digest) && CacheKeys.Hex(cfg.digest)
    ensures (exists ss, es, id: nat :: IsRun(cfg, ss, es) && AnsweredFor(ss[|es|], id, c, d)) <==>
            CacheKeys.FullName(c.tenant, ToolName(c)) == CacheKeys.FullName(d.tenant, ToolName(d)) &&
            c.normal == d.normal
  {
    CacheKeys.KeysEqualIff(cfg.digest, RequestOf(c), RequestOf(d));
    if KeyOf(cfg, c) == KeyOf(cfg, d) {
      var ss, es := SharedAnswer(cfg, c, d, "");
      assert AnsweredFor(ss[|es|], 1, c, d);
    }
    forall ss, es, id: nat | IsRun(cfg, ss, es) && AnsweredFor(ss[|es|], id, c, d)
      ensures KeyOf(cfg, c) == KeyOf(cfg, d)
    {
      var j := RepliesShareKey(cfg, ss, es, |es|, id);
    }
  }

  // ---------------------------------------------------------------------------------
  // Two tenants
  // ---------------------------------------------------------------------------------

  /** The same call, of another tenant and a tool of another name. */
  function Renamed(c: Call, tenant: string, tool: string): Call
    requires c.tool.Some?
  {
    c.(tenant := tenant, tool := Some(c.tool.value.(name := tool)))
  }

  /** The settings let the call through under any names, twice at once, and store its result. */
  ghost predicate OpenTo(cfg: Settings, c: Call) {
    && UsesCache(cfg, c) && Allowance(cfg, c) > 0 && CacheManager.L2Ttl(cfg.cache, TtlOf(c)) >= 0
    && (cfg.rateLimited ==> cfg.quota.capacity >= 2)
    && forall tenant, tool :: Harmless(cfg, Renamed(c, tenant, tool))
  }

  /** A call of tenant b was answered with the result of tenant a. */
  predicate LeaksTo(s: State, id: nat, a: string, b: string) {
    Replied(s, id) && s.flights[id].call.tenant == b && s.flights[id].stage.outcome.value.request.tenant == a
  }

  lemma PairPasses(cfg: Settings, c: Call, d: Call)
    requires Harmless(cfg, c) && Harmless(cfg, d)
    requires cfg.rateLimited ==> TokenBucket.QuotaFor(cfg.quota, ToolName(c)).capacity >= 2
    requires TokenBucket.QuotaFor(cfg.quota, ToolName(c)) == TokenBucket.QuotaFor(cfg.quota, ToolName(d))
    ensures AllPass(cfg, INITIAL.guards, [c, d])
  {
    GuardsPass(cfg, INITIAL, c, 0.0);
    var g := Guarded(cfg, INITIAL.guards, c, 0.0).0;
    GuardsPass(cfg, INITIAL.(guards := g), d, 0.0);
    assert [c, d][1..] == [d] && [d][1..] == [];
  }

  /** No tool whose name ends with this letter has a quota of its own. */
  lemma HasDefaultQuota(default: TokenBucket.Quota, tool: string)
    requires tool != "" && tool[|tool| - 1] == 'l'
    ensures TokenBucket.QuotaFor(default, tool) == default
  {
  }

  lemma RenamedFollows(cfg: Settings, c: Call, a: string, t: string, b: string, u: string)
    requires OpenTo(cfg, c) && t != "" && t[|t| - 1] == 'l' && u != "" && u[|u| - 1] == 'l'
    ensures Follows(cfg, Renamed(c, a, t), Renamed(c, b, u))
  {
    HasDefaultQuota(cfg.quota, t);
    HasDefaultQuota(cfg.quota, u);
    PairPasses(cfg, Renamed(c, a, t), Renamed(c, b, u));
  }

  lemma SharedToolsPass(cfg: Settings, c: Call, a: string, b: string) returns (d: Call, e: Call)
    requires OpenTo(cfg, c) && CacheKeys.Extends(a, b)
    ensures d.tenant == a && e.tenant == b && d.normal == e.normal && Follows(cfg, d, e)
    ensures CacheKeys.FullName(a, ToolName(d)) == CacheKeys.FullName(b, ToolName(e))
  {
    var (t, u) := CacheKeys.SharedTools(a, b);
    d, e := Renamed(c, a, t), Renamed(c, b, u);
    CacheKeys.SharedToolsShare(a, b);
    assert t[|t| - 1] == 'l' && u[|u| - 1] == 'l';
    RenamedFollows(cfg, c, a, t, b, u);
  }

  /** Under settings open to some call, there is a run of the server that answers one tenant with
      another's result, under some tools, if and only if one's name goes on from the other's with a
      colon. */
  lemma ServerLeakIff(cfg: Settings, c: Call, a: string, b: string)
    requires OpenTo(cfg, c) && CacheKeys.Injective(cfg.digest) && CacheKeys.Hex(cfg.digest) && a != b
    ensures (exists ss, es, id: nat :: IsRun(cfg, ss, es) && LeaksTo(ss[|es|], id, a, b)) <==> CacheKeys.Extends(a, b)
  {
    if CacheKeys.Extends(a, b) {
      var d, e := SharedToolsPass(cfg, c, a, b);
      CacheKeys.KeysEqualIff(cfg.digest, RequestOf(d), RequestOf(e));
      var ss, es := SharedAnswer(cfg, d, e, "");
      assert LeaksTo(ss[|es|], 1, a, b);
    }
    forall ss, es, id: nat | IsRun(cfg, ss, es) && LeaksTo(ss[|es|], id, a, b) ensures CacheKeys.Extends(a, b) {
      RepliesExtend(cfg, ss, es, |es|, id);
    }
  }

  /** There are such settings, and such a call. */
  lemma OpenSettingsExist(digest: string -> string) returns (cfg: Settings, c: Call)
    ensures cfg.digest == digest && OpenTo(cfg, c)
  {
    cfg, c := Defaults(digest), PlainCall("tenant", "tool", "");
    forall tenant, tool ensures Harmless(cfg, Renamed(c, tenant, tool)) {
      DefaultsAdmit(digest, tenant, tool, "");
      assert Renamed(c, tenant, tool) == PlainCall(tenant, tool, "");
    }
  }
}
