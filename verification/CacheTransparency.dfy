/**
  Whose result a cacheable call gets. Values carry the request whose `execute` produced them;
  the cache never looks at it.
*/
module CacheTransparency {
  import opened Errors
  import opened Lru
  import opened CacheKeys
  import opened CacheManager
  import opened CacheFacts
  import opened CacheFreshness
  import opened SingleFlight

  datatype Response = Response(request: Request, body: string)

  /** Callers use the key of their own request and compute by executing that request; nobody
      writes to the cache directly. Reads, deletions and invalidations are unrestricted. */
  ghost predicate Dispatched(digest: string -> string, requests: map<nat, Request>, e: Event<Response>) {
    match e
    case Arrive(id, key, _, _) => id in requests && key == CacheKey(digest, requests[id])
    case Return(id, outcome, _) => id in requests && (outcome.Returned? ==> outcome.value.request == requests[id])
    case Direct(op) => !op.SetOp?
    case _ => true
  }

  /** A value stored under a key was produced by one of the requests with that key. */
  ghost predicate Genuine(digest: string -> string, requests: map<nat, Request>, key: Key, v: Response) {
    CacheKey(digest, v.request) == key && v.request in requests.Values
  }

  ghost predicate GenuineCache(digest: string -> string, requests: map<nat, Request>, c: Cache<Response>) {
    && DistinctKeys(c.l1)
    && (forall e :: e in c.l1 ==> Genuine(digest, requests, e.key, e.value))
    && (forall k :: k in c.l2 ==> Genuine(digest, requests, k, c.l2[k].value))
  }

  /** Whoever returned a value returned one that a request with its own key produced. */
  ghost predicate GenuineCallers(digest: string -> string, requests: map<nat, Request>, s: System<Response>) {
    forall id :: id in s.callers ==>
      && id in requests && s.callers[id].key == CacheKey(digest, requests[id])
      && (s.callers[id].phase.Done? && s.callers[id].phase.outcome.Returned? ==>
            Genuine(digest, requests, s.callers[id].key, s.callers[id].phase.outcome.value))
  }

  lemma GenuineGet(digest: string -> string, requests: map<nat, Request>, cfg: Settings, c: Cache<Response>, key: Key,
                   at: real)
    requires GenuineCache(digest, requests, c)
    ensures var (d, r) := CacheGet(cfg, c, key, at);
            GenuineCache(digest, requests, d) && (r.Some? ==> Genuine(digest, requests, key, r.value))
  {
    GetFacts(cfg, c, key, at);
    GetAnswer(cfg, c, key, at);
  }

  lemma GenuineCacheStep(digest: string -> string, requests: map<nat, Request>, cfg: Settings, s: System<Response>,
                         e: Event<Response>)
    requires Enabled(s, e) && Dispatched(digest, requests, e)
    requires GenuineCache(digest, requests, s.c) && GenuineCallers(digest, requests, s)
    ensures GenuineCache(digest, requests, Next(cfg, s, e).c)
  {
    match e
    case Arrive(id, key, _, at) => GenuineGet(digest, requests, cfg, s.c, key, at);
    case Wake(id, at) => GenuineGet(digest, requests, cfg, s.c, s.callers[id].key, at);
    case Return(id, outcome, at) =>
      if outcome.Returned? {
        SetFacts(cfg, s.c, s.callers[id].key, outcome.value, s.callers[id].ttl, at);
      }
    case Cancel(_, _) =>
    case Direct(op) =>
      match op
      case GetOp(k, at) => GenuineGet(digest, requests, cfg, s.c, k, at);
      case DeleteOp(k, _) => DeleteFacts(s.c, k);
      case InvalidateOp(prefix, _) => InvalidateFacts(s.c, prefix);
  }

  lemma GenuineCallersStep(digest: string -> string, requests: map<nat, Request>, cfg: Settings, s: System<Response>,
                           e: Event<Response>)
    requires Enabled(s, e) && Dispatched(digest, requests, e)
    requires GenuineCache(digest, requests, s.c) && GenuineCallers(digest, requests, s)
    ensures GenuineCallers(digest, requests, Next(cfg, s, e))
  {
    if e.Arrive? || e.Wake? {
      var key := if e.Arrive? then e.key else s.callers[e.id].key;
      GenuineGet(digest, requests, cfg, s.c, key, e.time);
    }
  }

  /** From an empty cache, in any interleaving and whatever the names, the result a caller gets was
      produced by one of the requests, with the caller's own key. */
  lemma {:induction false} SharesKey(digest: string -> string, requests: map<nat, Request>, cfg: Settings,
                                     ss: seq<System<Response>>, es: seq<Event<Response>>, n: nat)
    requires IsRun(cfg, ss, es) && n <= |es| && ss[0].c.l1 == [] && ss[0].c.l2 == map[]
    requires forall i :: 0 <= i < |es| ==> Dispatched(digest, requests, es[i])
    ensures GenuineCache(digest, requests, ss[n].c)
    ensures GenuineCallers(digest, requests, ss[n])
  {
    if n > 0 {
      SharesKey(digest, requests, cfg, ss, es, n - 1);
      assert Enabled(ss[n - 1], es[n - 1]);
      GenuineCacheStep(digest, requests, cfg, ss[n - 1], es[n - 1]);
      GenuineCallersStep(digest, requests, cfg, ss[n - 1], es[n - 1]);
    }
  }

  predicate AnsweredWith(s: System<Response>, id: nat, v: Response) {
    id in s.callers && s.callers[id].phase.Done? && s.callers[id].phase.outcome == Returned(v)
  }

  /** So with colon-free tools, whatever the tenants, the result a cacheable call returns was
      produced by that tool's `execute` on the same tenant and arguments. */
  lemma Transparent(digest: string -> string, requests: map<nat, Request>, cfg: Settings, ss: seq<System<Response>>,
                    es: seq<Event<Response>>, n: nat, id: nat, v: Response)
    requires Injective(digest) && Hex(digest) && IsRun(cfg, ss, es) && n <= |es|
    requires ss[0].c.l1 == [] && ss[0].c.l2 == map[] && AnsweredWith(ss[n], id, v)
    requires forall i :: 0 <= i < |es| ==> Dispatched(digest, requests, es[i])
    requires forall i :: i in requests ==> ColonFree(requests[i].tool)
    ensures id in requests && v.request == requests[id]
  {
    SharesKey(digest, requests, cfg, ss, es, n);
    KeyInjective(digest, v.request, requests[id]);
  }

  // ---------------------------------------------------------------------------------
  // When one tenant is answered with another's result
  // ---------------------------------------------------------------------------------

  /** A run of dispatched calls from an empty cache answers a call of tenant b with a result of
      tenant a. */
  ghost predicate Leak(digest: string -> string, cfg: Settings, requests: map<nat, Request>, ss: seq<System<Response>>,
                       es: seq<Event<Response>>, id: nat, v: Response, a: string, b: string) {
    && IsRun(cfg, ss, es) && ss[0].c.l1 == [] && ss[0].c.l2 == map[]
    && (forall i :: 0 <= i < |es| ==> Dispatched(digest, requests, es[i]))
    && id in requests && requests[id].tenant == b && v.request.tenant == a && AnsweredWith(ss[|es|], id, v)
  }

  lemma LeaksExtend(digest: string -> string, cfg: Settings, requests: map<nat, Request>, ss: seq<System<Response>>,
                    es: seq<Event<Response>>, id: nat, v: Response, a: string, b: string)
    requires Injective(digest) && Hex(digest) && a != b && Leak(digest, cfg, requests, ss, es, id, v, a, b)
    ensures Extends(a, b)
  {
    SharesKey(digest, requests, cfg, ss, es, |es|);
    KeysEqualIff(digest, v.request, requests[id]);
    SameFullName(a, v.request.tool, b, requests[id].tool);
  }

  lemma ColonsLeak(digest: string -> string, cfg: Settings, a: string, b: string, args: string, body: string)
    returns (requests: map<nat, Request>, ss: seq<System<Response>>, es: seq<Event<Response>>, v: Response)
    requires Injective(digest) && Hex(digest) && Extends(a, b)
    ensures Leak(digest, cfg, requests, ss, es, 1, v, a, b)
  {
    var (t, u) := SharedTools(a, b);
    var r, q := Request(a, t, args), Request(b, u, args);
    SharedToolsShare(a, b);
    KeysEqualIff(digest, r, q);
    requests, v := map[0 := r, 1 := q], Response(r, body);
    ss, es := SharedKey(cfg, CacheKey(digest, r), v);
  }

  /** One tenant can be answered with another's result, under some tools, if and only if one's name
      goes on from the other's with a colon. */
  lemma LeakIff(digest: string -> string, cfg: Settings, a: string, b: string)
    requires Injective(digest) && Hex(digest) && a != b
    ensures (exists requests, ss, es, id, v :: Leak(digest, cfg, requests, ss, es, id, v, a, b)) <==> Extends(a, b)
  {
    if Extends(a, b) {
      var requests, ss, es, v := ColonsLeak(digest, cfg, a, b, "", "");
    }
    forall requests, ss, es, id, v | Leak(digest, cfg, requests, ss, es, id, v, a, b) ensures Extends(a, b) {
      LeaksExtend(digest, cfg, requests, ss, es, id, v, a, b);
    }
  }

  /** A computation has landed in an empty cache. */
  lemma OneLands(cfg: Settings, key: Key, v: Response) returns (ss: seq<System<Response>>, es: seq<Event<Response>>)
    ensures IsRun(cfg, ss, es) && ss[0].c == Cache([], map[], map[], 0, 0)
    ensures es == [Arrive(0, key, Some(1), 0.0), Return(0, Returned(v), 0.0)]
    ensures ss[2].clock == 0.0 && ss[2].callers.Keys == {0} && DistinctKeys(ss[2].c.l1)
    ensures key in ss[2].c.l2 && ss[2].c.l2[key] == Stored(v, 1.0)
    ensures forall e :: e in ss[2].c.l1 && e.key == key ==> e.value == v
  {
    es := [Arrive(0, key, Some(1), 0.0), Return(0, Returned(v), 0.0)];
    var c0: Cache<Response> := Cache([], map[], map[], 0, 0);
    var s0 := System(c0, 0.0, map[]);
    var s1 := Next(cfg, s0, es[0]);
    assert s1.c.l1 == [] && s1.callers == map[0 := Caller(key, Some(1), Computing(true, 0.0))];
    SetFacts(cfg, s1.c, key, v, Some(1), 0.0);
    ss := [s0, s1, Next(cfg, s1, es[1])];
  }

  /** Whoever arrives after it is answered with its value. */
  lemma SharedKey(cfg: Settings, key: Key, v: Response) returns (ss: seq<System<Response>>, es: seq<Event<Response>>)
    ensures IsRun(cfg, ss, es) && ss[0].c == Cache([], map[], map[], 0, 0)
    ensures es == [Arrive(0, key, Some(1), 0.0), Return(0, Returned(v), 0.0), Arrive(1, key, Some(1), 0.0)]
    ensures 1 in ss[3].callers && ss[3].callers[1].phase == Done(Returned(v), false)
  {
    ss, es := OneLands(cfg, key, v);
    var e := Arrive(1, key, Some(1), 0.0);
    LiveGet(cfg, ss[2].c, key, v, 1.0, 0.0);
    ss, es := ss + [Next(cfg, ss[2], e)], es + [e];
  }
}
