/**
  Invalidation while calls execute: whether what is answered after it can be older than it.
*/
module ServerInvalidation {
  import opened Errors
  import opened Server
  import opened ServerRuns
  import opened ServerParts
  import opened ServerSafety
  import opened ServerAccounts
  import opened ServerCache
  import opened ServerScenes
  import opened ServerWitnesses
  import opened CacheTransparency
  import CacheFacts
  import CacheFreshness
  import CacheManager
  import Lru
  import SingleFlight

  /** A call of the key executes. */
  predicate ExecutesKey(cfg: Settings, s: State, key: string, id: nat) {
    id < |s.flights| && OfKey(cfg, key)(s.flights[id].call) && Executing(s.flights[id])
  }

  /** What the call returns is stored for some time: its lifetime is not negative. */
  predicate StoresKey(cfg: Settings, s: State, key: string, id: nat) {
    ExecutesKey(cfg, s, key, id) && CacheManager.L2Ttl(cfg.cache, TtlOf(s.flights[id].call)) >= 0
  }

  ghost predicate KeyBusy(cfg: Settings, s: State, key: string) {
    exists id :: StoresKey(cfg, s, key, id)
  }

  /** The call that event k answers got a value that a call launched at event m or later produced. */
  ghost predicate Anew(cfg: Settings, ss: seq<State>, es: seq<Event>, m: nat, k: nat, id: nat)
    requires k < |es| && |ss| == |es| + 1 && id < |ss[k + 1].flights|
  {
    exists l: nat, i: nat, v ::
      && m <= l < i < k && Produces(cfg, ss, es, i, KeyOf(cfg, ss[k + 1].flights[id].call), v, At(es[i]))
      && es[l].Launch? && es[l].id == es[i].id && ss[k + 1].flights[id].stage == Stage.Done(Returned(v))
  }

  // ---------------------------------------------------------------------------------
  // Nothing executes: answers are new
  // ---------------------------------------------------------------------------------

  lemma OnlyLaunchStarts(cfg: Settings, s: State, e: Event, id: nat)
    requires Enabled(cfg, s, e) && id < |Next(cfg, s, e).flights| && Executing(Next(cfg, s, e).flights[id])
    requires id < |s.flights| ==> !Executing(s.flights[id])
    ensures e.Launch? && e.id == id
  {
  }

  lemma {:induction false} LaunchedSince(cfg: Settings, ss: seq<State>, es: seq<Event>, m: nat, n: nat, id: nat)
    returns (l: nat)
    requires IsRun(cfg, ss, es) && m <= n <= |es| && id < |ss[n].flights| && Executing(ss[n].flights[id])
    requires id < |ss[m].flights| ==> !Executing(ss[m].flights[id])
    ensures m <= l < n && es[l].Launch? && es[l].id == id
    decreases n
  {
    if m < n {
      StepOf(cfg, ss, es, n - 1);
      if id < |ss[n - 1].flights| && Executing(ss[n - 1].flights[id]) {
        l := LaunchedSince(cfg, ss, es, m, n - 1, id);
      } else {
        OnlyLaunchStarts(cfg, ss[n - 1], es[n - 1], id);
        l := n - 1;
      }
    }
  }

  lemma ProducerExecutes(cfg: Settings, ss: seq<State>, es: seq<Event>, i: nat, key: string, v: Response)
    requires IsRun(cfg, ss, es) && i < |es| && Produces(cfg, ss, es, i, key, v, At(es[i]))
    ensures ExecutesKey(cfg, ss[i], key, es[i].id)
  {
    StepOf(cfg, ss, es, i);
  }

  /** If no call of the key executes at its invalidation, or only some whose lifetime is negative,
      whatever is answered from then on was produced by a call launched since. */
  lemma AnswersAreNew(cfg: Settings, ss: seq<State>, es: seq<Event>, j: nat, k: nat, id: nat)
    requires IsRun(cfg, ss, es) && j < k < |es| && Answered(cfg, ss, es, k, id)
    requires Drops(es, j, KeyOf(cfg, ss[k + 1].flights[id].call))
    requires !KeyBusy(cfg, ss[j + 1], KeyOf(cfg, ss[k + 1].flights[id].call))
    ensures Anew(cfg, ss, es, j + 1, k, id)
  {
    var key := KeyOf(cfg, ss[k + 1].flights[id].call);
    var i, v := AnswersAreFresh(cfg, ss, es, k, id);
    assert i > j by {
      assert i < j ==> Keeps(cfg, ss, es, j, key);
    }
    ProducerExecutes(cfg, ss, es, i, key, v);
    var p := es[i].id;
    if p < |ss[j + 1].flights| {
      CallsPersist(cfg, ss, es, j + 1, i, p);
      assert !StoresKey(cfg, ss[j + 1], key, p);
    }
    var l := LaunchedSince(cfg, ss, es, j + 1, i, p);
  }

  // ---------------------------------------------------------------------------------
  // A call executes: its value comes back
  // ---------------------------------------------------------------------------------

  /** A longer run, in which nothing more is launched. */
  ghost predicate Continues(cfg: Settings, ss: seq<State>, es: seq<Event>, ss': seq<State>, es': seq<Event>) {
    && IsRun(cfg, ss', es') && es <= es' && ss <= ss'
    && forall m :: |es| <= m < |es'| ==> !es'[m].Launch?
  }

  lemma Continue(cfg: Settings, ss: seq<State>, es: seq<Event>, e: Event) returns (ss': seq<State>, es': seq<Event>)
    requires IsRun(cfg, ss, es) && Enabled(cfg, ss[|es|], e) && !e.Launch?
    ensures Continues(cfg, ss, es, ss', es') && es' == es + [e] && ss' == ss + [Next(cfg, ss[|es|], e)]
  {
    es', ss' := es + [e], ss + [Next(cfg, ss[|es|], e)];
    forall i | 0 <= i < |es'| ensures StepAt(cfg, ss', es', i) {
      assert i < |es| ==> StepAt(cfg, ss, es, i);
    }
  }

  /** A call that executes can come to run. */
  lemma Awakes(cfg: Settings, ss: seq<State>, es: seq<Event>, p: nat) returns (ss': seq<State>, es': seq<Event>)
    requires IsRun(cfg, ss, es) && p < |ss[|es|].flights| && Executing(ss[|es|].flights[p])
    ensures Continues(cfg, ss, es, ss', es')
    ensures var s, t := ss[|es|], ss'[|es'|];
            && p < |t.flights| && t.flights[p].call == s.flights[p].call && t.flights[p].stage.Running?
            && t.guards == s.guards && t.clock >= s.clock
  {
    var s := ss[|es|];
    if s.flights[p].stage.Running? {
      ss', es' := ss, es;
    } else {
      var at := if s.clock >= s.flights[p].stage.wakeAt then s.clock else s.flights[p].stage.wakeAt;
      AlwaysTied(cfg, ss, es, |es|);
      ResumeScene(cfg, s, p, at);
      ss', es' := Continue(cfg, ss, es, Resume(p, at));
    }
  }

  /** The key's value is stored, to be read for as long as it lives. */
  ghost predicate Stocked(cfg: Settings, s: State, key: string, v: Response, expiresAt: real) {
    && key in s.cache.c.l2 && s.cache.c.l2[key] == CacheManager.Stored(v, expiresAt)
    && Lru.DistinctKeys(s.cache.c.l1)
    && forall e :: e in s.cache.c.l1 && e.key == key ==> e.value == v
  }

  lemma StaysDistinct(cfg: Settings, ss: seq<State>, es: seq<Event>, n: nat)
    requires IsRun(cfg, ss, es) && n <= |es|
    ensures Lru.DistinctKeys(ss[n].cache.c.l1)
  {
    var steps, cs, ces := CacheRefines(cfg, ss, es, n);
    SingleFlight.AlwaysDistinct(cfg.cache, cs, ces, |ces|);
  }

  lemma StoresScene(cfg: Settings, s: State, p: nat, body: string) returns (e: Event, v: Response)
    requires Tied(cfg, s) && p < |s.flights| && s.flights[p].stage.Running? && s.flights[p].attempts > 0
    requires UsesCache(cfg, s.flights[p].call) && Lru.DistinctKeys(s.cache.c.l1)
    ensures e == AttemptEnds(p, Answer(body), 0.0, s.clock) && Enabled(cfg, s, e)
    ensures v == Response(RequestOf(s.flights[p].call), body)
    ensures var t := Next(cfg, s, e);
            && t.guards == s.guards && t.clock == s.clock && p < |t.flights|
            && t.flights[p].stage == Stage.Done(Returned(v))
            && Stocked(cfg, t, KeyOf(cfg, s.flights[p].call), v,
                       s.clock + CacheManager.L2Ttl(cfg.cache, TtlOf(s.flights[p].call)) as real)
  {
    e, v := AttemptEnds(p, Answer(body), 0.0, s.clock), Response(RequestOf(s.flights[p].call), body);
    assert FlightAtCache(cfg, s, p);
    TiedEnables(cfg, s, e);
    CacheFacts.SetFacts(cfg.cache, s.cache.c, KeyOf(cfg, s.flights[p].call), v, TtlOf(s.flights[p].call), s.clock);
  }

  lemma ReadScene(cfg: Settings, s: State, c: Call, v: Response, expiresAt: real)
    requires Tied(cfg, s) && UsesCache(cfg, c) && Passes(cfg, s.guards, c, s.clock)
    requires Stocked(cfg, s, KeyOf(cfg, c), v, expiresAt) && s.clock <= expiresAt
    ensures Enabled(cfg, s, Begin(c, s.clock))
    ensures var t := Next(cfg, s, Begin(c, s.clock));
            && |t.flights| == |s.flights| + 1 && t.flights[|s.flights|].call == c
            && t.flights[|s.flights|].stage == Stage.Done(Returned(v))
  {
    TiedEnables(cfg, s, Begin(c, s.clock));
    SingleFlight.LiveGet(cfg.cache, s.cache.c, KeyOf(cfg, c), v, expiresAt, s.clock);
  }

  /** The running call returns, and the next call of its key gets what it returned. */
  lemma StoredThenRead(cfg: Settings, s: State, c: Call, p: nat, body: string)
    returns (e: Event, m: State, t: State)
    requires Tied(cfg, s) && p < |s.flights| && s.flights[p].stage.Running? && s.flights[p].attempts > 0
    requires OfKey(cfg, KeyOf(cfg, c))(s.flights[p].call) && UsesCache(cfg, c) && Lru.DistinctKeys(s.cache.c.l1)
    requires CacheManager.L2Ttl(cfg.cache, TtlOf(s.flights[p].call)) >= 0 && Passes(cfg, s.guards, c, s.clock)
    ensures e == AttemptEnds(p, Answer(body), 0.0, s.clock) && Enabled(cfg, s, e) && m == Next(cfg, s, e)
    ensures Enabled(cfg, m, Begin(c, s.clock)) && t == Next(cfg, m, Begin(c, s.clock))
    ensures m.flights == s.flights[p := m.flights[p]] && m.flights[p].stage.Done?
    ensures |t.flights| == |s.flights| + 1 && t.flights[p].call == s.flights[p].call
    ensures t.flights[|s.flights|].call == c
    ensures t.flights[|s.flights|].stage == Stage.Done(Returned(Response(RequestOf(s.flights[p].call), body)))
  {
    var v;
    e, v := StoresScene(cfg, s, p, body);
    m := Next(cfg, s, e);
    StaysTied(cfg, s, e);
    ReadScene(cfg, m, c, v, s.clock + CacheManager.L2Ttl(cfg.cache, TtlOf(s.flights[p].call)) as real);
    t := Next(cfg, m, Begin(c, s.clock));
    FlightsKept(cfg, s, e, p);
    FlightsKept(cfg, m, Begin(c, m.clock), p);
  }

  /** The last event answers a call with what the call p produced. */
  ghost predicate AnsweredBy(cfg: Settings, ss: seq<State>, es: seq<Event>, c: Call, p: nat, body: string) {
    && |es| > 0 && |ss| == |es| + 1 && p < |ss[|es|].flights| - 1
    && var id := |ss[|es|].flights| - 1;
       && Answered(cfg, ss, es, |es| - 1, id) && ss[|es|].flights[id].call == c
       && ss[|es|].flights[id].stage == Stage.Done(Returned(Response(RequestOf(ss[|es|].flights[p].call), body)))
  }

  lemma ReadyToAnswer(cfg: Settings, ss: seq<State>, es: seq<Event>, p: nat)
    requires IsRun(cfg, ss, es) && p < |ss[|es|].flights| && ss[|es|].flights[p].stage.Running? && cfg.retryMax >= 1
    ensures Tied(cfg, ss[|es|]) && ss[|es|].flights[p].attempts > 0 && Lru.DistinctKeys(ss[|es|].cache.c.l1)
  {
    AlwaysTied(cfg, ss, es, |es|);
    AlwaysAccounted(cfg, ss, es, |es|, p);
    StaysDistinct(cfg, ss, es, |es|);
  }

  lemma ContinueTwice(cfg: Settings, ss: seq<State>, es: seq<Event>, e: Event, m: State, f: Event, t: State)
    returns (ss': seq<State>, es': seq<Event>)
    requires IsRun(cfg, ss, es) && Enabled(cfg, ss[|es|], e) && m == Next(cfg, ss[|es|], e) && !e.Launch?
    requires Enabled(cfg, m, f) && t == Next(cfg, m, f) && !f.Launch?
    ensures Continues(cfg, ss, es, ss', es') && es' == es + [e, f] && ss' == ss + [m, t]
  {
    ss', es' := Continue(cfg, ss, es, e);
    ss', es' := Continue(cfg, ss', es', f);
  }

  lemma BeginAnswers(cfg: Settings, ss: seq<State>, es: seq<Event>, m: State, t: State, c: Call, at: real, p: nat,
                     body: string)
    requires |es| >= 1 && |ss| == |es| + 1 && ss[|es| - 1] == m && ss[|es|] == t && es[|es| - 1] == Begin(c, at)
    requires UsesCache(cfg, c) && |t.flights| == |m.flights| + 1 && p < |m.flights| && t.flights[|m.flights|].call == c
    requires t.flights[|m.flights|].stage == Stage.Done(Returned(Response(RequestOf(t.flights[p].call), body)))
    ensures AnsweredBy(cfg, ss, es, c, p, body)
  {
  }

  lemma RunningAnswers(cfg: Settings, ss: seq<State>, es: seq<Event>, c: Call, p: nat, body: string)
    returns (ss': seq<State>, es': seq<Event>)
    requires IsRun(cfg, ss, es) && UsesCache(cfg, c) && cfg.retryMax >= 1
    requires StoresKey(cfg, ss[|es|], KeyOf(cfg, c), p) && ss[|es|].flights[p].stage.Running?
    requires Passes(cfg, ss[|es|].guards, c, ss[|es|].clock)
    ensures Continues(cfg, ss, es, ss', es') && |es'| > |es| && AnsweredBy(cfg, ss', es', c, p, body)
  {
    ReadyToAnswer(cfg, ss, es, p);
    var e, m, t := StoredThenRead(cfg, ss[|es|], c, p, body);
    ss', es' := ContinueTwice(cfg, ss, es, e, m, Begin(c, ss[|es|].clock), t);
    BeginAnswers(cfg, ss', es', m, t, c, ss[|es|].clock, p, body);
  }

  /** If a call of the key executes, its value can be stored and answer a later call. */
  lemma OldValueReturns(cfg: Settings, ss: seq<State>, es: seq<Event>, c: Call, p: nat, body: string)
    returns (ss': seq<State>, es': seq<Event>)
    requires IsRun(cfg, ss, es) && UsesCache(cfg, c) && cfg.retryMax >= 1
    requires StoresKey(cfg, ss[|es|], KeyOf(cfg, c), p) && Harmless(cfg, c)
    requires Room(cfg, ss[|es|], c, ss[|es|].clock, 1) && QuotaOf(cfg, c).refillPerMinute >= 0
    ensures Continues(cfg, ss, es, ss', es') && |es'| > |es| && AnsweredBy(cfg, ss', es', c, p, body)
  {
    ss', es' := Awakes(cfg, ss, es, p);
    var s, t := ss[|es|], ss'[|es'|];
    RoomLater(cfg, s, c, s.clock, t.clock, 1);
    GuardsPass(cfg, s, c, t.clock);
    ss', es' := RunningAnswers(cfg, ss', es', c, p, body);
  }

  /** Whatever is answered for the key from event m on was produced by a call launched since. */
  ghost predicate AllAnew(cfg: Settings, ss: seq<State>, es: seq<Event>, m: nat, key: string)
    requires |ss| == |es| + 1
  {
    forall k: nat, id: nat ::
      m <= k < |es| && Answered(cfg, ss, es, k, id) && KeyOf(cfg, ss[k + 1].flights[id].call) == key
      ==> Anew(cfg, ss, es, m, k, id)
  }

  lemma QuietKeyAnswersAnew(cfg: Settings, ss: seq<State>, es: seq<Event>, j: nat, key: string)
    requires IsRun(cfg, ss, es) && j < |es| && Drops(es, j, key) && !KeyBusy(cfg, ss[j + 1], key)
    ensures AllAnew(cfg, ss, es, j + 1, key)
  {
    forall k: nat, id: nat
      | j + 1 <= k < |es| && Answered(cfg, ss, es, k, id) && KeyOf(cfg, ss[k + 1].flights[id].call) == key
      ensures Anew(cfg, ss, es, j + 1, k, id)
    {
      AnswersAreNew(cfg, ss, es, j, k, id);
    }
  }

  /** Once a key has been deleted or invalidated, every answer for it, however the run goes on, was
      produced by a call launched since, if and only if no call of the key executes at the time
      whose value would be stored with a lifetime that is not negative. */
  lemma InvalidationHoldsIff(cfg: Settings, ss: seq<State>, es: seq<Event>, c: Call)
    requires IsRun(cfg, ss, es) && |es| > 0 && Drops(es, |es| - 1, KeyOf(cfg, c)) && Harmless(cfg, c)
    requires UsesCache(cfg, c) && cfg.retryMax >= 1
    requires Room(cfg, ss[|es|], c, ss[|es|].clock, 1) && QuotaOf(cfg, c).refillPerMinute >= 0
    ensures (forall ss', es' :: IsRun(cfg, ss', es') && ss <= ss' && es <= es' ==>
               AllAnew(cfg, ss', es', |es|, KeyOf(cfg, c)))
            <==> !KeyBusy(cfg, ss[|es|], KeyOf(cfg, c))
  {
    var m, key := |es|, KeyOf(cfg, c);
    if !KeyBusy(cfg, ss[m], key) {
      forall ss', es' | IsRun(cfg, ss', es') && ss <= ss' && es <= es' ensures AllAnew(cfg, ss', es', m, key) {
        QuietKeyAnswersAnew(cfg, ss', es', m - 1, key);
      }
    } else {
      var p :| StoresKey(cfg, ss[m], key, p);
      var ss', es' := OldValueReturns(cfg, ss, es, c, p, "");
      var k, id := |es'| - 1, |ss'[|es'|].flights| - 1;
      assert !Anew(cfg, ss', es', m, k, id);
    }
  }

  /** A run that meets the premises of `InvalidationHoldsIff`, under the default settings, with a call
      of the key executing. */
  lemma DroppedWhileExecuting(digest: string -> string, c: Call)
    returns (cfg: Settings, ss: seq<State>, es: seq<Event>)
    requires c == PlainCall(c.tenant, ToolName(c), c.args)
    ensures cfg == Defaults(digest) && IsRun(cfg, ss, es) && |es| > 0 && Drops(es, |es| - 1, KeyOf(cfg, c))
    ensures Harmless(cfg, c) && UsesCache(cfg, c) && cfg.retryMax >= 1
    ensures Room(cfg, ss[|es|], c, ss[|es|].clock, 1) && QuotaOf(cfg, c).refillPerMinute >= 0
    ensures StoresKey(cfg, ss[|es|], KeyOf(cfg, c), 0)
  {
    cfg := Defaults(digest);
    DefaultsAdmit(digest, c.tenant, ToolName(c), c.args);
    var s;
    ss, es, s := FirstLaunched(cfg, c, 1);
    var op := CacheFreshness.DeleteOp(KeyOf(cfg, c), 0.0);
    TiedEnables(cfg, s, Direct(op));
    ss, es := ReachNext(cfg, ss, es, s, Direct(op));
  }

  /** Such a run, on time: the key is dropped while a call of it executes, and the next call gets
      what that one returned. */
  lemma LateWriteSurvives(cfg: Settings, c: Call, op: CacheFreshness.Op<Response>, body: string)
    returns (ss: seq<State>, es: seq<Event>)
    requires Harmless(cfg, c) && UsesCache(cfg, c) && cfg.retryMax >= 1
    requires CacheManager.L2Ttl(cfg.cache, TtlOf(c)) >= 0
    requires cfg.rateLimited ==> QuotaOf(cfg, c).capacity >= 2
    requires !op.SetOp? && op.at == 0.0 && SingleFlight.Disturbs(SingleFlight.Direct(op), KeyOf(cfg, c))
    ensures IsRun(cfg, ss, es) && OnTime(ss, es, 0.0)
    ensures es == [Begin(c, 0.0), Launch(0, 0.0), Direct(op), AttemptEnds(0, Answer(body), 0.0, 0.0), Begin(c, 0.0)]
    ensures |ss[5].flights| == 2 && ss[5].flights[0].call == c && AnsweredBy(cfg, ss, es, c, 0, body)
    ensures Drops(es, 2, KeyOf(cfg, c)) && !AllAnew(cfg, ss, es, 3, KeyOf(cfg, c))
  {
    var s;
    ss, es, s := FirstLaunched(cfg, c, 1);
    ss, es, s := DropScene(cfg, ss, es, s, c, op);
    ss, es := AnswersNow(cfg, ss, es, s, c, c, body);
    NotAnew(cfg, ss, es, c, body);
  }

  lemma NotAnew(cfg: Settings, ss: seq<State>, es: seq<Event>, c: Call, body: string)
    requires |es| == 5 && !es[3].Launch? && !es[4].Launch? && AnsweredBy(cfg, ss, es, c, 0, body)
    ensures !AllAnew(cfg, ss, es, 3, KeyOf(cfg, c))
  {
    var id := |ss[5].flights| - 1;
    assert Answered(cfg, ss, es, 4, id) && !Anew(cfg, ss, es, 3, 4, id);
  }

  lemma ReachTwice(cfg: Settings, ss: seq<State>, es: seq<Event>, s: State, e: Event, m: State, f: Event, t: State)
    returns (ss': seq<State>, es': seq<Event>)
    requires Reaches(cfg, ss, es, s) && Enabled(cfg, s, e) && m == Next(cfg, s, e) && AllDue(s, At(e))
    requires Enabled(cfg, m, f) && t == Next(cfg, m, f) && AllDue(m, At(f))
    ensures IsRun(cfg, ss', es') && OnTime(ss', es', 0.0) && es' == es + [e, f] && ss' == ss + [m, t]
  {
    ss', es' := ReachNext(cfg, ss, es, s, e);
    ss', es' := ReachNext(cfg, ss', es', m, f);
  }

  /** The one call returns, and the next of its key is answered with what it returned. */
  lemma AnswersNow(cfg: Settings, ss: seq<State>, es: seq<Event>, s: State, c: Call, d: Call, body: string)
    returns (ss': seq<State>, es': seq<Event>)
    requires Reaches(cfg, ss, es, s) && |s.flights| == 1 && s.flights[0].stage.Running? && s.flights[0].attempts > 0
    requires s.flights[0].call == c && UsesCache(cfg, c) && UsesCache(cfg, d) && KeyOf(cfg, c) == KeyOf(cfg, d)
    requires CacheManager.L2Ttl(cfg.cache, TtlOf(c)) >= 0 && Passes(cfg, s.guards, d, s.clock)
    requires Lru.DistinctKeys(s.cache.c.l1) && AllDue(s, s.clock)
    ensures IsRun(cfg, ss', es') && OnTime(ss', es', 0.0) && AnsweredBy(cfg, ss', es', d, 0, body)
    ensures |ss'[|es'|].flights| == 2 && ss'[|es'|].flights[0].call == c
    ensures es' == es + [AttemptEnds(0, Answer(body), 0.0, s.clock), Begin(d, s.clock)]
  {
    var e, m, t := StoredThenRead(cfg, s, d, 0, body);
    ss', es' := ReachTwice(cfg, ss, es, s, e, m, Begin(d, s.clock), t);
    BeginAnswers(cfg, ss', es', m, t, d, s.clock, 0, body);
  }

  lemma DropScene(cfg: Settings, ss: seq<State>, es: seq<Event>, s: State, c: Call, op: CacheFreshness.Op<Response>)
    returns (ss': seq<State>, es': seq<Event>, t: State)
    requires Reaches(cfg, ss, es, s) && Underway(cfg, INITIAL, s, c, 0.0, 7.5) && Room(cfg, s, c, 0.0, 1)
    requires Harmless(cfg, c) && UsesCache(cfg, c) && !op.SetOp? && op.at == 0.0
    ensures Reaches(cfg, ss', es', t) && es' == es + [Direct(op)] && ss' == ss + [t]
    ensures t.flights == s.flights && t.clock == 0.0 && Passes(cfg, t.guards, c, 0.0) && AllDue(t, 0.0)
    ensures Lru.DistinctKeys(t.cache.c.l1)
  {
    GuardsPass(cfg, s, c, 0.0);
    TiedEnables(cfg, s, Direct(op));
    t := Next(cfg, s, Direct(op));
    ss', es' := ReachNext(cfg, ss, es, s, Direct(op));
    StaysDistinct(cfg, ss', es', |es'|);
  }
}
