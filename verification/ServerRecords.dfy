/**
  What the record of a call says of what happened to it, over every run: whether it went through
  the cache and under which key, what its attempts returned, when they were repeated, and how it
  ended. All in the words of the call and of the events.
*/
module ServerRecords {
  import opened Errors
  import opened Server
  import opened ServerRuns
  import opened ServerParts
  import opened ServerAccounts
  import opened CacheTransparency
  import Atba
  import CacheKeys
  import SingleFlight

  // ---------------------------------------------------------------------------------
  // Through the cache
  // ---------------------------------------------------------------------------------

  /** In every run, a call past the guards is a caller of the cache if and only if caching is on and
      its tool cacheable, and then under the key of its own tenant, tool and validated arguments,
      with its tool's own ttl. */
  lemma CachedIff(cfg: Settings, ss: seq<State>, es: seq<Event>, n: nat, id: nat)
    requires IsRun(cfg, ss, es) && n <= |es| && id < |ss[n].flights| && !ss[n].flights[id].stage.Refused?
    ensures var c, callers := ss[n].flights[id].call, ss[n].cache.callers;
            && (id in callers <==> cfg.cached && c.tool.Some? && c.tool.value.cacheable)
            && (id in callers ==>
                  && callers[id].key == "atlas:" + c.tenant + ":" + c.tool.value.name + ":" + cfg.digest(c.normal)
                  && callers[id].ttl == Some(c.tool.value.cacheTtl))
  {
    AlwaysTied(cfg, ss, es, n);
    assert FlightAtCache(cfg, ss[n], id);
  }

  // ---------------------------------------------------------------------------------
  // What the attempts returned
  // ---------------------------------------------------------------------------------

  /** What the first n events say of the call's attempts. */
  function Said(es: seq<Event>, n: nat, id: nat): seq<Execution>
    requires n <= |es|
  {
    if n == 0 then []
    else
      Said(es, n - 1, id) + if es[n - 1].AttemptEnds? && es[n - 1].id == id then [es[n - 1].execution] else []
  }

  /** What that means for the call: an answer is its own tool's for its own tenant and arguments, a
      failure is raised as it is, and a crash as an internal error not to be retried. */
  function Meant(c: Call, x: Execution): Outcome<Response> {
    match x
    case Answer(body) =>
      Returned(Response(CacheKeys.Request(c.tenant, if c.tool.Some? then c.tool.value.name else "", c.normal), body))
    case Failure(e) => Raised(e)
    case Crash => Raised(ToolError(Upstream, "internal_error", false))
  }

  ghost predicate Recounts(f: Flight, said: seq<Execution>) {
    f.attempts > 0 ==>
      |f.results| == |said| && forall i :: 0 <= i < |said| ==> f.results[i] == Meant(f.call, said[i])
  }

  /** Nothing was said before the call was launched. */
  predicate Silent(f: Flight, said: seq<Execution>) {
    f.stage.Refused? || f.stage.AtCache? || f.stage.Ready? ==> said == []
  }

  lemma RecountsMoved(cfg: Settings, s: State, e: Event, said: seq<Execution>)
    requires Enabled(cfg, s, e) && !e.Begin? && !e.Decide? && !e.Direct?
    requires Recounts(s.flights[e.id], said) && Silent(s.flights[e.id], said)
    requires Looping(cfg, s.flights[e.id]) && Account(cfg, s.flights[e.id])
    ensures var after := said + if e.AttemptEnds? then [e.execution] else [];
            Recounts(FlightAfter(cfg, s, e), after) && Silent(FlightAfter(cfg, s, e), after)
  {
  }

  lemma {:induction false} NothingSaidYet(cfg: Settings, ss: seq<State>, es: seq<Event>, n: nat, id: nat)
    requires IsRun(cfg, ss, es) && n <= |es| && id >= |ss[n].flights|
    ensures Said(es, n, id) == []
  {
    if n > 0 {
      StepOf(cfg, ss, es, n - 1);
      NothingSaidYet(cfg, ss, es, n - 1, id);
    }
  }

  /** In every run, the results a call has recorded are what the events said of its attempts, in order. */
  lemma {:induction false} ResultsAreSaid(cfg: Settings, ss: seq<State>, es: seq<Event>, n: nat, id: nat)
    requires IsRun(cfg, ss, es) && n <= |es| && id < |ss[n].flights|
    ensures Recounts(ss[n].flights[id], Said(es, n, id)) && Silent(ss[n].flights[id], Said(es, n, id))
  {
    if n > 0 {
      var s, e := ss[n - 1], es[n - 1];
      StepOf(cfg, ss, es, n - 1);
      if id < |s.flights| {
        ResultsAreSaid(cfg, ss, es, n - 1, id);
        AlwaysLooping(cfg, ss, es, n - 1, id);
        AlwaysAccounted(cfg, ss, es, n - 1, id);
        FlightsKept(cfg, s, e, id);
        if Moves(e, id) {
          RecountsMoved(cfg, s, e, Said(es, n - 1, id));
        }
      } else {
        NothingSaidYet(cfg, ss, es, n - 1, id);
      }
    }
  }

  // ---------------------------------------------------------------------------------
  // When they are repeated, and how the call ends
  // ---------------------------------------------------------------------------------

  /** In every run, an attempt is followed by another exactly if the tool is not destructive, the
      attempt failed with an error worth a retry, and the settings allow one more; else it ends the
      call, with what it returned. A crash is never followed by another. */
  lemma RetriedIff(cfg: Settings, ss: seq<State>, es: seq<Event>, k: nat)
    requires IsRun(cfg, ss, es) && k < |es| && es[k].AttemptEnds? && cfg.retryMax >= 1
    ensures es[k].id < |ss[k].flights| && es[k].id < |ss[k + 1].flights|
    ensures var f, stage, x := ss[k].flights[es[k].id], ss[k + 1].flights[es[k].id].stage, es[k].execution;
            && (stage.Pausing? <==>
                  && !(f.call.tool.Some? && f.call.tool.value.destructive)
                  && x.Failure? && x.error.retryable && f.attempts < cfg.retryMax)
            && (!stage.Pausing? ==> stage == Stage.Done(Meant(f.call, x)))
  {
    StepOf(cfg, ss, es, k);
    AlwaysAccounted(cfg, ss, es, k, es[k].id);
  }

  /** The event ended the call, with this outcome. */
  predicate EndedWith(es: seq<Event>, k: nat, id: nat, c: Call, outcome: Outcome<Response>) {
    && k < |es|
    && match es[k]
       case AttemptEnds(i, x, _, _) => i == id && outcome == Meant(c, x)
       case Expire(i, _) => i == id && outcome == Raised(ToolError(ErrorKind.Timeout, "timeout", true))
       case Abandon(i, _) => i == id && outcome == Aborted
       case _ => false
  }

  lemma EndsAs(cfg: Settings, ss: seq<State>, es: seq<Event>, k: nat, id: nat)
    requires IsRun(cfg, ss, es) && k < |es| && cfg.retryMax >= 1
    requires id < |ss[k].flights| && id < |ss[k + 1].flights| && Executing(ss[k].flights[id])
    requires ss[k + 1].flights[id].stage.Done?
    ensures EndedWith(es, k, id, ss[k + 1].flights[id].call, ss[k + 1].flights[id].stage.outcome)
  {
    StepOf(cfg, ss, es, k);
    FlightsKept(cfg, ss[k], es[k], id);
    AlwaysAccounted(cfg, ss, es, k, id);
  }

  lemma DoneStands(cfg: Settings, s: State, e: Event, id: nat)
    requires Enabled(cfg, s, e) && id < |s.flights| && s.flights[id].stage.Done?
    ensures id < |Next(cfg, s, e).flights| && Next(cfg, s, e).flights[id] == s.flights[id]
  {
    FlightsKept(cfg, s, e, id);
  }

  lemma OnlyExecutingAttempts(cfg: Settings, s: State, e: Event, id: nat)
    requires Enabled(cfg, s, e) && id < |s.flights| && id < |Next(cfg, s, e).flights|
    requires !Executing(s.flights[id]) && !s.flights[id].stage.Done? && Next(cfg, s, e).flights[id].stage.Done?
    requires Account(cfg, s.flights[id])
    ensures Next(cfg, s, e).flights[id].attempts == 0
  {
  }

  /** In every run, a call that has executed and is over ended as one of its events says: with what
      its last attempt returned, with the timeout error when it was cut, or with nothing when its
      client left; and nothing changes that. */
  lemma {:induction false} HowCallsEnd(cfg: Settings, ss: seq<State>, es: seq<Event>, n: nat, id: nat)
    requires IsRun(cfg, ss, es) && n <= |es| && cfg.retryMax >= 1
    requires id < |ss[n].flights| && ss[n].flights[id].stage.Done? && ss[n].flights[id].attempts > 0
    ensures exists k: nat :: k < n && EndedWith(es, k, id, ss[n].flights[id].call, ss[n].flights[id].stage.outcome)
  {
    if n > 0 {
      var s, e := ss[n - 1], es[n - 1];
      StepOf(cfg, ss, es, n - 1);
      if id < |s.flights| {
        FlightsKept(cfg, s, e, id);
        AlwaysAccounted(cfg, ss, es, n - 1, id);
        if s.flights[id].stage.Done? {
          DoneStands(cfg, s, e, id);
          HowCallsEnd(cfg, ss, es, n - 1, id);
        } else if Executing(s.flights[id]) {
          EndsAs(cfg, ss, es, n - 1, id);
        } else {
          OnlyExecutingAttempts(cfg, s, e, id);
        }
      } else {
        NewAccount(cfg, s, e);
      }
    }
  }

  // ---------------------------------------------------------------------------------
  // The backoff between attempts
  // ---------------------------------------------------------------------------------

  /** The call's last event before event n was the end of an attempt, event j, and it backs off since. */
  ghost predicate BacksOffSince(es: seq<Event>, n: nat, id: nat, j: nat, wakeAt: real)
    requires n <= |es|
  {
    && j < n && es[j].AttemptEnds? && es[j].id == id && wakeAt == es[j].at + es[j].jitterMs / 1000.0
    && forall m :: j < m < n ==> !Moves(es[m], id)
  }

  lemma {:induction false} PausesSince(cfg: Settings, ss: seq<State>, es: seq<Event>, n: nat, id: nat) returns (j: nat)
    requires IsRun(cfg, ss, es) && n <= |es| && id < |ss[n].flights| && ss[n].flights[id].stage.Pausing?
    ensures BacksOffSince(es, n, id, j, ss[n].flights[id].stage.wakeAt)
  {
    if n > 0 {
      var s, e := ss[n - 1], es[n - 1];
      StepOf(cfg, ss, es, n - 1);
      if Moves(e, id) {
        PausedByEnd(cfg, s, e);
        j := n - 1;
      } else {
        if id < |s.flights| {
          FlightsKept(cfg, s, e, id);
        }
        j := PausesSince(cfg, ss, es, n - 1, id);
      }
    }
  }

  lemma PausedByEnd(cfg: Settings, s: State, e: Event)
    requires Enabled(cfg, s, e) && !e.Begin? && !e.Decide? && !e.Direct? && FlightAfter(cfg, s, e).stage.Pausing?
    ensures e.AttemptEnds? && FlightAfter(cfg, s, e).stage.wakeAt == e.at + e.jitterMs / 1000.0
  {
  }

  /** In every run, an attempt is repeated no sooner than the backoff drawn when the last one ended. */
  lemma BackoffIsWaited(cfg: Settings, ss: seq<State>, es: seq<Event>, k: nat) returns (j: nat)
    requires IsRun(cfg, ss, es) && k < |es| && es[k].Resume?
    ensures j < k && es[j].AttemptEnds? && es[j].id == es[k].id && forall m :: j < m < k ==> !Moves(es[m], es[k].id)
    ensures At(es[k]) >= At(es[j]) + es[j].jitterMs / 1000.0
  {
    StepOf(cfg, ss, es, k);
    j := PausesSince(cfg, ss, es, k, es[k].id);
  }

  /** The backoffs drawn for the call among the first n events. */
  ghost function Drawn(ss: seq<State>, es: seq<Event>, n: nat, id: nat): real
    requires n <= |es| < |ss|
  {
    if n == 0 then 0.0
    else
      Drawn(ss, es, n - 1, id)
      + if es[n - 1].AttemptEnds? && es[n - 1].id == id && id < |ss[n].flights| && ss[n].flights[id].stage.Pausing?
        then es[n - 1].jitterMs else 0.0
  }

  lemma PausedMoved(cfg: Settings, s: State, e: Event)
    requires Enabled(cfg, s, e) && !e.Begin? && !e.Decide? && !e.Direct?
    ensures FlightAfter(cfg, s, e).pausedMs == s.flights[e.id].pausedMs
                                               + if e.AttemptEnds? && FlightAfter(cfg, s, e).stage.Pausing?
                                                 then e.jitterMs else 0.0
  {
  }

  /** A call's account of its backoff is the sum of what was drawn for it. */
  lemma {:induction false} PausedIsDrawn(cfg: Settings, ss: seq<State>, es: seq<Event>, n: nat, id: nat)
    requires IsRun(cfg, ss, es) && n <= |es|
    ensures Drawn(ss, es, n, id) == if id < |ss[n].flights| then ss[n].flights[id].pausedMs else 0.0
  {
    if n > 0 {
      var s, e := ss[n - 1], es[n - 1];
      StepOf(cfg, ss, es, n - 1);
      PausedIsDrawn(cfg, ss, es, n - 1, id);
      if Moves(e, id) {
        PausedMoved(cfg, s, e);
      } else if id < |s.flights| {
        FlightsKept(cfg, s, e, id);
      }
    }
  }

  // ---------------------------------------------------------------------------------
  // The latencies
  // ---------------------------------------------------------------------------------

  /** What event k adds to the latencies of the tool: a zero when its breaker turns a call away, and
      the time since its launch when a call that executes is over. */
  ghost function Latency(ss: seq<State>, es: seq<Event>, k: nat, tool: string): seq<real>
    requires k < |es| < |ss|
  {
    var e := es[k];
    if e.Begin? || e.Decide? || e.Direct? || e.id >= |ss[k].flights| || e.id >= |ss[k + 1].flights| then []
    else
      var f, g := ss[k].flights[e.id], ss[k + 1].flights[e.id];
      if (if f.call.tool.Some? then f.call.tool.value.name else "") != tool || !g.stage.Done? then []
      else if f.stage.Ready? then [0.0]
      else if f.stage.Running? || f.stage.Pausing? then [e.at - f.launched]
      else []
  }

  /** One after another, from the first on. */
  function Collected(parts: nat -> seq<real>, n: nat): seq<real> {
    if n == 0 then [] else Collected(parts, n - 1) + parts(n - 1)
  }

  /** All that the first n events add. */
  ghost function Latencies(ss: seq<State>, es: seq<Event>, n: nat, tool: string): seq<real>
    requires n <= |es| < |ss|
  {
    Collected((k: nat) => if k < |es| then Latency(ss, es, k, tool) else [], n)
  }

  function LastOf(s: seq<real>, n: nat): seq<real> {
    if |s| <= n then s else s[|s| - n..]
  }

  lemma SampleStep(cfg: Settings, ss: seq<State>, es: seq<Event>, k: nat, tool: string)
    requires IsRun(cfg, ss, es) && k < |es|
    ensures var latency := Latency(ss, es, k, tool);
            && |latency| <= 1
            && SamplesOf(ss[k + 1], tool) ==
               if latency == [] then SamplesOf(ss[k], tool)
               else Atba.Recorded(SamplesOf(ss[k], tool), latency[0], Atba.WINDOW)
  {
    StepOf(cfg, ss, es, k);
  }

  lemma RecordedIsLast(all: seq<real>, x: real, n: nat)
    requires n > 0
    ensures Atba.Recorded(LastOf(all, n), x, n) == LastOf(all + [x], n)
  {
  }

  lemma OneMoreSample(before: seq<real>, latency: seq<real>, after: seq<real>)
    requires |latency| <= 1
    requires after == if latency == [] then LastOf(before, 500)
                      else Atba.Recorded(LastOf(before, 500), latency[0], Atba.WINDOW)
    ensures after == LastOf(before + latency, 500)
  {
    if latency == [] {
      assert before + latency == before;
    } else {
      RecordedIsLast(before, latency[0], 500);
      assert latency == [latency[0]];
    }
  }

  /** The samples grow by the parts. */
  ghost predicate Grows(samples: nat -> seq<real>, parts: nat -> seq<real>, k: nat) {
    && |parts(k)| <= 1
    && samples(k + 1) == if parts(k) == [] then samples(k) else Atba.Recorded(samples(k), parts(k)[0], Atba.WINDOW)
  }

  lemma {:induction false} LastCollected(samples: nat -> seq<real>, parts: nat -> seq<real>, n: nat)
    requires samples(0) == [] && forall k :: 0 <= k < n ==> Grows(samples, parts, k)
    ensures samples(n) == LastOf(Collected(parts, n), 500)
  {
    if n > 0 {
      LastCollected(samples, parts, n - 1);
      assert Grows(samples, parts, n - 1);
      OneMoreSample(Collected(parts, n - 1), parts(n - 1), samples(n));
    }
  }

  /** In every run, the latencies of a tool are the last five hundred of these. */
  lemma SamplesAreLatencies(cfg: Settings, ss: seq<State>, es: seq<Event>, n: nat, tool: string)
    requires IsRun(cfg, ss, es) && n <= |es|
    ensures SamplesOf(ss[n], tool) == LastOf(Latencies(ss, es, n, tool), 500)
  {
    var samples := (k: nat) => if k < |ss| then SamplesOf(ss[k], tool) else [];
    var parts := (k: nat) => if k < |es| then Latency(ss, es, k, tool) else [];
    forall k: nat | k < n ensures Grows(samples, parts, k) {
      SampleStep(cfg, ss, es, k, tool);
    }
    LastCollected(samples, parts, n);
  }
}
