/**
  Retries with capped, full-jitter exponential backoff. What each attempt yields, the jitter
  drawn and the clock are parameters, indexed by the attempt.
*/
module Retry {
  import opened Errors

  function Pow2(n: nat): nat {
    if n == 0 then 1 else 2 * Pow2(n - 1)
  }

  /** The backoff cap after an attempt, in milliseconds. */
  function Cap(attempt: nat, baseMs: nat, maxMs: nat): nat
    requires attempt >= 1
  {
    var full := baseMs * Pow2(attempt - 1);
    if maxMs <= full then maxMs else full
  }

  predicate Retryable<V>(o: Outcome<V>) {
    o.Raised? && o.error.retryable
  }

  const MAX_DELAY_MS := 2_000

  /** Jitter is drawn between zero and the cap. */
  ghost predicate Jittered(jitter: nat -> real, baseMs: nat, maxMs: nat) {
    forall a :: a >= 1 ==> 0.0 <= jitter(a) <= Cap(a, baseMs, maxMs) as real
  }

  /** The backoff after the first n attempts together, in milliseconds. */
  function Slept(jitter: nat -> real, n: nat): real {
    if n == 0 then 0.0 else Slept(jitter, n - 1) + jitter(n)
  }

  /** Sleeping after this attempt would not end before the deadline. */
  predicate PastDeadline(jitter: nat -> real, clock: nat -> real, deadline: Option<real>, attempt: nat) {
    deadline.Some? && deadline.value - clock(attempt) <= jitter(attempt) / 1000.0
  }

  /** No attempt follows one that ended like this, deadline or not. */
  predicate Stops<V>(o: Outcome<V>, attempt: nat, maxAttempts: int) {
    !Retryable(o) || attempt >= maxAttempts
  }

  /** What the loop makes of its attempts. None for a result means that it never ran: the final
      assertion fails. Otherwise it is the outcome of the last attempt, the first one that is not
      retryable, is the last allowed, or could not be followed by a sleep before the deadline; or
      the sleep after it was cancelled. */
  ghost predicate Retried<V>(attempt: nat -> Outcome<V>, maxAttempts: int, jitter: nat -> real, clock: nat -> real,
                             deadline: Option<real>, cancelled: nat -> bool, result: Option<Outcome<V>>,
                             attempts: nat) {
    if maxAttempts <= 0 then result == None && attempts == 0
    else
      var stops := Stops(attempt(attempts), attempts, maxAttempts) || PastDeadline(jitter, clock, deadline, attempts);
      && 1 <= attempts <= maxAttempts
      && (forall a :: 1 <= a < attempts ==>
            Retryable(attempt(a)) && !PastDeadline(jitter, clock, deadline, a) && !cancelled(a))
      && result == Some(if stops then attempt(attempts) else Aborted)
      && (!stops ==> cancelled(attempts))
  }

  /** That settles the number of attempts and the result. */
  lemma RetriedOnce<V>(attempt: nat -> Outcome<V>, maxAttempts: int, jitter: nat -> real, clock: nat -> real,
                       deadline: Option<real>, cancelled: nat -> bool, r: Option<Outcome<V>>, m: nat,
                       q: Option<Outcome<V>>, n: nat)
    requires Retried(attempt, maxAttempts, jitter, clock, deadline, cancelled, r, m)
    requires Retried(attempt, maxAttempts, jitter, clock, deadline, cancelled, q, n)
    ensures m == n && r == q
  {
  }

  method WithRetry<V>(attempt: nat -> Outcome<V>, maxAttempts: int, baseMs: nat, maxMs: nat, jitter: nat -> real,
                      clock: nat -> real, deadline: Option<real>, cancelled: nat -> bool)
    returns (result: Option<Outcome<V>>, attempts: nat, sleptMs: real)
    requires Jittered(jitter, baseMs, maxMs)
    ensures Retried(attempt, maxAttempts, jitter, clock, deadline, cancelled, result, attempts)
    ensures sleptMs == if attempts == 0 then 0.0 else Slept(jitter, attempts - 1)
  {
    attempts, sleptMs := 0, 0.0;
    while attempts < maxAttempts
      invariant attempts == 0 || attempts < maxAttempts
      invariant sleptMs == Slept(jitter, attempts)
      invariant forall a :: 1 <= a <= attempts ==>
                  Retryable(attempt(a)) && !PastDeadline(jitter, clock, deadline, a) && !cancelled(a)
    {
      attempts := attempts + 1;
      var outcome := attempt(attempts);
      if !outcome.Raised? {
        return Some(outcome), attempts, sleptMs;
      }
      if !outcome.error.retryable || attempts == maxAttempts {
        return Some(outcome), attempts, sleptMs;
      }
      var delay := jitter(attempts) / 1000.0;
      if deadline.Some? {
        var remaining := deadline.value - clock(attempts);
        if remaining <= delay {
          return Some(outcome), attempts, sleptMs;
        }
      }
      if cancelled(attempts) {
        return Some(Aborted), attempts, sleptMs;
      }
      sleptMs := sleptMs + jitter(attempts);
    }
    return None, attempts, sleptMs;
  }

  /** The cap starts at the base and doubles, up to the maximum. */
  lemma CapDoubles(attempt: nat, baseMs: nat, maxMs: nat)
    requires attempt >= 1
    ensures Cap(1, baseMs, maxMs) == if baseMs <= maxMs then baseMs else maxMs
    ensures var twice := 2 * Cap(attempt, baseMs, maxMs);
            Cap(attempt + 1, baseMs, maxMs) == if twice <= maxMs then twice else maxMs
  {
    var full := baseMs * Pow2(attempt - 1);
    assert baseMs * Pow2(attempt) == 2 * full;
  }

  /** The caps of the first n sleeps together. */
  function Caps(baseMs: nat, maxMs: nat, n: nat): nat {
    if n == 0 then 0 else Caps(baseMs, maxMs, n - 1) + Cap(n, baseMs, maxMs)
  }

  lemma {:induction false} CapsBound(baseMs: nat, maxMs: nat, n: nat)
    ensures Caps(baseMs, maxMs, n) <= n * maxMs
    ensures Caps(baseMs, maxMs, n) + baseMs <= baseMs * Pow2(n)
  {
    if n > 0 {
      CapsBound(baseMs, maxMs, n - 1);
      var k := Pow2(n - 1);
      assert n * maxMs == (n - 1) * maxMs + maxMs;
      assert baseMs * (2 * k) == baseMs * k + baseMs * k;
    }
  }

  lemma {:induction false} SleptWithinCaps(jitter: nat -> real, baseMs: nat, maxMs: nat, n: nat)
    requires Jittered(jitter, baseMs, maxMs)
    ensures 0.0 <= Slept(jitter, n) <= Caps(baseMs, maxMs, n) as real
  {
    if n > 0 {
      SleptWithinCaps(jitter, baseMs, maxMs, n - 1);
    }
  }

  /** Jitter that is always drawn at the cap sleeps for all the caps. */
  lemma {:induction false} FullJitter(jitter: nat -> real, baseMs: nat, maxMs: nat, n: nat)
    requires forall a :: a >= 1 ==> jitter(a) == Cap(a, baseMs, maxMs) as real
    ensures Slept(jitter, n) == Caps(baseMs, maxMs, n) as real
  {
    if n > 0 {
      FullJitter(jitter, baseMs, maxMs, n - 1);
    }
  }

  /** Then the geometric bound is reached, as long as the maximum is not. */
  lemma {:induction false} GeometricReached(baseMs: nat, maxMs: nat, n: nat)
    requires n > 0 ==> baseMs * Pow2(n - 1) <= maxMs
    ensures Caps(baseMs, maxMs, n) == baseMs * Pow2(n) - baseMs
  {
    if n > 0 {
      var k := Pow2(n - 1);
      assert baseMs * (2 * k) == baseMs * k + baseMs * k;
      if n > 1 {
        var h := Pow2(n - 2);
        assert baseMs * (2 * h) == baseMs * h + baseMs * h;
      }
      GeometricReached(baseMs, maxMs, n - 1);
    }
  }

  /** And the other, when the base is no smaller than the maximum. */
  lemma {:induction false} LinearReached(baseMs: nat, maxMs: nat, n: nat)
    requires baseMs >= maxMs
    ensures Caps(baseMs, maxMs, n) == n * maxMs
  {
    if n > 0 {
      LinearReached(baseMs, maxMs, n - 1);
      PowPositive(n - 1);
      TimesPositive(baseMs, Pow2(n - 1));
      assert n * maxMs == (n - 1) * maxMs + maxMs;
    }
  }

  lemma {:induction false} PowPositive(n: nat)
    ensures Pow2(n) >= 1
  {
    if n > 0 {
      PowPositive(n - 1);
    }
  }

  lemma TimesPositive(x: nat, k: nat)
    requires k >= 1
    ensures x * k >= x
  {
  }

  lemma Widen(x: real, c: int, p: int)
    requires x <= c as real && c <= p
    ensures x <= p as real
  {
  }

  /** The backoff of n attempts is at most n - 1 maximum delays, and at most the geometric sum. */
  lemma BackoffBound(jitter: nat -> real, baseMs: nat, maxMs: nat, n: nat)
    requires Jittered(jitter, baseMs, maxMs) && n >= 1
    ensures 0.0 <= Slept(jitter, n - 1) <= ((n - 1) * maxMs) as real
    ensures Slept(jitter, n - 1) <= (baseMs * Pow2(n - 1) - baseMs) as real
  {
    var m := n - 1;
    var most, geometric := m * maxMs, baseMs * Pow2(m) - baseMs;
    SleptWithinCaps(jitter, baseMs, maxMs, m);
    CapsBound(baseMs, maxMs, m);
    Widen(Slept(jitter, m), Caps(baseMs, maxMs, m), most);
    Widen(Slept(jitter, m), Caps(baseMs, maxMs, m), geometric);
  }
}
