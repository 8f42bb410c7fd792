/**
 * The retry executor of `DriveService.executeWithRetry`: one remote operation is
 * invoked at most `MaxAttempts` times; a failure is retried only when its HTTP status
 * or its network error code is transient, with an exponential backoff plus jitter
 * between attempts.
 *
 * The remote operation is a script: `script[k]` is what the (k+1)-th invocation
 * yields. The jitter `Math.floor(Math.random() * 100)` is an input as well:
 * `jitters[k]` is the jitter drawn for the (k+1)-th sleep.
 */
module Retry {
  import opened Wrappers

  const MaxAttempts: nat := 5
  const InitialDelayMs: nat := 500
  const MaxDelayMs: nat := 8000
  const MaxJitterMs: nat := 99

  const RetryableStatusCodes: set<int> := {429, 500, 502, 503, 504}
  const RetryableErrorCodes: set<string> := {"ETIMEDOUT", "ECONNRESET", "ENOTFOUND", "EAI_AGAIN"}

  /** A thrown error: `err.response.status`, `err.code`, and everything else about it. */
  datatype Failure = Failure(status: Option<int>, code: Option<string>, detail: string)

  /** What one invocation of a remote operation yields: a value, or a thrown error. */
  datatype Outcome<+T> = Ok(value: T) | Err(failure: Failure)

  /**
   * The retry classification; `code` must also be truthy, so "" never qualifies.
   * Stated against the optional fields themselves: the status or the code is one of
   * the listed present values.
   */
  predicate IsRetryable(f: Failure): (retry: bool)
    ensures retry <==>
      f.status in {Some(429), Some(500), Some(502), Some(503), Some(504)} ||
      f.code in {Some("ETIMEDOUT"), Some("ECONNRESET"), Some("ENOTFOUND"), Some("EAI_AGAIN")}
    ensures f.status.None? && f.code.None? ==> !retry
  {
    (f.status.Some? && f.status.value in RetryableStatusCodes) ||
    (f.code.Some? && f.code.value != "" && f.code.value in RetryableErrorCodes)
  }

  /** An outcome after which the executor makes no further attempt, whatever the count. */
  predicate Settles<T>(o: Outcome<T>) {
    o.Ok? || !IsRetryable(o.failure)
  }

  function Min(a: int, b: int): int {
    if a < b then a else b
  }

  function Pow2(n: nat): nat {
    if n == 0 then 1 else 2 * Pow2(n - 1)
  }

  /** The base delay of the sleep that follows the (n+1)-th failed attempt: 500 * 2^n, capped. */
  function BaseDelay(n: nat): nat {
    Min(InitialDelayMs * Pow2(n), MaxDelayMs)
  }

  /** Jitters the executor may draw: one per possible sleep, each in [0, 99]. */
  predicate ValidJitters(jitters: seq<nat>) {
    |jitters| >= MaxAttempts - 1 &&
    forall k :: 0 <= k < |jitters| ==> jitters[k] <= MaxJitterMs
  }

  function AttemptsFrom<T>(script: seq<Outcome<T>>, from: nat): (n: nat)
    requires |script| >= MaxAttempts && from < MaxAttempts
    ensures from < n <= MaxAttempts
    ensures Settles(script[n - 1]) || n == MaxAttempts
    ensures forall j :: from <= j < n - 1 ==> !Settles(script[j])
    decreases MaxAttempts - from
  {
    if Settles(script[from]) || from == MaxAttempts - 1 then from + 1
    else AttemptsFrom(script, from + 1)
  }

  /**
   * How many times the operation is invoked: up to and including the first attempt
   * that succeeds or fails permanently, and never more than MaxAttempts.
   */
  function Attempts<T>(script: seq<Outcome<T>>): (n: nat)
    requires |script| >= MaxAttempts
    ensures 1 <= n <= MaxAttempts
    ensures Settles(script[n - 1]) || n == MaxAttempts
    ensures forall j :: 0 <= j < n - 1 ==> !Settles(script[j])
  {
    AttemptsFrom(script, 0)
  }

  /** What `executeWithRetry` returns or throws: the outcome of the last attempt. */
  function RetryOutcome<T>(script: seq<Outcome<T>>): Outcome<T>
    requires |script| >= MaxAttempts
  {
    script[Attempts(script) - 1]
  }

  /** The sleeps performed: one after every attempt but the last, base delay plus jitter. */
  function Sleeps<T>(script: seq<Outcome<T>>, jitters: seq<nat>): (s: seq<nat>)
    requires |script| >= MaxAttempts && ValidJitters(jitters)
  {
    seq(Attempts(script) - 1, k requires 0 <= k < Attempts(script) - 1 => BaseDelay(k) + jitters[k])
  }

  /** The closed-form delay doubles from one sleep to the next, then stays at the cap. */
  lemma BaseDelayDoubles(n: nat)
    ensures BaseDelay(n + 1) == Min(2 * BaseDelay(n), MaxDelayMs)
  {
    assert Pow2(n + 1) == 2 * Pow2(n);
  }

  /** The attempt count is pinned down by where the first settling outcome lies. */
  lemma AttemptsUnique<T>(script: seq<Outcome<T>>, n: nat)
    requires |script| >= MaxAttempts && 1 <= n <= MaxAttempts
    requires Settles(script[n - 1]) || n == MaxAttempts
    requires forall j :: 0 <= j < n - 1 ==> !Settles(script[j])
    ensures Attempts(script) == n
  {
  }

  /**
   * The executor as `executeWithRetry` runs it: a loop that invokes the operation,
   * returns its value, rethrows a permanent or final failure unchanged, and otherwise
   * sleeps and doubles its delay.
   */
  method ExecuteWithRetry<T>(script: seq<Outcome<T>>, jitters: seq<nat>)
    returns (r: Outcome<T>, calls: nat, sleeps: seq<nat>)
    requires |script| >= MaxAttempts
    requires ValidJitters(jitters)
    ensures calls == Attempts(script)
    ensures r == script[calls - 1]
    ensures sleeps == Sleeps(script, jitters)
  {
    var attempt: nat := 0;
    var delayMs: nat := InitialDelayMs;
    sleeps := [];
    while true
      invariant attempt < MaxAttempts
      invariant delayMs == BaseDelay(attempt)
      invariant |sleeps| == attempt
      invariant forall k :: 0 <= k < attempt ==> sleeps[k] == BaseDelay(k) + jitters[k]
      invariant forall j :: 0 <= j < attempt ==> !Settles(script[j])
      decreases MaxAttempts - attempt
    {
      attempt := attempt + 1;
      var outcome := script[attempt - 1];
      if outcome.Ok? {
        AttemptsUnique(script, attempt);
        return outcome, attempt, sleeps;
      }
      var isRetryable := IsRetryable(outcome.failure);
      if !isRetryable || attempt >= MaxAttempts {
        AttemptsUnique(script, attempt);
        return outcome, attempt, sleeps;
      }
      var jitter := jitters[attempt - 1];
      sleeps := sleeps + [delayMs + jitter];
      BaseDelayDoubles(attempt - 1);
      delayMs := Min(delayMs * 2, MaxDelayMs);
    }
  }

  /** A permanent failure on the first attempt: one invocation, the same error rethrown. */
  lemma PermanentFailureNotRetried<T>(script: seq<Outcome<T>>)
    requires |script| >= MaxAttempts
    requires script[0].Err? && !IsRetryable(script[0].failure)
    ensures Attempts(script) == 1
    ensures RetryOutcome(script) == Err(script[0].failure)
  {
  }

  /**
   * A success after n transient failures (n < MaxAttempts) is returned unchanged,
   * after exactly n + 1 invocations.
   */
  lemma SuccessReturnedAfterRetries<T>(script: seq<Outcome<T>>, n: nat)
    requires |script| >= MaxAttempts && n < MaxAttempts
    requires forall j :: 0 <= j < n ==> script[j].Err? && IsRetryable(script[j].failure)
    requires script[n].Ok?
    ensures Attempts(script) == n + 1
    ensures RetryOutcome(script) == Ok(script[n].value)
  {
    AttemptsUnique(script, n + 1);
  }

  /** Five transient failures: five invocations, and the fifth error is the one thrown. */
  lemma ExhaustedAttemptsRethrowLast<T>(script: seq<Outcome<T>>)
    requires |script| >= MaxAttempts
    requires forall j :: 0 <= j < MaxAttempts ==> script[j].Err? && IsRetryable(script[j].failure)
    ensures Attempts(script) == MaxAttempts
    ensures RetryOutcome(script) == Err(script[MaxAttempts - 1].failure)
  {
    AttemptsUnique(script, MaxAttempts);
  }

  /**
   * At most four sleeps; the k-th waits its base delay plus a jitter of at most 99 ms,
   * the base delays being 500, 1000, 2000 and 4000 ms, so the 8000 ms cap is never reached.
   */
  lemma SleepSchedule<T>(script: seq<Outcome<T>>, jitters: seq<nat>)
    requires |script| >= MaxAttempts && ValidJitters(jitters)
    ensures |Sleeps(script, jitters)| <= MaxAttempts - 1
    ensures forall k :: 0 <= k < |Sleeps(script, jitters)| ==>
      BaseDelay(k) <= Sleeps(script, jitters)[k] <= BaseDelay(k) + MaxJitterMs
    ensures forall k :: 0 <= k < |Sleeps(script, jitters)| ==>
      Sleeps(script, jitters)[k] <= 4000 + MaxJitterMs
    ensures BaseDelay(0) == 500 && BaseDelay(1) == 1000 && BaseDelay(2) == 2000 && BaseDelay(3) == 4000
  {
    assert Pow2(1) == 2 && Pow2(2) == 4 && Pow2(3) == 8;
    forall k | 0 <= k < |Sleeps(script, jitters)|
      ensures Sleeps(script, jitters)[k] <= 4000 + MaxJitterMs
    {
      DelayBelowCap(k);
    }
  }

  /** Before the cap, every base delay of the first four sleeps is at most 4000 ms. */
  lemma {:induction false} DelayBelowCap(k: nat)
    requires k < MaxAttempts - 1
    ensures BaseDelay(k) <= 4000
  {
    assert Pow2(1) == 2 && Pow2(2) == 4 && Pow2(3) == 8;
  }

  /** The delay never exceeds its cap, however many attempts a policy would allow. */
  lemma {:induction false} DelayCapped(n: nat)
    ensures BaseDelay(n) <= MaxDelayMs
    ensures n >= 4 ==> BaseDelay(n) == MaxDelayMs
  {
    if n >= 4 {
      PowMonotone(4, n);
      assert Pow2(4) == 16 by { assert Pow2(1) == 2 && Pow2(2) == 4 && Pow2(3) == 8; }
    }
  }

  lemma {:induction false} PowMonotone(m: nat, n: nat)
    requires m <= n
    ensures Pow2(m) <= Pow2(n)
    decreases n - m
  {
    if m < n {
      PowMonotone(m, n - 1);
    }
  }

  /** Status 503 twice, then a value: the value is returned after exactly three calls. */
  lemma UnavailableTwiceThenSuccess<T>(script: seq<Outcome<T>>, v: T)
    requires |script| >= MaxAttempts
    requires script[0].Err? && script[0].failure.status == Some(503)
    requires script[1].Err? && script[1].failure.status == Some(503)
    requires script[2] == Ok(v)
    ensures Attempts(script) == 3
    ensures RetryOutcome(script) == Ok(v)
  {
    SuccessReturnedAfterRetries(script, 2);
  }
}
