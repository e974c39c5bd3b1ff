/** The bounded exponential-backoff loop that both the embedding step
    (mcp_server.py) and the ranking step (main.py) write out by hand:
    `for attempt in range(max_retries)` with `max_retries = 3` and
    `retry_delay = 2`, a provider-specific decision after each failure, and
    a `break` on success.

    The loop is split into a generic driver (`RunFrom`) and a classifier
    supplied by each caller that decides, for a failure on a given attempt,
    whether to wait and retry or to give up. Sleeping is not modelled: the
    driver returns the list of waits it would have slept. */
module Retry {
  import opened Strings

  const MaxRetries: nat := 3
  const RetryDelay: nat := 2
  /** The index of the final attempt, `max_retries - 1`. */
  const LastAttempt: nat := MaxRetries - 1

  function Pow2(n: nat): (r: nat)
    ensures r >= 1
  {
    if n == 0 then 1 else 2 * Pow2(n - 1)
  }

  /** `retry_delay * (2 ** attempt)` seconds. */
  function Backoff(attempt: nat): (w: nat)
    ensures w >= RetryDelay
    ensures attempt == 0 ==> w == RetryDelay
    ensures attempt > 0 ==> w == 2 * Backoff(attempt - 1)
  {
    RetryDelay * Pow2(attempt)
  }

  /** The exception classes the classifiers distinguish: the OpenAI SDK's
      `RateLimitError`, any other `APIError`, and everything else. */
  datatype ErrorKind = RateLimitError | APIError | OtherError

  /** A raised exception: its class and `str(e)`. */
  datatype ProviderError = ProviderError(kind: ErrorKind, message: string)

  /** The generic rate-limit test both loops apply to the lower-cased
      error text. */
  predicate IsRateLimitText(errorText: string) {
    Contains(errorText, "rate limit") || Contains(errorText, "429") || Contains(errorText, "quota")
  }

  /** An HTTP 429 status quoted anywhere in the text marks a rate limit. */
  lemma RateLimitAnywhere(before: string, after: string)
    ensures IsRateLimitText(before + "429" + after)
  {
    var s := before + "429" + after;
    assert s[|before|..|before| + 3] == "429";
    ContainsAt(s, "429", |before|);
  }

  /** An OpenAI `APIError` (not a rate limit) about missing credit: the
      failure both loops give up on at once. */
  predicate IsInsufficientQuota(provider: string, e: ProviderError) {
    provider == "openai" && e.kind == APIError && Contains(Lower(e.message), "insufficient_quota")
  }

  /** What one attempt of the guarded call did. */
  datatype Attempt<+R> = Succeeded(value: R) | Failed(error: ProviderError)

  /** A classifier's verdict on a failed attempt. */
  datatype Decision<+F> = RetryAfter(wait: nat) | GiveUp(failure: F)

  /** How the loop ended: the `break` after a success, a `return`/`raise`
      chosen by the classifier, or running past the last attempt without
      either (which Python would allow syntactically). */
  datatype End<+R, +F> = Done(value: R) | Stopped(failure: F) | FellThrough

  datatype Run<+R, +F> = Run(end: End<R, F>, waits: seq<nat>, attempts: nat)

  /** The loop from `attempt` on; `trial(i)` is the outcome of attempt `i`.
      The contract is the complete trace: every wait belongs to a failed
      attempt the classifier chose to retry, a `Done` carries the value of
      the last attempt, a `Stopped` carries the classifier's verdict on it. */
  function RunFrom<R, F>(classify: (ProviderError, nat) -> Decision<F>,
                         trial: nat -> Attempt<R>, attempt: nat): (run: Run<R, F>)
    requires attempt <= MaxRetries
    decreases MaxRetries - attempt
    ensures attempt <= run.attempts <= MaxRetries
    ensures run.end.FellThrough? ==> run.attempts == MaxRetries && |run.waits| == MaxRetries - attempt
    ensures !run.end.FellThrough? ==> attempt < run.attempts && |run.waits| == run.attempts - attempt - 1
    ensures forall k :: 0 <= k < |run.waits| ==>
              && trial(attempt + k).Failed?
              && classify(trial(attempt + k).error, attempt + k) == RetryAfter(run.waits[k])
    ensures run.end.Done? ==> trial(run.attempts - 1) == Succeeded(run.end.value)
    ensures run.end.Stopped? ==>
              && trial(run.attempts - 1).Failed?
              && classify(trial(run.attempts - 1).error, run.attempts - 1) == GiveUp(run.end.failure)
  {
    if attempt == MaxRetries then Run(FellThrough, [], attempt)
    else
      match trial(attempt)
      case Succeeded(v) => Run(Done(v), [], attempt + 1)
      case Failed(e) =>
        match classify(e, attempt)
        case GiveUp(f) => Run(Stopped(f), [], attempt + 1)
        case RetryAfter(w) =>
          var rest := RunFrom(classify, trial, attempt + 1);
          var waits := [w] + rest.waits;
          assert forall k :: 1 <= k < |waits| ==> waits[k] == rest.waits[k - 1];
          Run(rest.end, waits, rest.attempts)
  }

  /** The whole loop, `for attempt in range(MaxRetries)`. */
  function RunRetry<R, F>(classify: (ProviderError, nat) -> Decision<F>,
      trial: nat -> Attempt<R>): Run<R, F>
  {
    RunFrom(classify, trial, 0)
  }

  /** Every retry waits `Backoff(attempt)`. */
  ghost predicate BacksOff<F>(classify: (ProviderError, nat) -> Decision<F>) {
    forall e, a :: classify(e, a).RetryAfter? ==> classify(e, a).wait == Backoff(a)
  }

  /** A failure on the final attempt is never retried. */
  ghost predicate LastAttemptGivesUp<F>(classify: (ProviderError, nat) -> Decision<F>) {
    forall e :: classify(e, LastAttempt).GiveUp?
  }

  function Sum(s: seq<nat>): nat {
    if |s| == 0 then 0 else s[0] + Sum(s[1..])
  }

  /** When the last attempt always gives up, the loop never runs past its
      end: it leaves through a success or through the classifier. */
  lemma NeverFallsThrough<R, F>(classify: (ProviderError, nat) -> Decision<F>,
      trial: nat -> Attempt<R>)
    requires LastAttemptGivesUp(classify)
    ensures !RunRetry(classify, trial).end.FellThrough?
    ensures |RunRetry(classify, trial).waits| == RunRetry(classify, trial).attempts - 1
  {
  }

  /** The waits of a backing-off classifier follow the schedule 2, 4, ...;
      together with a final attempt that gives up, there are at most two of
      them and they add up to at most 6 seconds. */
  lemma {:induction false} WaitSchedule<R, F>(classify: (ProviderError, nat) -> Decision<F>,
      trial: nat -> Attempt<R>)
    requires BacksOff(classify)
    requires LastAttemptGivesUp(classify)
    ensures var run := RunRetry(classify, trial);
            && |run.waits| <= MaxRetries - 1
            && run.waits == [2, 4][..|run.waits|]
            && Sum(run.waits) <= 6
  {
    var run := RunRetry(classify, trial);
    NeverFallsThrough(classify, trial);
    forall k | 0 <= k < |run.waits|
      ensures run.waits[k] == Backoff(k)
    {
      assert classify(trial(k).error, k).RetryAfter?;
    }
    assert Backoff(0) == 2 && Backoff(1) == 4;
    if |run.waits| == 2 {
      assert run.waits == [2, 4];
    } else if |run.waits| == 1 {
      assert run.waits == [2];
    }
  }

  /** A first attempt that succeeds ends the loop at once, with no wait. */
  lemma FirstSuccessStops<R, F>(classify: (ProviderError, nat) -> Decision<F>,
      trial: nat -> Attempt<R>)
    requires trial(0).Succeeded?
    ensures RunRetry(classify, trial) == Run(Done(trial(0).value), [], 1)
  {
  }
}
