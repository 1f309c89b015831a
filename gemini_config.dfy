/** The generation client: one request to the hosted model with a fixed
    generation configuration, retried with exponential backoff while the
    model answers "429 Too Many Requests".

    The vendor call is not modelled; `outcomes(k)` is what the k-th attempt
    (k = `retryCount`, from 0) returns or throws. Instead of sleeping, the
    run records the delays it would wait, so the policy is a plain value. */
module GeminiConfig {
  import opened Results

  const MaxRetries: nat := 3
  /** Base delay in milliseconds. */
  const RetryDelay: nat := 1000
  const RateLimitStatus: int := 429

  datatype GenerationConfig = GenerationConfig(temperature: real, topK: nat, topP: real, maxOutputTokens: nat)

  /** The configuration every attempt sends. */
  const Config := GenerationConfig(0.7, 40, 0.8, 8192)

  /** One `generateContent` request: a single user turn holding the prompt. */
  datatype Request = Request(turnRole: string, text: string, generationConfig: GenerationConfig)

  function RequestFor(prompt: string): Request {
    Request("user", prompt, Config)
  }

  /** An error thrown by the vendor SDK; `status` is absent on errors that carry none. */
  datatype ApiError = ApiError(status: Option<int>, message: string)

  /** What one call to the hosted model does: returns a response, or throws. */
  datatype CallOutcome = Returned(text: string) | Threw(error: ApiError)

  predicate IsRateLimited(o: CallOutcome) {
    o.Threw? && o.error.status == Some(RateLimitStatus)
  }

  /** The outcome handed back to the caller, the delays waited between
      attempts, and every request sent, in order. */
  datatype RetryRun = RetryRun(result: CallOutcome, delays: seq<nat>, requests: seq<Request>)

  function Pow2(k: nat): (p: nat)
    ensures p >= 1
  {
    if k == 0 then 1 else 2 * Pow2(k - 1)
  }

  /** `RETRY_DELAY * Math.pow(2, retryCount)`. */
  function BackoffDelay(retryCount: nat): nat {
    RetryDelay * Pow2(retryCount)
  }

  /** `generateWithRetry(model, prompt, retryCount)`. The run is determined by
      its contract: the first `|delays|` attempts were rate-limited and each
      was followed by its backoff delay; the result is exactly what the
      following attempt produced, and that attempt is the last one because it
      was not rate-limited or the retry budget was spent. */
  function GenerateWithRetry(prompt: string, outcomes: nat -> CallOutcome, retryCount: nat): (run: RetryRun)
    ensures |run.requests| == |run.delays| + 1
    ensures forall k :: 0 <= k < |run.requests| ==> run.requests[k] == RequestFor(prompt)
    ensures retryCount + |run.delays| <= if retryCount <= MaxRetries then MaxRetries else retryCount
    ensures forall k :: 0 <= k < |run.delays| ==>
      run.delays[k] == BackoffDelay(retryCount + k) && IsRateLimited(outcomes(retryCount + k))
    ensures run.result == outcomes(retryCount + |run.delays|)
    ensures IsRateLimited(run.result) ==> retryCount + |run.delays| >= MaxRetries
    decreases if retryCount < MaxRetries then MaxRetries - retryCount else 0
  {
    var outcome := outcomes(retryCount);
    if IsRateLimited(outcome) && retryCount < MaxRetries then
      var rest := GenerateWithRetry(prompt, outcomes, retryCount + 1);
      RetryRun(rest.result, [BackoffDelay(retryCount)] + rest.delays, [RequestFor(prompt)] + rest.requests)
    else
      RetryRun(outcome, [], [RequestFor(prompt)])
  }

  /** The call a caller makes: `generateWithRetry(model, prompt)`, i.e. `retryCount = 0`. */
  function Generate(prompt: string, outcomes: nat -> CallOutcome): (run: RetryRun)
    ensures |run.requests| <= MaxRetries + 1
  {
    GenerateWithRetry(prompt, outcomes, 0)
  }

  /** The attempt that ends the run is the first one that is not rate-limited,
      unless the retry budget runs out first; a success or any other error is
      handed back unchanged and no later attempt is made. */
  lemma {:induction false} StopsAtFirstNonRateLimited(prompt: string, outcomes: nat -> CallOutcome, j: nat)
    requires j <= MaxRetries
    requires forall k :: 0 <= k < j ==> IsRateLimited(outcomes(k))
    requires !IsRateLimited(outcomes(j))
    ensures Generate(prompt, outcomes).result == outcomes(j)
    ensures |Generate(prompt, outcomes).requests| == j + 1
  {
  }

  /** Four rate-limited attempts in a row: waits of 1000, 2000 and 4000 ms,
      then the fourth 429 error itself is rethrown. */
  lemma RateLimitedThroughout(prompt: string, outcomes: nat -> CallOutcome)
    requires forall k :: 0 <= k <= MaxRetries ==> IsRateLimited(outcomes(k))
    ensures Generate(prompt, outcomes).delays == [1000, 2000, 4000]
    ensures Generate(prompt, outcomes).result == outcomes(MaxRetries)
  {
    assert Pow2(1) == 2 && Pow2(2) == 4;
  }

  lemma {:induction false} Pow2Increasing(i: nat, j: nat)
    requires i < j
    ensures Pow2(i) < Pow2(j)
    decreases j
  {
    if i < j - 1 {
      Pow2Increasing(i, j - 1);
    }
  }

  /** Each wait is longer than the one before. */
  lemma DelaysIncrease(prompt: string, outcomes: nat -> CallOutcome, retryCount: nat, i: nat, j: nat)
    requires i < j < |GenerateWithRetry(prompt, outcomes, retryCount).delays|
    ensures GenerateWithRetry(prompt, outcomes, retryCount).delays[i]
          < GenerateWithRetry(prompt, outcomes, retryCount).delays[j]
  {
    Pow2Increasing(retryCount + i, retryCount + j);
  }

  function Sum(s: seq<nat>): nat {
    if s == [] then 0 else Sum(s[..|s| - 1]) + s[|s| - 1]
  }

  /** 1000 + 2000 + ... + 1000 * 2^(n-1) == 1000 * (2^n - 1). */
  lemma {:induction false} BackoffSum(delays: seq<nat>)
    requires forall k :: 0 <= k < |delays| ==> delays[k] == BackoffDelay(k)
    ensures Sum(delays) + RetryDelay == RetryDelay * Pow2(|delays|)
  {
    if delays != [] {
      BackoffSum(delays[..|delays| - 1]);
    }
  }

  /** Backoff delays for at most `MaxRetries` retries add up to at most 7000 ms. */
  lemma BackoffTotalBound(delays: seq<nat>)
    requires |delays| <= MaxRetries
    requires forall k :: 0 <= k < |delays| ==> delays[k] == BackoffDelay(k)
    ensures Sum(delays) <= 7000
  {
    BackoffSum(delays);
    if |delays| < MaxRetries {
      Pow2Increasing(|delays|, MaxRetries);
    }
    assert Pow2(|delays|) <= 8 by { assert Pow2(3) == 8; }
  }

  /** A prompt never waits more than 7000 ms in total. */
  lemma TotalDelayBound(prompt: string, outcomes: nat -> CallOutcome)
    ensures Sum(Generate(prompt, outcomes).delays) <= 7000
  {
    BackoffTotalBound(Generate(prompt, outcomes).delays);
  }
}
