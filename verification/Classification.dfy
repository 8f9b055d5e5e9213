/** Capture results and the retry policy: crawl-service `classification.py`. */
module Classification {
  import opened Options
  import opened Powers

  /** The result of one capture attempt; `OtherCode` is any code the policy does not know. */
  datatype Code =
    | RecordPresent | RecordAbsent | SourceUnavailable | RateLimited | TimedOut
    | ParserFailed | InvalidResponse | TerminalEvent | OtherCode(name: string)

  datatype RetryDecision = RetryDecision(
    isSuccess: bool, shouldRetry: bool, backoffSeconds: Option<int>, terminal: bool,
    needsReview: bool, isAuthoritativeAbsence: bool)

  datatype RetryPolicy = RetryPolicy(
    maxAttempts: int, parserRetryLimit: int, backoffBase: int, backoffCap: int)

  /** Exponential backoff with a cap; `attempt` counts from 1. */
  function BackoffSeconds(attempt: int, policy: RetryPolicy): (seconds: int)
    ensures seconds <= policy.backoffCap
    ensures policy.backoffBase > 0 && policy.backoffCap > 0 ==> seconds > 0
  {
    var e := policy.backoffBase * Pow2(if attempt - 1 > 0 then attempt - 1 else 0);
    Positive(policy.backoffBase, Pow2(if attempt - 1 > 0 then attempt - 1 else 0));
    if e <= policy.backoffCap then e else policy.backoffCap
  }

  lemma Positive(a: int, b: int)
    ensures a > 0 && b > 0 ==> a * b > 0
  {
  }

  function RetryLater(backoff: int): RetryDecision {
    RetryDecision(false, true, Some(backoff), false, false, false)
  }

  function GiveUp(needsReview: bool): RetryDecision {
    RetryDecision(false, false, None, true, needsReview, false)
  }

  function DecideRetry(code: Code, attempt: int, retryAfter: Option<nat>, policy: RetryPolicy): (d: RetryDecision)
    // a failed request is never evidence of absence
    ensures d.isAuthoritativeAbsence <==> code == RecordAbsent
    // exactly one of: success, retry, give up
    ensures d.isSuccess <==> code in {RecordPresent, RecordAbsent}
    ensures !d.isSuccess ==> (d.terminal <==> !d.shouldRetry)
    ensures d.shouldRetry <==> d.backoffSeconds.Some?
    ensures d.shouldRetry && policy.backoffBase > 0 && policy.backoffCap > 0 ==> d.backoffSeconds.value > 0
    ensures d.shouldRetry ==> attempt < policy.maxAttempts || attempt < policy.parserRetryLimit
  {
    if code in {RecordPresent, RecordAbsent} then
      RetryDecision(true, false, None, false, false, code == RecordAbsent)
    else if code == TerminalEvent then GiveUp(false)
    else if code in {ParserFailed, InvalidResponse} then
      if attempt >= policy.parserRetryLimit then GiveUp(true)
      else RetryLater(BackoffSeconds(attempt, policy))
    else if code in {SourceUnavailable, RateLimited, TimedOut} then
      if attempt >= policy.maxAttempts then GiveUp(false)
      else if code == RateLimited && retryAfter.Some? && retryAfter.value != 0 then RetryLater(retryAfter.value)
      else RetryLater(BackoffSeconds(attempt, policy))
    else if attempt >= policy.maxAttempts then GiveUp(true)
    else RetryLater(BackoffSeconds(attempt, policy))
  }
}
