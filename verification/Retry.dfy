/** Sending a provider request: which failures are retried, how often, and how long that can take. */
module Retry {
  import opened Basics

  const MAX_ATTEMPTS := 4

  /** Durations are in milliseconds. */
  const BASE_BACKOFF := 500

  const MAX_BACKOFF := 20_000

  const MAX_RETRY_AFTER := 60_000

  datatype ProviderError =
    | ContentFilter | RateLimited | Timeout | Validation | Upstream | Malformed
    | DeploymentNotFound | Unauthorized | Internal

  predicate IsRetryable(e: ProviderError) { e.RateLimited? || e.Upstream? }

  /** What one request comes back with; `filtered` says the body names a content filter. */
  datatype Outcome =
    | Answered(status: nat, filtered: bool, retryAfterSeconds: Option<nat>)
    | TransportTimeout
    | TransportFailed

  predicate Succeeded(o: Outcome) { o.Answered? && 200 <= o.status < 300 }

  function MapStatus(status: nat, filtered: bool): ProviderError {
    if filtered then ContentFilter
    else if status == 400 then Validation
    else if status == 401 || status == 403 then Unauthorized
    else if status == 404 then DeploymentNotFound
    else if status == 429 then RateLimited
    else Upstream
  }

  function ErrorOf(o: Outcome): ProviderError {
    match o
    case Answered(status, filtered, _) => MapStatus(status, filtered)
    case TransportTimeout => Timeout
    case TransportFailed => Upstream
  }

  /** An answer is worth repeating exactly when it is none of the four final statuses and no filter spoke. */
  lemma RetryableAnswers(status: nat, filtered: bool)
    ensures IsRetryable(MapStatus(status, filtered)) <==>
      !filtered && status != 400 && status != 401 && status != 403 && status != 404
  {
  }

  // ---------------------------------------------------------------- backoff

  const MAX_U32 := 0xFFFF_FFFF

  function Pow2(n: nat): nat { if n == 0 then 1 else 2 * Pow2(n - 1) }

  /** `2_u32.saturating_pow(n)`, multiplying once per step. */
  function SaturatingPow2(n: nat): nat { if n == 0 then 1 else Min(2 * SaturatingPow2(n - 1), MAX_U32) }

  /** The largest delay `backoff` can draw before retry `attempt`. */
  function Ceiling(attempt: nat): nat
    requires attempt >= 1
  {
    Max(Min(BASE_BACKOFF * SaturatingPow2(attempt - 1), MAX_BACKOFF), 1)
  }

  lemma {:induction false} SaturatingPow2Exact(n: nat)
    ensures SaturatingPow2(n) == Min(Pow2(n), MAX_U32) && Pow2(n) >= 1
  {
    if n > 0 {
      SaturatingPow2Exact(n - 1);
    }
  }

  /** The ceiling doubles from half a second, stops at 20 seconds, and is never a reason to give up. */
  lemma CeilingExact(attempt: nat)
    requires attempt >= 1
    ensures Ceiling(attempt) == Min(500 * Pow2(attempt - 1), 20_000)
    ensures Ceiling(attempt) <= Ceiling(attempt + 1) <= MAX_BACKOFF < MAX_RETRY_AFTER
  {
    SaturatingPow2Exact(attempt - 1);
    SaturatingPow2Exact(attempt);
  }

  // ---------------------------------------------------------------- the rule, one outcome at a time

  /** A draw of the random jitter for each attempt. */
  type Jitter = nat -> nat

  type Outcomes = nat -> Outcome

  ghost predicate DrawsWithin(jitter: Jitter) {
    forall a: nat :: a >= 1 ==> jitter(a) <= Ceiling(a)
  }

  /** Worth repeating: no connection, or an answer that is no success, no filter's and none of the four final ones. */
  predicate Transient(o: Outcome) {
    match o
    case Answered(status, filtered, _) =>
      !(200 <= status < 300) && !filtered && status != 400 && status != 401 && status != 403 && status != 404
    case TransportTimeout => false
    case TransportFailed => true
  }

  /** Its `Retry-After` is longer than the minute one is willing to wait. */
  predicate AsksTooMuch(o: Outcome) { o.Answered? && o.retryAfterSeconds.Some? && o.retryAfterSeconds.value > 60 }

  predicate SendsAgain(outcomes: Outcomes, attempt: nat) {
    attempt < MAX_ATTEMPTS && Transient(outcomes(attempt)) && !AsksTooMuch(outcomes(attempt))
  }

  /** The first `n` requests are each followed by another. */
  ghost predicate AllRepeated(outcomes: Outcomes, n: nat) {
    forall a: nat :: 1 <= a <= n ==> SendsAgain(outcomes, a)
  }

  /** The pause before sending again: what the answer asks for, or else the draw. */
  function Pause(o: Outcome, drawn: nat): nat {
    if o.Answered? && o.retryAfterSeconds.Some? then 1000 * o.retryAfterSeconds.value else drawn
  }

  function TotalWait(outcomes: Outcomes, jitter: Jitter, n: nat): nat {
    if n == 0 then 0 else TotalWait(outcomes, jitter, n - 1) + Pause(outcomes(n), jitter(n))
  }

  function ResultOf(o: Outcome): Result<Outcome, ProviderError> {
    if Succeeded(o) then Ok(o) else Err(ErrorOf(o))
  }

  /** Without `Retry-After`, or with a short one, no wait exceeds what the loop is willing to wait. */
  lemma {:induction false} WaitsAreBounded(outcomes: Outcomes, jitter: Jitter, n: nat)
    requires DrawsWithin(jitter) && AllRepeated(outcomes, n)
    ensures TotalWait(outcomes, jitter, n) <= n * MAX_RETRY_AFTER
  {
    if n > 0 {
      WaitsAreBounded(outcomes, jitter, n - 1);
      assert SendsAgain(outcomes, n);
      CeilingExact(n);
    }
  }

  ghost predicate NoRetryAfter(outcomes: Outcomes) {
    forall a: nat :: a >= 1 && outcomes(a).Answered? ==> outcomes(a).retryAfterSeconds.None?
  }

  lemma {:induction false} BackoffsAreBounded(outcomes: Outcomes, jitter: Jitter, n: nat)
    requires DrawsWithin(jitter) && NoRetryAfter(outcomes)
    ensures TotalWait(outcomes, jitter, n) <= BASE_BACKOFF * (Pow2(n) - 1)
  {
    if n > 0 {
      BackoffsAreBounded(outcomes, jitter, n - 1);
      CeilingExact(n);
    }
  }

  lemma SleepIsBounded(outcomes: Outcomes, jitter: Jitter, n: nat)
    requires DrawsWithin(jitter) && n < MAX_ATTEMPTS && AllRepeated(outcomes, n)
    ensures TotalWait(outcomes, jitter, n) <= 180_000
    ensures NoRetryAfter(outcomes) ==> TotalWait(outcomes, jitter, n) <= 3_500
  {
    WaitsAreBounded(outcomes, jitter, n);
    if NoRetryAfter(outcomes) {
      BackoffsAreBounded(outcomes, jitter, n);
    }
  }

  /** Whether to send again after request `attempt`, and how long to wait first. */
  method Delay(outcome: Outcome, attempt: nat, drawn: nat) returns (delay: Option<nat>)
    requires attempt >= 1 && drawn <= Ceiling(attempt)
    ensures delay.Some? <==> attempt < MAX_ATTEMPTS && Transient(outcome) && !AsksTooMuch(outcome)
    ensures delay.Some? ==> delay.value == Pause(outcome, drawn)
  {
    match outcome {
      case Answered(status, filtered, retryAfter) =>
        RetryableAnswers(status, filtered);
        CeilingExact(attempt);
        if 200 <= status < 300 || !IsRetryable(MapStatus(status, filtered)) || attempt >= MAX_ATTEMPTS {
          return None;
        }
        var wanted := if retryAfter.Some? then 1000 * retryAfter.value else drawn;
        delay := if wanted > MAX_RETRY_AFTER then None else Some(wanted);
      case TransportTimeout =>
        delay := None;
      case TransportFailed =>
        delay := if attempt < MAX_ATTEMPTS then Some(drawn) else None;
    }
  }

  /**
   * Sends until a request succeeds, fails for good, asks for too long a pause, or is the fourth.
   */
  method SendWithRetry(outcomes: Outcomes, jitter: Jitter)
    returns (result: Result<Outcome, ProviderError>, requests: nat, slept: nat)
    requires DrawsWithin(jitter)
    ensures 1 <= requests <= 4
    ensures forall a: nat :: 1 <= a < requests ==> Transient(outcomes(a)) && !AsksTooMuch(outcomes(a))
    ensures requests == 4 || !Transient(outcomes(requests)) || AsksTooMuch(outcomes(requests))
    ensures AllRepeated(outcomes, requests - 1) && !SendsAgain(outcomes, requests)
    ensures result.Ok? <==> outcomes(requests).Answered? && 200 <= outcomes(requests).status < 300
    ensures result == if result.Ok? then Ok(outcomes(requests)) else Err(ErrorOf(outcomes(requests)))
    ensures slept == TotalWait(outcomes, jitter, requests - 1)
    ensures slept <= 180_000
    ensures NoRetryAfter(outcomes) ==> slept <= 3_500
  {
    requests, slept := 1, 0;
    var delay := Delay(outcomes(1), 1, jitter(1));
    while delay.Some?
      invariant 1 <= requests <= MAX_ATTEMPTS
      invariant AllRepeated(outcomes, requests - 1)
      invariant delay.Some? <==> SendsAgain(outcomes, requests)
      invariant delay.Some? ==> delay.value == Pause(outcomes(requests), jitter(requests))
      invariant slept == TotalWait(outcomes, jitter, requests - 1)
      decreases MAX_ATTEMPTS - requests
    {
      slept := slept + delay.value;
      requests := requests + 1;
      delay := Delay(outcomes(requests), requests, jitter(requests));
    }
    result := ResultOf(outcomes(requests));
    SleepIsBounded(outcomes, jitter, requests - 1);
    forall a: nat | 1 <= a < requests ensures Transient(outcomes(a)) && !AsksTooMuch(outcomes(a)) {
      assert SendsAgain(outcomes, a);
    }
  }

  /** The outcomes determine where the call ends: at the first request not followed by another. */
  lemma EndIsDetermined(outcomes: Outcomes, n: nat, m: nat)
    requires n >= 1 && AllRepeated(outcomes, n - 1) && !SendsAgain(outcomes, n)
    requires m >= 1 && AllRepeated(outcomes, m - 1) && !SendsAgain(outcomes, m)
    ensures n == m
    ensures forall a: nat :: 1 <= a < n ==> !Succeeded(outcomes(a)) && IsRetryable(ErrorOf(outcomes(a)))
  {
    assert n < m ==> SendsAgain(outcomes, n);
    assert m < n ==> SendsAgain(outcomes, m);
    forall a: nat | 1 <= a < n ensures !Succeeded(outcomes(a)) && IsRetryable(ErrorOf(outcomes(a))) {
      assert SendsAgain(outcomes, a);
    }
  }

  /** Both bounds on the total pause are reached. */
  lemma BoundsAreReached()
    ensures TotalWait(_ => Answered(429, false, Some(60)), _ => 0, 3) == 180_000
    ensures TotalWait(_ => TransportFailed, a => if a >= 1 then Ceiling(a) else 0, 3) == 3_500
  {
    var o1: Outcomes := _ => Answered(429, false, Some(60));
    var o2: Outcomes := _ => TransportFailed;
    var j: Jitter := a => if a >= 1 then Ceiling(a) else 0;
    CeilingExact(1);
    CeilingExact(2);
    CeilingExact(3);
    assert Pow2(0) == 1 && Pow2(1) == 2 && Pow2(2) == 4;
    assert TotalWait(o1, _ => 0, 0) == 0 && TotalWait(o2, j, 0) == 0;
  }
}
