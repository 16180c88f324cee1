/** `BaseConnector.fetch`: the SSRF guard, one rate-limiter acquire, then up
    to `retries` GET requests with exponential back-off. The HTTP client is
    an input: `get(attempt)` is what the `attempt`-th request produced. */
module FetchPolicy {
  import opened Wrappers
  import opened UrlSafety
  import opened RateLimiting

  /** The parts of an `httpx.Response` the connectors read:
      `headers.get("content-type", "")` and `text`. */
  datatype Response = Response(contentType: string, text: string)

  /** One request: a response with its status code, or an
      `httpx.RequestError` (timeout, connection failure, ...). */
  datatype Attempt = Answered(status: int, response: Response) | RequestFailed(message: string)

  /** What `fetch` raises. */
  datatype FetchError =
    | BlockedUrl                 // ValueError("SECURITY: Blocked unsafe URL: ...")
    | StatusError(status: int)   // httpx.HTTPStatusError from raise_for_status
    | TransportError(message: string)  // httpx.RequestError
    | MaxRetriesExceeded         // Exception("Max retries exceeded")

  /** `raise_for_status` passes 2xx responses only. */
  predicate IsSuccess(status: int) { 200 <= status < 300 }

  /** 429 Too Many Requests and 503 Service Unavailable are retried. */
  predicate IsRetriedStatus(status: int) { status == 429 || status == 503 }

  /** The retry loop from `attempt` on: its result, how many requests it
      makes and the back-off sleeps it takes, in order. */
  datatype Trace = Trace(result: Result<Response, FetchError>, requests: nat, backoff: seq<real>)

  function RetryFrom(retries: int, attempt: nat, lastError: Option<FetchError>, get: nat -> Attempt): (t: Trace)
    decreases if attempt < retries then retries - attempt else 0
  {
    if attempt >= retries then Trace(Err(lastError.GetOr(MaxRetriesExceeded)), 0, [])
    else match get(attempt)
      case Answered(status, response) =>
        if IsSuccess(status) then Trace(Ok(response), 1, [])
        else if IsRetriedStatus(status) then
          var rest := RetryFrom(retries, attempt + 1, Some(StatusError(status)), get);
          Trace(rest.result, rest.requests + 1, [(Pow2(attempt) * 2) as real] + rest.backoff)
        else Trace(Err(StatusError(status)), 1, [])
      case RequestFailed(message) =>
        var rest := RetryFrom(retries, attempt + 1, Some(TransportError(message)), get);
        Trace(rest.result, rest.requests + 1,
              (if attempt < retries - 1 then [Pow2(attempt) as real] else []) + rest.backoff)
  }

  /** The error an attempt leaves in `last_error`. */
  function ErrorOf(a: Attempt): FetchError {
    match a
    case Answered(status, _) => StatusError(status)
    case RequestFailed(message) => TransportError(message)
  }

  predicate Retriable(a: Attempt) {
    a.RequestFailed? || IsRetriedStatus(a.status)
  }

  /** At most `retries` requests are made: one per loop iteration. */
  lemma {:induction false} RetryBound(retries: int, attempt: nat, lastError: Option<FetchError>, get: nat -> Attempt)
    ensures RetryFrom(retries, attempt, lastError, get).requests <= if attempt < retries then retries - attempt else 0
    decreases if attempt < retries then retries - attempt else 0
  {
    if attempt < retries {
      match get(attempt)
      case Answered(status, _) =>
        if !IsSuccess(status) && IsRetriedStatus(status) {
          RetryBound(retries, attempt + 1, Some(StatusError(status)), get);
        }
      case RequestFailed(message) =>
        RetryBound(retries, attempt + 1, Some(TransportError(message)), get);
    }
  }

  /** A response is returned only if the last request answered with 2xx;
      an error status other than 429/503 is raised at once. */
  lemma {:induction false} RetryOutcome(retries: int, attempt: nat, lastError: Option<FetchError>, get: nat -> Attempt)
    ensures var t := RetryFrom(retries, attempt, lastError, get);
            t.result.Ok? ==>
              t.requests >= 1 && get(attempt + t.requests - 1).Answered?
              && IsSuccess(get(attempt + t.requests - 1).status)
              && get(attempt + t.requests - 1).response == t.result.value
    ensures attempt < retries && get(attempt).Answered? && !IsSuccess(get(attempt).status)
              && !IsRetriedStatus(get(attempt).status) ==>
              RetryFrom(retries, attempt, lastError, get) == Trace(Err(StatusError(get(attempt).status)), 1, [])
    decreases if attempt < retries then retries - attempt else 0
  {
    if attempt < retries {
      match get(attempt)
      case Answered(status, _) =>
        if !IsSuccess(status) && IsRetriedStatus(status) {
          RetryOutcome(retries, attempt + 1, Some(StatusError(status)), get);
        }
      case RequestFailed(message) =>
        RetryOutcome(retries, attempt + 1, Some(TransportError(message)), get);
    }
  }

  /** When every remaining request fails in a retried way, all of them are
      made and the last one's error is raised. */
  lemma {:induction false} ExhaustedRaisesLast(retries: int, attempt: nat, lastError: Option<FetchError>, get: nat -> Attempt)
    requires attempt < retries
    requires forall k :: attempt <= k < retries ==> Retriable(get(k))
    ensures RetryFrom(retries, attempt, lastError, get).result == Err(ErrorOf(get(retries - 1)))
    ensures RetryFrom(retries, attempt, lastError, get).requests == retries - attempt
    decreases retries - attempt
  {
    assert Retriable(get(attempt));
    if attempt + 1 < retries {
      ExhaustedRaisesLast(retries, attempt + 1, Some(ErrorOf(get(attempt))), get);
    }
  }

  /** With no attempts allowed, `raise last_error or Exception(...)` raises
      the generic exception without any request. */
  lemma NoRetriesNoRequest(retries: int, get: nat -> Attempt)
    requires retries <= 0
    ensures RetryFrom(retries, 0, None, get) == Trace(Err(MaxRetriesExceeded), 0, [])
  {
  }

  /** Three 503 answers: back-off 2, 4 and 8 seconds (the last one after the
      final attempt too), then the 503 is raised. */
  lemma ThreeOverloads(get: nat -> Attempt)
    requires forall k :: 0 <= k < 3 ==> get(k).Answered? && get(k).status == 503
    ensures RetryFrom(3, 0, None, get) == Trace(Err(StatusError(503)), 3, [2.0, 4.0, 8.0])
  {
    assert get(0).Answered? && get(1).Answered? && get(2).Answered?;
    assert Pow2(1) == 2 && Pow2(2) == 4;
  }

  /** Three transport errors: back-off 1 and 2 seconds, only between
      attempts, then the last error is raised. */
  lemma ThreeTransportErrors(get: nat -> Attempt)
    requires forall k :: 0 <= k < 3 ==> get(k).RequestFailed?
    ensures RetryFrom(3, 0, None, get) == Trace(Err(TransportError(get(2).message)), 3, [1.0, 2.0])
  {
    assert get(0).RequestFailed? && get(1).RequestFailed? && get(2).RequestFailed?;
    assert Pow2(1) == 2;
  }

  /** The `for attempt in range(retries)` loop with its `last_error`. */
  method RetryLoop(retries: int, clock: Clock, get: nat -> Attempt)
    returns (r: Result<Response, FetchError>, requests: nat)
    modifies clock
    ensures var t := RetryFrom(retries, 0, None, get);
            r == t.result && requests == t.requests && clock.slept == old(clock.slept) + t.backoff
  {
    ghost var backoff: seq<real> := [];
    ghost var t0 := RetryFrom(retries, 0, None, get);
    var lastError: Option<FetchError> := None;
    var attempt: nat := 0;
    requests := 0;
    while attempt < retries
      invariant requests == attempt
      invariant clock.slept == old(clock.slept) + backoff
      invariant var t := RetryFrom(retries, attempt, lastError, get);
                t0.result == t.result && t0.requests == attempt + t.requests && t0.backoff == backoff + t.backoff
      decreases retries - attempt
    {
      ghost var t := RetryFrom(retries, attempt, lastError, get);
      requests := requests + 1;
      match get(attempt) {
        case Answered(status, response) =>
          if IsSuccess(status) {
            return Ok(response), requests;
          } else if IsRetriedStatus(status) {
            var wait := Pow2(attempt) * 2;
            ghost var rest := RetryFrom(retries, attempt + 1, Some(StatusError(status)), get);
            assert t.backoff == [wait as real] + rest.backoff;
            assert backoff + t.backoff == (backoff + [wait as real]) + rest.backoff;
            clock.Sleep(wait as real);
            backoff := backoff + [wait as real];
            lastError := Some(StatusError(status));
          } else {
            return Err(StatusError(status)), requests;
          }
        case RequestFailed(message) =>
          ghost var rest := RetryFrom(retries, attempt + 1, Some(TransportError(message)), get);
          lastError := Some(TransportError(message));
          if attempt < retries - 1 {
            assert t.backoff == [Pow2(attempt) as real] + rest.backoff;
            assert backoff + t.backoff == (backoff + [Pow2(attempt) as real]) + rest.backoff;
            clock.Sleep(Pow2(attempt) as real);
            backoff := backoff + [Pow2(attempt) as real];
          } else {
            assert t.backoff == rest.backoff;
          }
      }
      attempt := attempt + 1;
    }
    r := Err(lastError.GetOr(MaxRetriesExceeded));
  }

  /** `fetch(url, retries)`. `parsed` is `urlparse(url)`, whose `netloc` is
      the rate-limited domain; the SSRF guard is called without a domain
      restriction. */
  method Fetch(parsed: Option<ParsedUrl>, resolve: string -> Option<nat>, retries: int,
               limiter: RateLimiter, clock: Clock, get: nat -> Attempt)
    returns (r: Result<Response, FetchError>, requests: nat)
    modifies limiter`lastRequest, clock
    ensures !IsSafeUrl(parsed, None, resolve) ==>
              r == Err(BlockedUrl) && requests == 0
              && limiter.lastRequest == old(limiter.lastRequest) && clock.slept == old(clock.slept)
    ensures IsSafeUrl(parsed, None, resolve) ==>
              var domain := parsed.value.netloc;
              var t := RetryFrom(retries, 0, None, get);
              r == t.result && requests == t.requests
              && limiter.lastRequest == old(limiter.lastRequest)[domain :=
                   AcquiredAt(old(limiter.Last(domain)), old(clock.now), limiter.minInterval)]
              && clock.slept == old(clock.slept)
                   + AcquireSleeps(old(limiter.Last(domain)), old(clock.now), limiter.minInterval) + t.backoff
  {
    if !IsSafeUrl(parsed, None, resolve) {
      return Err(BlockedUrl), 0;
    }
    var domain := parsed.value.netloc;
    limiter.Acquire(domain, clock);
    r, requests := RetryLoop(retries, clock, get);
  }
}
