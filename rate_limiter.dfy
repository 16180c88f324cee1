/** The per-domain `RateLimiter` of the connector base, run sequentially
    against an explicit monotonic clock. `asyncio.sleep(d)` is the clock's
    `Sleep(d)`, which advances the clock by exactly `d` and records it; the
    lock that serialises callers is not needed once calls are sequential. */
module RateLimiting {

  /** `time.monotonic()` together with the sleeps taken, in order. */
  class Clock {
    var now: real
    var slept: seq<real>

    constructor (start: real)
      ensures now == start && slept == []
    {
      now := start;
      slept := [];
    }

    method Sleep(d: real)
      requires d > 0.0
      modifies this
      ensures now == old(now) + d
      ensures slept == old(slept) + [d]
    {
      now := now + d;
      slept := slept + [d];
    }
  }

  /** `wait_time = min_interval - (now - last)`: the sleep `acquire` takes,
      if any. */
  function AcquireSleeps(last: real, now: real, minInterval: real): (w: seq<real>)
    ensures |w| <= 1
    ensures forall k :: 0 <= k < |w| ==> w[k] > 0.0 && now + w[k] == last + minInterval
    ensures w == [] <==> now - last >= minInterval
  {
    var wait := minInterval - (now - last);
    if wait > 0.0 then [wait] else []
  }

  /** The clock reading `acquire` records: never earlier than the previous
      request plus the interval, and never earlier than the call itself. */
  function AcquiredAt(last: real, now: real, minInterval: real): (t: real)
    ensures t >= last + minInterval
    ensures t >= now
    ensures t == now || t == last + minInterval
  {
    var w := AcquireSleeps(last, now, minInterval);
    if w == [] then now else now + w[0]
  }

  class RateLimiter {
    const requestsPerSecond: real
    const minInterval: real
    var lastRequest: map<string, real>

    /** `RateLimiter(requests_per_second)`; Python raises
        `ZeroDivisionError` for a rate of zero. */
    constructor (rps: real)
      requires rps != 0.0
      ensures requestsPerSecond == rps && minInterval == 1.0 / rps
      ensures lastRequest == map[]
    {
      requestsPerSecond := rps;
      minInterval := 1.0 / rps;
      lastRequest := map[];
    }

    /** `self._last_request.get(domain, 0)`. */
    function Last(domain: string): real
      reads this
    {
      if domain in lastRequest then lastRequest[domain] else 0.0
    }

    /** `acquire(domain)`: sleep until `min_interval` has passed since the
        domain's previous request, then record the clock for the domain. */
    method Acquire(domain: string, clock: Clock)
      modifies this`lastRequest, clock
      ensures clock.slept == old(clock.slept) + AcquireSleeps(old(Last(domain)), old(clock.now), minInterval)
      ensures clock.now == AcquiredAt(old(Last(domain)), old(clock.now), minInterval)
      ensures lastRequest == old(lastRequest)[domain := clock.now]
      ensures lastRequest[domain] >= old(Last(domain)) + minInterval
      ensures forall d :: d != domain ==> (d in lastRequest <==> d in old(lastRequest))
      ensures forall d :: d != domain && d in lastRequest ==> lastRequest[d] == old(lastRequest)[d]
    {
      var now := clock.now;
      var last := Last(domain);
      var waitTime := minInterval - (now - last);
      if waitTime > 0.0 {
        clock.Sleep(waitTime);
      }
      lastRequest := lastRequest[domain := clock.now];
    }
  }
}
