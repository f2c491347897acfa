/** The rate limiting and retry utilities (src/utils/rateLimiter.ts): a
    fixed-window request counter per identifier, the `withRateLimit`
    wrapper, and exponential backoff. The clock is the parameter `now`
    (milliseconds); sleeping is not modelled, only the delays chosen. */
module RateLimiting {
  import opened Common
  import opened JsString

  /** How many requests a window admits and how long a window lasts. */
  datatype RateLimitConfig = RateLimitConfig(maxRequests: int, windowMs: int, retryAfterMs: int)

  /** `DEFAULT_RATE_LIMIT`: ten requests a minute. */
  const DefaultRateLimit: RateLimitConfig := RateLimitConfig(10, 60000, 5000)

  /** The start of an identifier's current window and the requests counted
      in it. */
  datatype RequestRecord = RequestRecord(timestamp: int, count: int)

  /** What `isAllowed` decides: whether the request passes, and the record
      kept for the identifier afterwards. */
  datatype Admission = Admission(allowed: bool, record: RequestRecord)

  /** Whether the window of a record is over: strictly more than `windowMs`
      has elapsed since it started. */
  predicate Expired(config: RateLimitConfig, record: RequestRecord, now: int)
  {
    now - record.timestamp > config.windowMs
  }

  /** The decision of `isAllowed` given the identifier's record: a new or
      expired window starts over with one request counted, a window with
      room counts one more, a full window refuses and keeps its record. */
  function Admit(config: RateLimitConfig, record: Option<RequestRecord>, now: int): (a: Admission)
    ensures record.None? ==> a == Admission(true, RequestRecord(now, 1))
    ensures record.Some? && Expired(config, record.value, now) ==> a == Admission(true, RequestRecord(now, 1))
    ensures record.Some? && !Expired(config, record.value, now) ==>
      a.record.timestamp == record.value.timestamp
      && (a.allowed <==> record.value.count < config.maxRequests)
      && a.record.count == (if a.allowed then record.value.count + 1 else record.value.count)
    ensures config.maxRequests >= 1 && (record.None? || record.value.count <= config.maxRequests) ==>
      a.record.count <= config.maxRequests
  {
    match record
    case None => Admission(true, RequestRecord(now, 1))
    case Some(r) =>
      if Expired(config, r, now) then Admission(true, RequestRecord(now, 1))
      else if r.count < config.maxRequests then Admission(true, r.(count := r.count + 1))
      else Admission(false, r)
  }

  /** `getTimeUntilReset` on a record: the time left in its window, never
      negative, zero without a record. */
  function TimeUntilReset(config: RateLimitConfig, record: Option<RequestRecord>, now: int): (ms: int)
    ensures ms >= 0
    ensures record.None? ==> ms == 0
    ensures record.Some? && config.windowMs >= 0 && now >= record.value.timestamp ==> ms <= config.windowMs
    ensures record.Some? && ms == 0 ==> now - record.value.timestamp >= config.windowMs
  {
    match record
    case None => 0
    case Some(r) =>
      var timeElapsed := now - r.timestamp;
      if config.windowMs - timeElapsed > 0 then config.windowMs - timeElapsed else 0
  }

  /** `getRemainingRequests` on a record: the room left in the window; the
      whole allowance without a record or after the window. */
  function RemainingRequests(config: RateLimitConfig, record: Option<RequestRecord>, now: int): (n: int)
    ensures config.maxRequests >= 0 && (record.None? || record.value.count >= 0) ==> 0 <= n <= config.maxRequests
    ensures record.None? || Expired(config, record.value, now) ==> n == config.maxRequests
    ensures record.Some? && !Expired(config, record.value, now) && record.value.count >= 0 ==>
      n == (if config.maxRequests - record.value.count > 0 then config.maxRequests - record.value.count else 0)
  {
    match record
    case None => config.maxRequests
    case Some(r) =>
      if Expired(config, r, now) then config.maxRequests
      else if config.maxRequests - r.count > 0 then config.maxRequests - r.count
      else 0
  }

  /** A request is admitted exactly when there is room left. */
  lemma AdmitIffRemaining(config: RateLimitConfig, record: Option<RequestRecord>, now: int)
    requires config.maxRequests >= 1
    ensures Admit(config, record, now).allowed <==> RemainingRequests(config, record, now) > 0
  {
  }

  /** At the instant a window has lasted exactly `windowMs`, the time until
      reset is already zero while a full window still refuses: the two
      functions disagree on the boundary (`>` against `max(0, ...)`). */
  lemma ResetBoundary(config: RateLimitConfig, record: RequestRecord)
    requires record.count >= config.maxRequests
    ensures TimeUntilReset(config, Some(record), record.timestamp + config.windowMs) == 0
    ensures !Admit(config, Some(record), record.timestamp + config.windowMs).allowed
  {
  }

  /** A run of `isAllowed` calls for one identifier: how many pass, and the
      record left at the end. */
  function AdmitAll(config: RateLimitConfig, record: Option<RequestRecord>, times: seq<int>): (nat, Option<RequestRecord>)
    decreases |times|
  {
    if times == [] then (0, record)
    else
      var a := Admit(config, record, times[0]);
      var rest := AdmitAll(config, Some(a.record), times[1..]);
      ((if a.allowed then 1 else 0) + rest.0, rest.1)
  }

  /** Within one window no more requests pass than the room left in it. */
  lemma {:induction false} WindowBound(config: RateLimitConfig, record: RequestRecord, times: seq<int>)
    requires forall k :: 0 <= k < |times| ==> !Expired(config, record, times[k])
    ensures AdmitAll(config, Some(record), times).0 <= (if config.maxRequests - record.count > 0 then config.maxRequests - record.count else 0)
    ensures AdmitAll(config, Some(record), times).1.Some?
    ensures AdmitAll(config, Some(record), times).1.value.timestamp == record.timestamp
    ensures AdmitAll(config, Some(record), times).1.value.count
      == record.count + AdmitAll(config, Some(record), times).0
    decreases |times|
  {
    if times != [] {
      var a := Admit(config, Some(record), times[0]);
      assert a.record.timestamp == record.timestamp;
      forall k | 0 <= k < |times[1..]| ensures !Expired(config, a.record, times[1..][k]) {
        assert times[1..][k] == times[k + 1];
      }
      WindowBound(config, a.record, times[1..]);
    }
  }

  /** From no record at all, the requests of one window (all within
      `windowMs` of the first) pass at most `maxRequests` times. */
  lemma FirstWindowBound(config: RateLimitConfig, times: seq<int>)
    requires config.maxRequests >= 1 && times != []
    requires forall k :: 0 <= k < |times| ==> times[k] - times[0] <= config.windowMs
    ensures AdmitAll(config, None, times).0 <= config.maxRequests
  {
    var first := RequestRecord(times[0], 1);
    forall k | 0 <= k < |times[1..]| ensures !Expired(config, first, times[1..][k]) {
      assert times[1..][k] == times[k + 1];
    }
    WindowBound(config, first, times[1..]);
  }

  /** What `getRateLimitInfo` reports. */
  datatype RateLimitInfo = RateLimitInfo(remaining: int, resetTime: int, isLimited: bool)

  /** The per-identifier limiter: its records, updated in place. */
  class RateLimiter {
    var requests: map<string, RequestRecord>
    const config: RateLimitConfig

    /** Every record has counted a request, and none has counted more than
        the allowance when the allowance is at least one. */
    ghost predicate Valid()
      reads this
    {
      forall id :: id in requests ==>
        requests[id].count >= 1
        && (config.maxRequests >= 1 ==> requests[id].count <= config.maxRequests)
    }

    /** `new RateLimiter(config)`: no records. */
    constructor(config: RateLimitConfig)
      ensures this.config == config && requests == map[]
      ensures Valid()
    {
      this.config := config;
      requests := map[];
    }

    /** The record of an identifier, if any. */
    function Lookup(identifier: string): (r: Option<RequestRecord>)
      reads this
      ensures r.Some? <==> identifier in requests
      ensures r.Some? ==> r.value == requests[identifier]
    {
      if identifier in requests then Some(requests[identifier]) else None
    }

    /** `isAllowed(identifier)`: the admission decision, with the identifier's
        record replaced by the one kept afterwards and every other record
        left alone. */
    method IsAllowed(identifier: string, now: int) returns (allowed: bool)
      requires Valid()
      modifies this
      ensures Valid()
      ensures allowed == Admit(config, old(Lookup(identifier)), now).allowed
      ensures requests == old(requests)[identifier := Admit(config, old(Lookup(identifier)), now).record]
      ensures forall other :: other != identifier ==>
        (other in requests <==> other in old(requests))
        && (other in requests ==> requests[other] == old(requests)[other])
    {
      if identifier !in requests {
        requests := requests[identifier := RequestRecord(now, 1)];
        return true;
      }
      var record := requests[identifier];
      if now - record.timestamp > config.windowMs {
        requests := requests[identifier := RequestRecord(now, 1)];
        return true;
      }
      if record.count < config.maxRequests {
        requests := requests[identifier := record.(count := record.count + 1)];
        return true;
      }
      return false;
    }

    /** `getTimeUntilReset(identifier)`. */
    function GetTimeUntilReset(identifier: string, now: int): (ms: int)
      reads this
      ensures ms >= 0
      ensures identifier !in requests ==> ms == 0
    {
      TimeUntilReset(config, Lookup(identifier), now)
    }

    /** `getRemainingRequests(identifier)`. */
    function GetRemainingRequests(identifier: string, now: int): (n: int)
      requires Valid()
      reads this
      ensures config.maxRequests >= 0 ==> 0 <= n <= config.maxRequests
      ensures identifier !in requests ==> n == config.maxRequests
    {
      RemainingRequests(config, Lookup(identifier), now)
    }

    /** `clear()`: every record dropped. */
    method Clear()
      modifies this
      ensures requests == map[]
      ensures Valid()
    {
      requests := map[];
    }

    /** `getRateLimitInfo(identifier)`: the remaining allowance and the reset
        time as they were, then an `isAllowed` call, which counts a request
        when it passes. */
    method GetRateLimitInfo(identifier: string, now: int) returns (info: RateLimitInfo)
      requires Valid()
      modifies this
      ensures Valid()
      ensures info.remaining == old(GetRemainingRequests(identifier, now))
      ensures info.resetTime == old(GetTimeUntilReset(identifier, now))
      ensures info.isLimited == !Admit(config, old(Lookup(identifier)), now).allowed
      ensures requests == old(requests)[identifier := Admit(config, old(Lookup(identifier)), now).record]
    {
      var remaining := GetRemainingRequests(identifier, now);
      var resetTime := GetTimeUntilReset(identifier, now);
      var allowed := IsAllowed(identifier, now);
      info := RateLimitInfo(remaining, resetTime, !allowed);
    }
  }

  /** `Math.ceil(ms / 1000)` for a non-negative number of milliseconds. */
  function CeilSeconds(ms: nat): (s: nat)
    ensures s * 1000 >= ms && (s == 0 || (s - 1) * 1000 < ms)
  {
    (ms + 999) / 1000
  }

  /** The error `withRateLimit` throws when the limiter refuses. */
  function RateLimitMessage(resetTime: nat): string
  {
    "Rate limit exceeded. Please try again in " + NatToString(CeilSeconds(resetTime)) + " seconds."
  }

  /** `withRateLimit(fn, identifier)` invoked once: the wrapped function runs
      (its outcome is `fnOutcome`) only when the limiter admits the request
      under `identifier || "default"`; otherwise the call fails with the
      time to wait. */
  method WithRateLimit<T>(limiter: RateLimiter, identifier: string, now: int, fnOutcome: Result<T, JsError>)
    returns (r: Result<T, JsError>, called: bool)
    requires limiter.Valid()
    modifies limiter
    ensures limiter.Valid()
    ensures var id := if identifier == "" then "default" else identifier;
      && (called <==> Admit(limiter.config, old(limiter.Lookup(id)), now).allowed)
      && limiter.requests == old(limiter.requests)[id := Admit(limiter.config, old(limiter.Lookup(id)), now).record]
      && (called ==> r == fnOutcome)
      && (!called ==> r == Err(Error(RateLimitMessage(limiter.GetTimeUntilReset(id, now)))))
  {
    var id := if identifier == "" then "default" else identifier;
    var allowed := limiter.IsAllowed(id, now);
    if !allowed {
      var resetTime := limiter.GetTimeUntilReset(id, now);
      return Err(Error(RateLimitMessage(resetTime))), false;
    }
    return fnOutcome, true;
  }

  /** Errors `ExponentialBackoff.execute` does not retry. */
  predicate Fatal(e: JsError)
  {
    Contains(e.message, "Invalid API key") || Contains(e.message, "insufficient permissions")
  }

  /** `2^k`. */
  function Pow2(k: nat): (p: nat)
    ensures p >= 1
  {
    if k == 0 then 1 else 2 * Pow2(k - 1)
  }

  /** One `onRetry(attempt, delay)` notification. */
  datatype Retry = Retry(attempt: nat, delay: int)

  /** How `execute` ended: the value returned or the error thrown (`None`
      for the `undefined` thrown when no attempt is made), how many times
      the operation ran, and the retries announced. */
  datatype Execution<T> = Execution(result: Result<T, Option<JsError>>, calls: nat, retries: seq<Retry>)

  /** The retry policy: attempts, base delay, delay cap. */
  class ExponentialBackoff {
    const baseDelay: int
    const maxDelay: int
    const maxAttempts: int

    /** `new ExponentialBackoff(baseDelay, maxDelay, maxAttempts)`; the
        defaults are 10, 30000 and 5. */
    constructor(baseDelay: int, maxDelay: int, maxAttempts: int)
      ensures this.baseDelay == baseDelay && this.maxDelay == maxDelay && this.maxAttempts == maxAttempts
    {
      this.baseDelay := baseDelay;
      this.maxDelay := maxDelay;
      this.maxAttempts := maxAttempts;
    }

    /** The wait after failed attempt `attempt`:
        `min(baseDelay * 2^(attempt - 1), maxDelay)`. */
    function Delay(attempt: nat): (d: int)
      requires attempt >= 1
      ensures d <= maxDelay
      ensures d == maxDelay || d == baseDelay * Pow2(attempt - 1)
    {
      var exponential := baseDelay * Pow2(attempt - 1);
      if exponential < maxDelay then exponential else maxDelay
    }

    /** With a non-negative base delay the waits never shrink. */
    lemma DelayMonotone(attempt: nat)
      requires attempt >= 1 && baseDelay >= 0
      ensures Delay(attempt) <= Delay(attempt + 1)
    {
      assert Pow2(attempt) == 2 * Pow2(attempt - 1);
      assert baseDelay * Pow2(attempt) == 2 * (baseDelay * Pow2(attempt - 1));
    }

    /** The attempts from `attempt` on, `operation(k)` being the outcome of
        the `k`-th call: a success is returned, a fatal error or a failure
        of the last attempt is thrown, any other failure is announced and
        retried. */
    function Run<T>(operation: nat -> Result<T, JsError>, attempt: nat): Execution<T>
      requires attempt >= 1
      decreases maxAttempts - attempt
    {
      if attempt > maxAttempts then Execution(Err(None), 0, [])
      else
        match operation(attempt)
        case Ok(v) => Execution(Ok(v), 1, [])
        case Err(e) =>
          if Fatal(e) || attempt == maxAttempts then Execution(Err(Some(e)), 1, [])
          else
            var rest := Run(operation, attempt + 1);
            Execution(rest.result, rest.calls + 1, [Retry(attempt, Delay(attempt))] + rest.retries)
    }

    /** What the attempts from `attempt` on come to: at least one and at
        most the remaining attempts are made; every call but the last
        failed with a retryable error and was announced with its delay;
        the result is the last call's success or its error. */
    lemma {:induction false} RunFacts<T>(operation: nat -> Result<T, JsError>, attempt: nat)
      requires attempt >= 1
      ensures var x := Run(operation, attempt);
        && (attempt > maxAttempts ==> x == Execution(Err(None), 0, []))
        && (attempt <= maxAttempts ==> 1 <= x.calls <= maxAttempts - attempt + 1)
        && (attempt <= maxAttempts ==> |x.retries| == x.calls - 1)
        && (forall j :: 0 <= j < |x.retries| ==> x.retries[j] == Retry(attempt + j, Delay(attempt + j)))
        && (forall k :: attempt <= k < attempt + x.calls - 1 ==> operation(k).Err? && !Fatal(operation(k).error))
        && (attempt <= maxAttempts ==>
              x.result == (match operation(attempt + x.calls - 1)
                           case Ok(v) => Ok(v)
                           case Err(e) => Err(Some(e))))
      decreases maxAttempts - attempt
    {
      if attempt <= maxAttempts && operation(attempt).Err? && !Fatal(operation(attempt).error) && attempt != maxAttempts {
        RunFacts(operation, attempt + 1);
        var rest := Run(operation, attempt + 1);
        var x := Run(operation, attempt);
        assert x.retries == [Retry(attempt, Delay(attempt))] + rest.retries;
        forall j | 0 <= j < |x.retries| ensures x.retries[j] == Retry(attempt + j, Delay(attempt + j)) {
          if j > 0 {
            assert x.retries[j] == rest.retries[j - 1];
          }
        }
      }
    }

    /** A fatal error ends the attempts at once: no call follows it. */
    lemma FatalNotRetried<T>(operation: nat -> Result<T, JsError>, k: nat)
      requires 1 <= k && operation(k).Err? && Fatal(operation(k).error)
      ensures Run(operation, 1).calls <= k
    {
      RunFacts(operation, 1);
    }

    /** `execute(operation, onRetry)`: the loop over attempts `1..maxAttempts`;
        returns how it ended, the calls made and the `onRetry` arguments. */
    method Execute<T>(operation: nat -> Result<T, JsError>) returns (x: Execution<T>)
      ensures x == Run(operation, 1)
    {
      var lastError: Option<JsError> := None;
      var calls := 0;
      var retries: seq<Retry> := [];
      var attempt := 1;
      while attempt <= maxAttempts
        invariant 1 <= attempt && (attempt > maxAttempts ==> attempt == 1)
        invariant calls == attempt - 1 && |retries| == attempt - 1
        invariant attempt == 1 ==> lastError == None
        invariant Run(operation, 1).calls == calls + Run(operation, attempt).calls
        invariant Run(operation, 1).retries == retries + Run(operation, attempt).retries
        invariant Run(operation, 1).result == Run(operation, attempt).result
        decreases maxAttempts - attempt
      {
        var outcome := operation(attempt);
        calls := calls + 1;
        match outcome {
          case Ok(v) =>
            assert Run(operation, attempt) == Execution(Ok(v), 1, []);
            assert retries + [] == retries;
            return Execution(Ok(v), calls, retries);
          case Err(e) =>
            lastError := Some(e);
            if Fatal(e) || attempt == maxAttempts {
              assert Run(operation, attempt) == Execution(Err(Some(e)), 1, []);
              assert retries + [] == retries;
              return Execution(Err(lastError), calls, retries);
            }
            var delay := Delay(attempt);
            ghost var rest := Run(operation, attempt + 1);
            assert Run(operation, attempt) == Execution(rest.result, rest.calls + 1, [Retry(attempt, delay)] + rest.retries);
            assert (retries + [Retry(attempt, delay)]) + rest.retries == retries + ([Retry(attempt, delay)] + rest.retries);
            retries := retries + [Retry(attempt, delay)];
        }
        attempt := attempt + 1;
      }
      return Execution(Err(lastError), calls, retries);
    }
  }
}
