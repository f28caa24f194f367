/**
 * The HTTP client's policies (src/lib/request.ts): which failures are retried at transport level,
 * how long each retry waits, how many attempts a call makes, and how a failed response is
 * classified into the error kinds the request layer reacts to.
 *
 * The network is an oracle: `attempt(i)` is what the i-th attempt of one call returns.
 */
module HttpPolicy {
  import opened Wrappers
  import opened JsValues

  /** The part of an HTTP response a failure carries. */
  datatype Response = Response(status: int, data: Value)

  /** A failed attempt: a transport error code such as "ECONNRESET", and the response if one came. */
  datatype HttpError = HttpError(code: Option<string>, response: Option<Response>)

  /** The outcome of one attempt. */
  datatype Attempt = Success(body: Value) | Failure(error: HttpError)

  /** Every attempt has its own 60 s budget; the budget restarts at each retry. */
  const TIMEOUT_MS := 60000
  /** At most two retries, i.e. three attempts in all. */
  const RETRIES := 2
  const RETRY_STATUSES: seq<int> := [500, 501, 502, 503, 504]

  /** A connection-class error code, or a 500-504 response. */
  predicate RetryCondition(err: HttpError)
    ensures err.code.None? ==>
      (RetryCondition(err) <==> err.response.Some? && 500 <= err.response.value.status <= 504)
    ensures err.code.Some? && StartsWith(err.code.value, "ECONN") ==> RetryCondition(err)
    ensures err.code.Some? && !StartsWith(err.code.value, "ECONN") ==>
      (RetryCondition(err) <==> err.response.Some? && 500 <= err.response.value.status <= 504)
  {
    (err.code.Some? && StartsWith(err.code.value, "ECONN"))
    || (err.response.Some? && err.response.value.status in RETRY_STATUSES)
  }

  /** The wait before the n-th retry. */
  function RetryDelay(retryCount: nat): (d: nat)
    ensures retryCount > 0 ==> d >= 2000
    ensures retryCount <= RETRIES ==> d <= 4000
  {
    retryCount * 2000
  }

  /** Total waiting before the k-th retry has been sent. */
  function DelayBefore(retries: nat): nat {
    if retries == 0 then 0 else DelayBefore(retries - 1) + RetryDelay(retries)
  }

  /** One call as the transport layer carries it out: the final outcome, attempts made, time waited. */
  datatype Transfer = Transfer(outcome: Attempt, attempts: nat, waitedMs: nat)

  /**
   * The policy: attempt, and on a failure that the retry condition accepts retry after
   * `RetryDelay(n)`, at most RETRIES times.
   */
  function Transport(attempt: nat -> Attempt): (t: Transfer)
    ensures 1 <= t.attempts <= RETRIES + 1
    ensures t.outcome == attempt(t.attempts - 1)
    ensures forall i :: 0 <= i < t.attempts - 1 ==> attempt(i).Failure? && RetryCondition(attempt(i).error)
    ensures t.outcome.Failure? && t.attempts <= RETRIES ==> !RetryCondition(t.outcome.error)
    ensures t.waitedMs == DelayBefore(t.attempts - 1)
  {
    RetryFrom(attempt, 0)
  }

  function RetryFrom(attempt: nat -> Attempt, retryCount: nat): (t: Transfer)
    requires retryCount <= RETRIES
    decreases RETRIES - retryCount
    ensures retryCount + 1 <= t.attempts <= RETRIES + 1
    ensures t.outcome == attempt(t.attempts - 1)
    ensures forall i :: retryCount <= i < t.attempts - 1 ==> attempt(i).Failure? && RetryCondition(attempt(i).error)
    ensures t.outcome.Failure? && t.attempts <= RETRIES ==> !RetryCondition(t.outcome.error)
    ensures t.waitedMs == DelayBefore(t.attempts - 1) - DelayBefore(retryCount)
  {
    match attempt(retryCount)
    case Success(body) => Transfer(Success(body), retryCount + 1, 0)
    case Failure(err) =>
      if retryCount < RETRIES && RetryCondition(err) then
        var rest := RetryFrom(attempt, retryCount + 1);
        Transfer(rest.outcome, rest.attempts, RetryDelay(retryCount + 1) + rest.waitedMs)
      else
        Transfer(Failure(err), retryCount + 1, 0)
  }

  /** Worst-case duration of one call: every attempt uses its whole budget, plus the waits. */
  lemma TransportDurationBound(attempt: nat -> Attempt)
    ensures Transport(attempt).attempts * TIMEOUT_MS + Transport(attempt).waitedMs <= 3 * TIMEOUT_MS + 6000
  {
    var t := Transport(attempt);
    assert DelayBefore(0) == 0 && DelayBefore(1) == 2000 && DelayBefore(2) == 6000;
  }

  /** The result codes the service reports (defined in the errors module, not part of this model). */
  datatype ErrorCodes = ErrorCodes(tokenExpired: string, manualProcess: string)

  /** What the response interceptor turns a failure into. */
  datatype ErrorClass =
    | NotConnected
    | TokenExpired
    | ManualProcessNeeded
    | Unclassified(error: HttpError)

  /** `err.response.data?.resultCode` */
  function ResultCode(err: HttpError): Value {
    if err.response.Some? then Field(err.response.value.data, "resultCode") else Undef
  }

  /**
   * The interceptor's decision chain, first match wins: no response or code '9999' is
   * NotConnected, then the token-expired code, then the manual-process code; anything else is
   * passed on unchanged.
   */
  function Classify(err: HttpError, codes: ErrorCodes): (c: ErrorClass)
    ensures c.NotConnected? <==> err.response.None? || ResultCode(err) == Str("9999")
    ensures c.TokenExpired? <==>
      err.response.Some? && ResultCode(err) != Str("9999") && ResultCode(err) == Str(codes.tokenExpired)
    ensures c.ManualProcessNeeded? <==>
      err.response.Some? && ResultCode(err) !in {Str("9999"), Str(codes.tokenExpired)}
      && ResultCode(err) == Str(codes.manualProcess)
    ensures c.Unclassified? ==> c.error == err && err.response.Some?
  {
    if err.response.None? || ResultCode(err) == Str("9999") then NotConnected
    else if ResultCode(err) == Str(codes.tokenExpired) then TokenExpired
    else if ResultCode(err) == Str(codes.manualProcess) then ManualProcessNeeded
    else Unclassified(err)
  }

  /**
   * The outer classifier's pass over what a nested retry delivered. The retry interceptor is
   * registered before the classifier, so a retried attempt runs as a nested request through both,
   * and its failure reaches the outer classifier already classified. The classifier's own errors
   * carry no response, so they become NotConnected; an unclassified error is classified again.
   */
  function Reclassify(c: ErrorClass, codes: ErrorCodes): (r: ErrorClass)
    ensures !c.Unclassified? ==> r.NotConnected?
    ensures c.Unclassified? ==> r == Classify(c.error, codes)
  {
    match c
    case Unclassified(err) => Classify(err, codes)
    case _ => NotConnected
  }

  /** What the caller of the client sees for a call whose last attempt failed with `err`: one classifier pass per attempt. */
  function Delivered(err: HttpError, codes: ErrorCodes, attempts: nat): ErrorClass
    requires attempts >= 1
    decreases attempts
  {
    if attempts == 1 then Classify(err, codes) else Reclassify(Delivered(err, codes, attempts - 1), codes)
  }

  /**
   * Without a transport retry the failure is classified once. After one, a token-expired or
   * manual-process failure arrives as NotConnected, and any other failure as it was classified.
   */
  lemma {:induction false} DeliveredClass(err: HttpError, codes: ErrorCodes, attempts: nat)
    requires attempts >= 1
    ensures attempts == 1 ==> Delivered(err, codes, attempts) == Classify(err, codes)
    ensures attempts >= 2 && Classify(err, codes).Unclassified? ==> Delivered(err, codes, attempts) == Classify(err, codes)
    ensures attempts >= 2 && !Classify(err, codes).Unclassified? ==> Delivered(err, codes, attempts).NotConnected?
    decreases attempts
  {
    if attempts >= 2 {
      DeliveredClass(err, codes, attempts - 1);
      if attempts >= 3 {
        DeliveredClass(err, codes, attempts - 2);
      }
    }
  }
}
