/**
 * The decisions the interceptors take on one request or one error, as pure
 * functions: when each request interceptor runs, the bearer header, the 401
 * refresh-and-retry rule, the timeout retry rule, and the step-up challenge
 * and step-up call.
 */
module Policies {
  import opened Js
  import opened Headers
  import opened Http

  const AccessTokenExpired := 401
  const StepUpRequired := 403
  const GatewayTimeout := 504

  /** Timeouts above this many milliseconds are not retried. */
  const TimeoutCeiling := 60000

  // ---------------------------------------------------------------- runWhen

  /** `runWhen` of the authentication interceptor. */
  function AuthRunWhen(autoRefreshToken: bool, accessToken: Option<string>): (r: bool)
    ensures r <==> autoRefreshToken && accessToken.Some? && accessToken.value != ""
  {
    autoRefreshToken && Truthy(accessToken)
  }

  /** `runWhen` of the idempotency interceptor: `['post', 'put', 'patch'].includes(method ?? '')`. */
  function IdempotencyRunWhen(useIdempotency: bool, httpMethod: Option<string>): (r: bool)
    ensures r <==> (useIdempotency && httpMethod.Some? &&
      (httpMethod.value == "post" || httpMethod.value == "put" || httpMethod.value == "patch"))
  {
    useIdempotency && Coalesce(httpMethod, Some("")).value in ["post", "put", "patch"]
  }

  /** `runWhen` of the cancel interceptors: `cancelOldRequest !== undefined`. */
  function CancelRunWhen(cancelOldRequest: Option<bool>): (r: bool)
    ensures r <==> cancelOldRequest == Some(true) || cancelOldRequest == Some(false)
  {
    match cancelOldRequest
    case None => false
    case Some(_) => true
  }

  // ---------------------------------------------------------- authentication

  /** `authenticationInterceptor`: with auto-refresh on, the config's header
      object gets `Authorization: Bearer ${accessToken}`. */
  function Authenticate(autoRefreshToken: bool, accessToken: Option<string>, cfg: RequestConfig): (r: RequestConfig)
    ensures r.(headers := cfg.headers) == cfg
    ensures autoRefreshToken && cfg.headers.Some? ==>
      r.headers == Some(cfg.headers.value["Authorization" := Some("Bearer " + TextOf(accessToken))])
    ensures !autoRefreshToken || cfg.headers.None? ==> r == cfg
  {
    if autoRefreshToken then WithHeader(cfg, "Authorization", "Bearer " + TextOf(accessToken)) else cfg
  }

  /** Whenever the interceptor runs, the header carries the stored (truthy)
      token itself, so the template never renders an absent token as "undefined". */
  lemma AuthenticateWhenRun(autoRefreshToken: bool, accessToken: Option<string>, cfg: RequestConfig)
    requires AuthRunWhen(autoRefreshToken, accessToken) && cfg.headers.Some?
    ensures var h := Authenticate(autoRefreshToken, accessToken, cfg).headers.value;
      "Authorization" in h && h["Authorization"] == Some("Bearer " + accessToken.value)
  {
  }

  // --------------------------------------------------------------- 401 rule

  /** `refreshTokenInterceptor`'s decision. A 401 with auto-refresh on asks for a
      refresh and one retry, marking the config `didRetry`; a 401 on a config
      already marked rejects with the response body (`{}` when absent); anything
      else rejects the original error. */
  function UnauthorizedDecision(autoRefreshToken: bool, err: HttpError): (o: Outcome)
    ensures o.Reject? || o.RejectBody? || o.RefreshThenRetry?
    ensures o.RefreshThenRetry? <==>
      autoRefreshToken && StatusOf(err) == Some(AccessTokenExpired) && !err.config.didRetry
    ensures o.RefreshThenRetry? ==> o.config == err.config.(didRetry := true)
    ensures o.RejectBody? <==>
      autoRefreshToken && StatusOf(err) == Some(AccessTokenExpired) && err.config.didRetry
    ensures o.RejectBody? ==> o.body == BodyOrEmpty(err.response.value.data)
    ensures o.Reject? ==> o == Reject(err)
  {
    if autoRefreshToken && StatusOf(err) == Some(AccessTokenExpired) then
      if err.config.didRetry then RejectBody(BodyOrEmpty(err.response.value.data))
      else RefreshThenRetry(err.config.(didRetry := true))
    else Reject(err)
  }

  /** A request is refreshed at most once: when its retry fails again, whatever
      the new error is, no second refresh is asked for. */
  lemma {:induction false} RefreshAtMostOnce(autoRefreshToken: bool, err: HttpError, again: HttpError)
    requires UnauthorizedDecision(autoRefreshToken, err).RefreshThenRetry?
    requires again.config == UnauthorizedDecision(autoRefreshToken, err).config
    ensures !UnauthorizedDecision(autoRefreshToken, again).RefreshThenRetry?
    ensures StatusOf(again) == Some(AccessTokenExpired) ==>
      UnauthorizedDecision(autoRefreshToken, again) == RejectBody(BodyOrEmpty(again.response.value.data))
  {
    assert again.config.didRetry;
  }

  // ----------------------------------------------------------- timeout rule

  /** `(code === 'ECONNABORTED' && message.match(/timeout/)) || status === 504`. */
  function IsTimeout(err: HttpError): (r: bool)
    ensures r <==> (err.code == Some("ECONNABORTED") && exists i :: OccursAt(err.message, "timeout", i))
                   || StatusOf(err) == Some(GatewayTimeout)
  {
    HasSubstringSpec(err.message, "timeout");
    (err.code == Some("ECONNABORTED") && HasSubstring(err.message, "timeout"))
    || StatusOf(err) == Some(GatewayTimeout)
  }

  /** `timeOutInterceptor`'s decision: a timeout whose config timeout is defined
      and at most 60000 is re-issued with five times that timeout and every other
      field kept; everything else rejects the error unchanged. */
  function TimeoutDecision(retryOnTimeout: bool, err: HttpError): (o: Outcome)
    ensures o.Reject? || o.Retry?
    ensures o.Retry? <==> (retryOnTimeout && IsTimeout(err) &&
      err.config.timeout.Some? && err.config.timeout.value <= TimeoutCeiling)
    ensures o.Retry? ==> o.config == err.config.(timeout := Some(5 * err.config.timeout.value))
    ensures o.Reject? ==> o == Reject(err)
  {
    if retryOnTimeout && IsTimeout(err) then
      if Coalesce(err.config.timeout, Some(10_000_000_000)).value > TimeoutCeiling then Reject(err)
      else Retry(err.config.(timeout := Some(Coalesce(err.config.timeout, Some(1000)).value * 5)))
    else Reject(err)
  }

  function Pow5(n: nat): (p: nat)
    ensures p >= 1
  {
    if n == 0 then 1 else 5 * Pow5(n - 1)
  }

  lemma {:induction false} Pow5Grows(m: nat, n: nat)
    requires m <= n
    ensures Pow5(m) <= Pow5(n)
    decreases n
  {
    if m < n {
      Pow5Grows(m, n - 1);
    }
  }

  /**
   * How many times a timed-out request is re-issued before its error surfaces,
   * when every re-issued request times out again in the same way. That this
   * function is well defined is the statement that the retry chain is finite for
   * a positive timeout: each retry multiplies the timeout by five, and the k-th
   * retry happens only while the timeout, 5^k times the first, is at most 60000.
   */
  function RetriesUntilSurfaced(err: HttpError): (n: nat)
    requires IsTimeout(err) && err.config.timeout.Some? && err.config.timeout.value > 0
    ensures n > 0 ==> err.config.timeout.value * Pow5(n - 1) <= TimeoutCeiling
    decreases TimeoutCeiling + 1 - err.config.timeout.value
  {
    match TimeoutDecision(true, err)
    case Retry(c) =>
      var next := err.(config := c);
      var m := RetriesUntilSurfaced(next);
      var t := err.config.timeout.value;
      assert m > 0 ==> t * Pow5(m) == (5 * t) * Pow5(m - 1);
      1 + m
    case _ => 0
  }

  /** From any positive timeout, at most seven retries happen (1 ms, 5 ms, ...,
      15625 ms; the next, 78125 ms, is over the ceiling). */
  lemma RetriesAtMostSeven(err: HttpError)
    requires IsTimeout(err) && err.config.timeout.Some? && err.config.timeout.value > 0
    ensures RetriesUntilSurfaced(err) <= 7
  {
    var n := RetriesUntilSurfaced(err);
    if n > 0 {
      AtLeastOneFactor(err.config.timeout.value, Pow5(n - 1));
      Pow5AboveCeiling(n - 1);
    }
  }

  lemma AtLeastOneFactor(t: int, p: nat)
    requires t >= 1
    ensures p <= t * p
  {
  }

  /** 5^k is at most 60000 only for k up to 6. */
  lemma Pow5AboveCeiling(k: nat)
    ensures Pow5(k) <= TimeoutCeiling ==> k <= 6
  {
    if k > 6 {
      Pow5Grows(7, k);
    }
  }

  /** A timeout of zero or less is never lifted above the ceiling: the re-issued
      config has a timeout that is again at most zero, so a request that keeps
      timing out is re-issued forever (with zero it is the very same config). */
  lemma NonPositiveTimeoutRetriesForever(err: HttpError)
    requires IsTimeout(err) && err.config.timeout.Some? && err.config.timeout.value <= 0
    ensures TimeoutDecision(true, err).Retry?
    ensures var c := TimeoutDecision(true, err).config;
      c.timeout.value <= 0 && IsTimeout(err.(config := c))
    ensures err.config.timeout == Some(0) ==> TimeoutDecision(true, err) == Retry(err.config)
  {
  }

  // --------------------------------------------------------------- step-up

  /** A step-up challenge read out of a 403 response body. */
  datatype Challenge = Challenge(transactionId: Scalar, authenticationMethods: Option<string>)

  /** The challenge `stepUpAuthInterceptor` records: only with step-up enabled,
      status 403 and a truthy `transactionId` in the body. */
  function StepUpChallenge(stepUpAuthEnabled: bool, err: HttpError): (c: Option<Challenge>)
    ensures c.Some? <==> (stepUpAuthEnabled && StatusOf(err) == Some(StepUpRequired) &&
      TruthyScalar(BodyOrEmpty(err.response.value.data).transactionId))
    ensures c.Some? ==>
      var body := BodyOrEmpty(err.response.value.data);
      c.value == Challenge(body.transactionId.value, body.authenticationMethods)
  {
    if stepUpAuthEnabled && err.response.Some? then
      var body := BodyOrEmpty(err.response.value.data);
      if err.response.value.status == StepUpRequired && TruthyScalar(body.transactionId) then
        Some(Challenge(body.transactionId.value, body.authenticationMethods))
      else None
    else None
  }

  /** `config.headers ??= {}; config.headers['X-TransactionId'] = `${transactionId}``. */
  function WithTransactionId(cfg: RequestConfig, transactionId: Scalar): (r: RequestConfig)
    ensures r.headers.Some?
    ensures "X-TransactionId" in r.headers.value
    ensures r.headers.value["X-TransactionId"] == Some(ScalarText(transactionId))
    ensures forall k :: k != "X-TransactionId" ==>
      (k in r.headers.value <==> cfg.headers.Some? && k in cfg.headers.value)
    ensures forall k :: k != "X-TransactionId" && k in r.headers.value ==>
      r.headers.value[k] == cfg.headers.value[k]
    ensures r.(headers := cfg.headers) == cfg
  {
    var h := Coalesce(cfg.headers, Some(map[])).value;
    cfg.(headers := Some(h["X-TransactionId" := Some(ScalarText(transactionId))]))
  }

  /** The body of the step-up call. */
  datatype StepUpBody =
    | Credentials(username: string, passcode: string)
    | Biometric(refreshToken: Option<string>, authenticationMethod: string)

  /** `username && passcode ? { username, passcode } : { refreshToken, authenticationMethod: 'BIOMETRIC' }` */
  function StepUpBodyFor(username: Option<string>, passcode: Option<string>, refreshToken: Option<string>): (b: StepUpBody)
    ensures b.Credentials? <==> Truthy(username) && Truthy(passcode)
    ensures b.Credentials? ==> b.username == username.value && b.passcode == passcode.value
    ensures b.Biometric? ==> b == Biometric(refreshToken, "BIOMETRIC")
  {
    if Truthy(username) && Truthy(passcode) then Credentials(username.value, passcode.value)
    else Biometric(refreshToken, "BIOMETRIC")
  }

  /** The headers of the step-up call: `X-TransactionId` when a truthy
      transaction id is recorded, nothing else. */
  function StepUpHeaders(transactionId: Option<Scalar>): (h: HeaderMap)
    ensures "X-TransactionId" in h <==> TruthyScalar(transactionId)
    ensures "X-TransactionId" in h ==> h["X-TransactionId"] == Some(ScalarText(transactionId.value))
    ensures forall k :: k in h ==> k == "X-TransactionId"
  {
    if TruthyScalar(transactionId) then map["X-TransactionId" := Some(ScalarText(transactionId.value))]
    else map[]
  }
}
