/**
 * The request, response and error records the interceptors read and write,
 * reduced to the fields the connector looks at.
 */
module Http {
  import opened Js
  import opened Headers
  import opened IdempotencyKey

  /** Identifies one cancel-token source; each `CancelToken.source()` makes a new one. */
  type Handle = nat

  /** An axios request config. `didRetry` is `metadata.didRetry`. The timeout
      is a whole number of milliseconds: fractional, NaN and infinite
      timeouts are not modelled. */
  datatype RequestConfig = RequestConfig(
    httpMethod: Option<string>,
    url: Option<string>,
    data: Payload,
    headers: Option<HeaderMap>,
    timeout: Option<int>,
    cancelToken: Option<Handle>,
    didRetry: bool)

  /** A response body as the connector reads it: token pair and step-up challenge. */
  datatype Body = Body(
    accessToken: Option<string>,
    refreshToken: Option<string>,
    transactionId: Option<Scalar>,
    authenticationMethods: Option<string>)

  const EmptyBody := Body(None, None, None, None)

  /** `data ?? {}` */
  function BodyOrEmpty(data: Option<Body>): (b: Body)
    ensures data.Some? ==> b == data.value
    ensures data.None? ==>
      b.accessToken.None? && b.refreshToken.None? && b.transactionId.None? && b.authenticationMethods.None?
  {
    if data.Some? then data.value else EmptyBody
  }

  /** An axios response; `responseURL` is `response.request?.responseURL`. */
  datatype Response = Response(
    status: int,
    data: Option<Body>,
    responseURL: Option<string>,
    config: RequestConfig)

  /** A rejected request: an axios error, or a cancellation (`axios.isCancel`). */
  datatype HttpError = HttpError(
    config: RequestConfig,
    response: Option<Response>,
    code: Option<string>,
    message: string,
    isCancel: bool)

  /** `error.response?.status` */
  function StatusOf(err: HttpError): Option<int>
  {
    if err.response.Some? then Some(err.response.value.status) else None
  }

  /** What an error interceptor hands back to the promise chain. */
  datatype Outcome =
    | Reject(err: HttpError)        // `Promise.reject(error)`
    | RejectBody(body: Body)        // `Promise.reject(data)`
    | RejectTypeError               // a `TypeError` thrown while reading a reply
    | RefreshThenRetry(config: RequestConfig)  // refresh the tokens, then re-issue
    | Retry(config: RequestConfig)  // `instance.request(config)`
    | Suppressed                    // `Promise.resolve()`: resolves with no value

  /** What the token endpoint answered: a response whose body may be missing,
      or an error. */
  datatype RefreshReply = Refreshed(data: Option<Body>) | RefreshFailed(err: HttpError)

  /** `config.headers[name] = value`, done only when the config has a header object. */
  function WithHeader(cfg: RequestConfig, name: string, value: string): (r: RequestConfig)
    ensures r.headers.Some? <==> cfg.headers.Some?
    ensures r.headers.Some? ==> name in r.headers.value && r.headers.value[name] == Some(value)
    ensures r.headers.Some? ==> forall k :: k != name ==>
      (k in r.headers.value <==> k in cfg.headers.value) &&
      (k in r.headers.value ==> r.headers.value[k] == cfg.headers.value[k])
    ensures r.(headers := cfg.headers) == cfg
  {
    if cfg.headers.Some? then cfg.(headers := Some(cfg.headers.value[name := Some(value)])) else cfg
  }
}
