/**
 * One connector instance as `createInstance` builds it: its settings, the
 * token store, the step-up slot, the in-flight tracker, the common headers of
 * the main and the refresh channel, and the interceptors that read and update
 * them. The transport is not modelled: what the network answers is passed in.
 */
module Connector {
  import opened Js
  import opened Headers
  import opened IdempotencyKey
  import opened Http
  import opened Policies
  import opened Tracker

  const DefaultRefreshPath := "/oauth2/refresh"
  const DefaultStepUpPath := "/oauth2/stepup"

  /** The options of a `ConnectionConfig` the connector reads; `None` is an
      option left undefined. `tokensPersist` is only told apart by presence. */
  datatype ConnectionConfig = ConnectionConfig(
    apiKey: Option<string>,
    headers: HeaderMap,
    refreshPath: Option<string>,
    stepupPath: Option<string>,
    autoRefreshToken: Option<bool>,
    useIdempotency: Option<bool>,
    cancelOldRequest: Option<bool>,
    stepUpAuthEnabled: Option<bool>,
    retryOnTimeout: Option<bool>,
    hasTokensPersist: bool)

  /** An access/refresh token pair, as stored and as found in a body. */
  datatype Tokens = Tokens(accessToken: Option<string>, refreshToken: Option<string>)

  const NoTokens := Tokens(None, None)

  /** `tokens.x = found.x ?? tokens.x` for both tokens: a token that is present
      (even empty) replaces the stored one, an absent one keeps it. */
  function MergeTokens(stored: Tokens, found: Tokens): (t: Tokens)
    ensures found.accessToken.Some? ==> t.accessToken == found.accessToken
    ensures found.accessToken.None? ==> t.accessToken == stored.accessToken
    ensures found.refreshToken.Some? ==> t.refreshToken == found.refreshToken
    ensures found.refreshToken.None? ==> t.refreshToken == stored.refreshToken
  {
    Tokens(Coalesce(found.accessToken, stored.accessToken), Coalesce(found.refreshToken, stored.refreshToken))
  }

  /** Merging the same tokens twice is merging them once, and merging nothing
      changes nothing. */
  lemma MergeTokensIdempotent(stored: Tokens, found: Tokens)
    ensures MergeTokens(MergeTokens(stored, found), found) == MergeTokens(stored, found)
    ensures MergeTokens(stored, NoTokens) == stored
  {
  }

  /** The tokens a response carries: `response?.data ?? {}`. */
  function TokensIn(response: Option<Response>): (t: Tokens)
    ensures response.None? || response.value.data.None? ==> t == NoTokens
  {
    var body := BodyOrEmpty(if response.Some? then response.value.data else None);
    Tokens(body.accessToken, body.refreshToken)
  }

  /** The `tokens` record. */
  class TokenStore {
    var accessToken: Option<string>
    var refreshToken: Option<string>

    constructor()
      ensures accessToken == None && refreshToken == None
    {
      accessToken := None;
      refreshToken := None;
    }

    function Current(): Tokens
      reads this
    {
      Tokens(accessToken, refreshToken)
    }
  }

  /** The `stepUpPayload` slot: the last step-up challenge and the config to replay. */
  class StepUpSlot {
    var transactionId: Option<Scalar>
    var authenticationMethods: Option<string>
    var config: Option<RequestConfig>

    /** The slot is either empty or holds a whole challenge: a truthy
        transaction id and a config whose `X-TransactionId` header carries it. */
    ghost predicate Valid()
      reads this
    {
      || IsEmpty()
      || (&& TruthyScalar(transactionId)
          && config.Some?
          && config.value.headers.Some?
          && "X-TransactionId" in config.value.headers.value
          && config.value.headers.value["X-TransactionId"] == Some(ScalarText(transactionId.value)))
    }

    predicate IsEmpty()
      reads this
    {
      transactionId.None? && authenticationMethods.None? && config.None?
    }

    constructor()
      ensures Valid() && IsEmpty()
    {
      transactionId := None;
      authenticationMethods := None;
      config := None;
    }
  }

  /** What `stepUp` does: reject at once, or call the step-up endpoint (and,
      when that call succeeds, replay the recorded config). */
  datatype StepUpResult =
    | NoChallenge
    | StepUpCall(path: string, body: StepUpBody, headers: HeaderMap, replay: Option<RequestConfig>)

  /** The key under which the tracker files a request: `url ?? ''`. */
  function RequestKey(cfg: RequestConfig): (key: string)
    ensures cfg.url.Some? ==> key == cfg.url.value
    ensures cfg.url.None? ==> key == ""
  {
    Coalesce(cfg.url, Some("")).value
  }

  /** `idempotencyInterceptor`: a config with a header object gets the
      `Idempotency-Key` computed from its data and url. */
  method IdempotencyInterceptor(cfg: RequestConfig) returns (out: RequestConfig)
    ensures out.(headers := cfg.headers) == cfg
    ensures cfg.headers.None? ==> out == cfg
    ensures cfg.headers.Some? ==>
      out.headers == Some(cfg.headers.value["Idempotency-Key" := Some(KeyOf(HashInput(cfg.data, cfg.url)))])
    ensures cfg.headers.Some? ==> IsKeyShaped(out.headers.value["Idempotency-Key"].value)
  {
    out := cfg;
    if cfg.headers.Some? {
      var key := IdempotencyKeyFrom(cfg.data, cfg.url);
      out := WithHeader(cfg, "Idempotency-Key", key);
    }
  }

  class Connector {
    const apiKey: Option<string>
    const refreshPath: string
    const stepupPath: string
    const autoRefreshToken: bool
    const useIdempotency: bool
    const cancelOldRequest: Option<bool>
    const stepUpAuthEnabled: bool
    const retryOnTimeout: bool
    const hasTokensPersist: bool

    const tracker: RequestTracker
    const tokens: TokenStore
    const stepUpPayload: StepUpSlot

    /** `instance.defaults.headers.common` */
    var headers: HeaderMap
    /** `refreshInstance.defaults.headers.common` */
    var refreshHeaders: HeaderMap

    ghost predicate Valid()
      reads this, tracker, stepUpPayload
    {
      tracker.Valid() && stepUpPayload.Valid()
    }

    /**
     * `createInstance(name, config)`: the option defaults, the initial common
     * headers, an empty token store, tracker and step-up slot. The refresh
     * channel starts from the transport's own common headers, `refreshCommon`.
     */
    constructor(config: ConnectionConfig, refreshCommon: HeaderMap)
      ensures Valid()
      ensures apiKey == config.apiKey
      ensures refreshPath == (if config.refreshPath.Some? then config.refreshPath.value else DefaultRefreshPath)
      ensures stepupPath == (if config.stepupPath.Some? then config.stepupPath.value else DefaultStepUpPath)
      ensures autoRefreshToken <==> config.autoRefreshToken != Some(false)
      ensures useIdempotency <==> config.useIdempotency == Some(true)
      ensures cancelOldRequest == config.cancelOldRequest
      ensures stepUpAuthEnabled <==> config.stepUpAuthEnabled == Some(true)
      ensures retryOnTimeout <==> config.retryOnTimeout == Some(true)
      ensures hasTokensPersist == config.hasTokensPersist
      ensures headers == InitialHeaders(config.apiKey, config.headers)
      ensures refreshHeaders == refreshCommon
      ensures fresh(tracker) && fresh(tokens) && fresh(stepUpPayload)
      ensures tracker.pending == map[] && tracker.cancelled == {}
      ensures tokens.Current() == NoTokens
      ensures stepUpPayload.IsEmpty()
    {
      apiKey := config.apiKey;
      refreshPath := Coalesce(config.refreshPath, Some(DefaultRefreshPath)).value;
      stepupPath := Coalesce(config.stepupPath, Some(DefaultStepUpPath)).value;
      autoRefreshToken := Coalesce(config.autoRefreshToken, Some(true)).value;
      useIdempotency := Coalesce(config.useIdempotency, Some(false)).value;
      cancelOldRequest := config.cancelOldRequest;
      stepUpAuthEnabled := Coalesce(config.stepUpAuthEnabled, Some(false)).value;
      retryOnTimeout := Coalesce(config.retryOnTimeout, Some(false)).value;
      hasTokensPersist := config.hasTokensPersist;
      tracker := new RequestTracker();
      tokens := new TokenStore();
      stepUpPayload := new StepUpSlot();
      headers := InitialHeaders(config.apiKey, config.headers);
      refreshHeaders := refreshCommon;
    }

    /** The `tokenRehydrate` callback: the restored pair (`{}` when the hook
        yields nothing) is merged into the store with `??`. */
    method Rehydrate(restored: Option<Tokens>)
      modifies tokens
      ensures tokens.Current() == MergeTokens(old(tokens.Current()), Coalesce(restored, Some(NoTokens)).value)
    {
      var found := Coalesce(restored, Some(NoTokens)).value;
      tokens.accessToken := Coalesce(found.accessToken, tokens.accessToken);
      tokens.refreshToken := Coalesce(found.refreshToken, tokens.refreshToken);
    }

    /** `cancelRequestInterceptor`: files the request under `url ?? ''` with a
        fresh cancel token, returned in a copy of the config. */
    method CancelRequestInterceptor(cfg: RequestConfig) returns (out: RequestConfig)
      requires Valid()
      modifies tracker
      ensures Valid()
      ensures RequestKey(cfg) in tracker.pending
      ensures out == cfg.(cancelToken := Some(tracker.pending[RequestKey(cfg)]))
      ensures out.cancelToken.value !in tracker.cancelled
      ensures forall k :: k in old(tracker.pending) ==> old(tracker.pending)[k] != out.cancelToken.value
      ensures RequestKey(cfg) !in old(tracker.pending) ==> tracker.cancelled == old(tracker.cancelled)
      ensures RequestKey(cfg) in old(tracker.pending) && cancelOldRequest == Some(true) ==>
        && tracker.cancelled == old(tracker.cancelled) + {old(tracker.pending)[RequestKey(cfg)]}
        && (forall k :: k in tracker.pending ==> tracker.pending[k] != old(tracker.pending)[RequestKey(cfg)])
      ensures RequestKey(cfg) in old(tracker.pending) && cancelOldRequest != Some(true) ==>
        tracker.cancelled == old(tracker.cancelled) + {old(tracker.nextHandle)}
      ensures forall k :: k != RequestKey(cfg) ==>
        (k in tracker.pending <==>
          (k in old(tracker.pending) &&
           !(k == "" && RequestKey(cfg) in old(tracker.pending) && cancelOldRequest != Some(true))))
      ensures forall k :: k != RequestKey(cfg) && k in tracker.pending ==>
        tracker.pending[k] == old(tracker.pending)[k]
    {
      var key := RequestKey(cfg);
      var h := tracker.Register(key, cancelOldRequest == Some(true));
      out := cfg.(cancelToken := Some(h));
    }

    /**
     * The request chain of one request. axios runs request interceptors in the
     * reverse of their registration order, each only when its `runWhen` holds
     * for the incoming config: the tracker, then the idempotency key, then the
     * bearer header. (The start-time stamp runs first and is not modelled.)
     */
    method Dispatch(cfg: RequestConfig) returns (out: RequestConfig)
      requires Valid()
      modifies tracker
      ensures Valid()
      ensures out.(headers := cfg.headers, cancelToken := cfg.cancelToken) == cfg
      ensures CancelRunWhen(cancelOldRequest) ==>
        RequestKey(cfg) in tracker.pending &&
        out.cancelToken == Some(tracker.pending[RequestKey(cfg)]) &&
        forall k :: k in old(tracker.pending) ==> old(tracker.pending)[k] != out.cancelToken.value
      ensures CancelRunWhen(cancelOldRequest) && RequestKey(cfg) !in old(tracker.pending) ==>
        tracker.cancelled == old(tracker.cancelled)
      ensures (CancelRunWhen(cancelOldRequest) && RequestKey(cfg) in old(tracker.pending) &&
        cancelOldRequest == Some(true)) ==>
        && tracker.cancelled == old(tracker.cancelled) + {old(tracker.pending)[RequestKey(cfg)]}
        && (forall k :: k in tracker.pending ==> tracker.pending[k] != old(tracker.pending)[RequestKey(cfg)])
      ensures (CancelRunWhen(cancelOldRequest) && RequestKey(cfg) in old(tracker.pending) &&
        cancelOldRequest != Some(true)) ==>
        tracker.cancelled == old(tracker.cancelled) + {old(tracker.nextHandle)}
      ensures CancelRunWhen(cancelOldRequest) ==> forall k :: k != RequestKey(cfg) ==>
        (k in tracker.pending <==>
          (k in old(tracker.pending) &&
           !(k == "" && RequestKey(cfg) in old(tracker.pending) && cancelOldRequest != Some(true))))
      ensures CancelRunWhen(cancelOldRequest) ==> forall k :: k != RequestKey(cfg) && k in tracker.pending ==>
        tracker.pending[k] == old(tracker.pending)[k]
      ensures !CancelRunWhen(cancelOldRequest) ==>
        out.cancelToken == cfg.cancelToken && tracker.pending == old(tracker.pending) &&
        tracker.cancelled == old(tracker.cancelled)
      ensures out.headers.Some? <==> cfg.headers.Some?
      ensures cfg.headers.Some? && IdempotencyRunWhen(useIdempotency, cfg.httpMethod) ==>
        "Idempotency-Key" in out.headers.value &&
        out.headers.value["Idempotency-Key"] == Some(KeyOf(HashInput(cfg.data, cfg.url)))
      ensures cfg.headers.Some? && AuthRunWhen(autoRefreshToken, tokens.accessToken) ==>
        "Authorization" in out.headers.value &&
        out.headers.value["Authorization"] == Some("Bearer " + tokens.accessToken.value)
      ensures cfg.headers.Some? && !IdempotencyRunWhen(useIdempotency, cfg.httpMethod) ==>
        ("Idempotency-Key" in out.headers.value <==> "Idempotency-Key" in cfg.headers.value) &&
        ("Idempotency-Key" in out.headers.value ==>
          out.headers.value["Idempotency-Key"] == cfg.headers.value["Idempotency-Key"])
      ensures cfg.headers.Some? && !AuthRunWhen(autoRefreshToken, tokens.accessToken) ==>
        ("Authorization" in out.headers.value <==> "Authorization" in cfg.headers.value) &&
        ("Authorization" in out.headers.value ==>
          out.headers.value["Authorization"] == cfg.headers.value["Authorization"])
      ensures cfg.headers.Some? ==> forall k ::
        k != "Authorization" && k != "Idempotency-Key" ==>
        (k in out.headers.value <==> k in cfg.headers.value) &&
        (k in out.headers.value ==> out.headers.value[k] == cfg.headers.value[k])
      ensures (cfg.headers.Some? && !IdempotencyRunWhen(useIdempotency, cfg.httpMethod) &&
        !AuthRunWhen(autoRefreshToken, tokens.accessToken)) ==> out.headers == cfg.headers
    {
      var runAuth := AuthRunWhen(autoRefreshToken, tokens.accessToken);
      var runIdempotency := IdempotencyRunWhen(useIdempotency, cfg.httpMethod);
      var runCancel := CancelRunWhen(cancelOldRequest);
      out := cfg;
      if runCancel {
        out := CancelRequestInterceptor(out);
      }
      if runIdempotency {
        out := IdempotencyInterceptor(out);
      }
      if runAuth {
        if out.headers.Some? {
          AuthenticateWhenRun(autoRefreshToken, tokens.accessToken, out);
        }
        out := Authenticate(autoRefreshToken, tokens.accessToken, out);
      }
    }

    /** `cancelResponseInterceptor`: forgets the entry filed under the
        response's `responseURL` (the text "undefined" when there is none). */
    method CancelResponseInterceptor(response: Response) returns (r: Response)
      requires Valid()
      modifies tracker
      ensures Valid() && r == response
      ensures CancelRunWhen(cancelOldRequest) ==>
        tracker.pending == old(tracker.pending) - {TextOf(response.responseURL)}
      ensures !CancelRunWhen(cancelOldRequest) ==> tracker.pending == old(tracker.pending)
      ensures tracker.cancelled == old(tracker.cancelled)
    {
      if cancelOldRequest.Some? {
        tracker.Evict(TextOf(response.responseURL));
      }
      r := response;
    }

    /** `cancelErrorInterceptor`: a cancellation resolves with no value and
        touches nothing; any other error forgets the entry under `url ?? ''`
        and rejects with the same error. */
    method CancelErrorInterceptor(err: HttpError) returns (o: Outcome)
      requires Valid()
      modifies tracker
      ensures Valid()
      ensures o == (if CancelRunWhen(cancelOldRequest) && err.isCancel then Suppressed else Reject(err))
      ensures o.Suppressed? || !CancelRunWhen(cancelOldRequest) ==> tracker.pending == old(tracker.pending)
      ensures o.Reject? && CancelRunWhen(cancelOldRequest) ==>
        tracker.pending == old(tracker.pending) - {RequestKey(err.config)}
      ensures tracker.cancelled == old(tracker.cancelled)
    {
      if cancelOldRequest.Some? {
        if err.isCancel {
          return Suppressed;
        }
        var url := RequestKey(err.config);
        if url in tracker.pending {
          tracker.Evict(url);
        }
      }
      o := Reject(err);
    }

    /** `storeTokensInterceptor`: with auto-refresh on, each token present in
        the body replaces the stored one; `tokensPersist` is handed the store
        only when both tokens in the body are truthy. */
    method StoreTokensInterceptor(response: Option<Response>) returns (r: Option<Response>, persisted: Option<Tokens>)
      modifies tokens
      ensures r == response
      ensures autoRefreshToken ==> tokens.Current() == MergeTokens(old(tokens.Current()), TokensIn(response))
      ensures !autoRefreshToken ==> tokens.Current() == old(tokens.Current())
      ensures persisted.Some? <==>
        autoRefreshToken && hasTokensPersist &&
        Truthy(TokensIn(response).accessToken) && Truthy(TokensIn(response).refreshToken)
      ensures persisted.Some? ==> persisted.value == tokens.Current() == TokensIn(response)
    {
      r := response;
      persisted := None;
      if autoRefreshToken {
        var found := TokensIn(response);
        tokens.accessToken := Coalesce(found.accessToken, tokens.accessToken);
        tokens.refreshToken := Coalesce(found.refreshToken, tokens.refreshToken);
        if Truthy(found.accessToken) && Truthy(found.refreshToken) && hasTokensPersist {
          persisted := Some(tokens.Current());
        }
      }
    }

    /** `refreshToken()`: posts the stored refresh token to `refreshPath` and
        stores exactly the pair the answer carries, absent tokens included.
        `failure` is the rejection when there is no answer body to read. */
    method RefreshToken(reply: RefreshReply) returns (path: string, sent: Option<string>, failure: Option<Outcome>)
      modifies tokens
      ensures path == refreshPath && sent == old(tokens.refreshToken)
      ensures reply.Refreshed? && reply.data.Some? ==>
        failure.None? &&
        tokens.Current() == Tokens(reply.data.value.accessToken, reply.data.value.refreshToken)
      ensures reply.Refreshed? && reply.data.None? ==>
        failure == Some(RejectTypeError) && tokens.Current() == old(tokens.Current())
      ensures reply.RefreshFailed? ==>
        failure == Some(Reject(reply.err)) && tokens.Current() == old(tokens.Current())
    {
      path := refreshPath;
      sent := tokens.refreshToken;
      match reply
      case RefreshFailed(e) =>
        failure := Some(Reject(e));
      case Refreshed(None) =>
        failure := Some(RejectTypeError);
      case Refreshed(Some(body)) =>
        tokens.accessToken := body.accessToken;
        tokens.refreshToken := body.refreshToken;
        failure := None;
    }

    /** `refreshTokenInterceptor`: on a first 401, one refresh, then the same
        config, marked `didRetry`, is re-issued; otherwise the decision of
        `UnauthorizedDecision`, with the store untouched. `posted` is the
        refresh call made, as its path and the refresh token it carries. */
    method RefreshTokenInterceptor(err: HttpError, reply: RefreshReply)
      returns (o: Outcome, posted: Option<(string, Option<string>)>)
      modifies tokens
      ensures UnauthorizedDecision(autoRefreshToken, err).RefreshThenRetry? ==>
        && posted == Some((refreshPath, old(tokens.refreshToken)))
        && (reply.Refreshed? && reply.data.Some? ==> o == Retry(err.config.(didRetry := true)))
        && (reply.Refreshed? && reply.data.None? ==> o == RejectTypeError)
        && (reply.RefreshFailed? ==> o == Reject(reply.err))
        && (reply.Refreshed? && reply.data.Some? ==>
             tokens.Current() == Tokens(reply.data.value.accessToken, reply.data.value.refreshToken))
        && (reply.RefreshFailed? || reply.data.None? ==> tokens.Current() == old(tokens.Current()))
      ensures !UnauthorizedDecision(autoRefreshToken, err).RefreshThenRetry? ==>
        && posted.None?
        && o == UnauthorizedDecision(autoRefreshToken, err)
        && tokens.Current() == old(tokens.Current())
      ensures !o.RefreshThenRetry?
    {
      o := UnauthorizedDecision(autoRefreshToken, err);
      posted := None;
      if o.RefreshThenRetry? {
        var retry := o.config;
        var path, sent, failure := RefreshToken(reply);
        posted := Some((path, sent));
        o := if failure.Some? then failure.value else Retry(retry);
      }
    }

    /** `stepUpAuthInterceptor`: always rejects. A challenge (step-up enabled,
        403, truthy transaction id) adds `X-TransactionId` to the failed config
        and records transaction id, methods and that config in the slot,
        replacing any earlier challenge. */
    method StepUpAuthInterceptor(err: HttpError) returns (o: Outcome)
      requires Valid()
      modifies stepUpPayload
      ensures Valid()
      ensures o.Reject? && o.err.(config := err.config) == err
      ensures StepUpChallenge(stepUpAuthEnabled, err).None? ==>
        o == Reject(err) && unchanged(stepUpPayload)
      ensures StepUpChallenge(stepUpAuthEnabled, err).Some? ==>
        var c := StepUpChallenge(stepUpAuthEnabled, err).value;
        && o.err.config == WithTransactionId(err.config, c.transactionId)
        && stepUpPayload.transactionId == Some(c.transactionId)
        && stepUpPayload.authenticationMethods == c.authenticationMethods
        && stepUpPayload.config == Some(o.err.config)
    {
      var challenge := StepUpChallenge(stepUpAuthEnabled, err);
      o := Reject(err);
      if challenge.Some? {
        var cfg := WithTransactionId(err.config, challenge.value.transactionId);
        stepUpPayload.transactionId := Some(challenge.value.transactionId);
        stepUpPayload.authenticationMethods := challenge.value.authenticationMethods;
        stepUpPayload.config := Some(cfg);
        o := Reject(err.(config := cfg));
      }
    }

    /**
     * `stepUp(username, passcode)`. With the slot empty it rejects and sends
     * nothing. Otherwise it posts the chosen body with the transaction header
     * to `stepupPath`; `postSucceeded` is whether that call resolved. Only then
     * is the recorded config replayed and, once the replay settles, the slot
     * cleared; a failed post leaves the slot as it was.
     */
    method StepUp(username: Option<string>, passcode: Option<string>, postSucceeded: bool) returns (r: StepUpResult)
      requires Valid()
      modifies stepUpPayload
      ensures Valid()
      ensures r.NoChallenge? <==> old(stepUpPayload.IsEmpty())
      ensures r.NoChallenge? || !postSucceeded ==> unchanged(stepUpPayload)
      ensures r.StepUpCall? ==>
        && r.path == stepupPath
        && r.body == StepUpBodyFor(username, passcode, tokens.refreshToken)
        && r.headers == StepUpHeaders(old(stepUpPayload.transactionId))
        && "X-TransactionId" in r.headers
        && r.replay == (if postSucceeded then old(stepUpPayload.config) else None)
        && (postSucceeded ==> r.replay.Some? && stepUpPayload.IsEmpty())
    {
      if stepUpPayload.config.None? && !TruthyScalar(stepUpPayload.transactionId) {
        return NoChallenge;
      }
      var body := StepUpBodyFor(username, passcode, tokens.refreshToken);
      var callHeaders := StepUpHeaders(stepUpPayload.transactionId);
      var replay := None;
      if postSucceeded {
        replay := stepUpPayload.config;
        stepUpPayload.config := None;
        stepUpPayload.transactionId := None;
        stepUpPayload.authenticationMethods := None;
      }
      r := StepUpCall(stepupPath, body, callHeaders, replay);
    }

    /** `updateHeaders(update)`: the same merge-then-drop-undefined rule on the
        main and on the refresh channel's common headers. */
    method UpdateHeaders(update: HeaderMap)
      modifies this
      ensures headers == Updated(old(headers), update)
      ensures refreshHeaders == Updated(old(refreshHeaders), update)
    {
      var instanceHeaders := DropUndefined(Merged(headers, update));
      headers := instanceHeaders;
      var refreshed := DropUndefined(Merged(refreshHeaders, update));
      refreshHeaders := refreshed;
    }

    /** `getApiHeaders()`: `X-ApiKey` when the API key is truthy and
        `Authorization: Bearer <token>` when the stored access token is truthy. */
    function GetApiHeaders(): (h: HeaderMap)
      reads this, tokens
      ensures "X-ApiKey" in h <==> Truthy(apiKey)
      ensures "Authorization" in h <==> Truthy(tokens.accessToken)
      ensures "X-ApiKey" in h ==> h["X-ApiKey"] == apiKey
      ensures "Authorization" in h ==> h["Authorization"] == Some("Bearer " + tokens.accessToken.value)
      ensures forall k :: k in h ==> k == "X-ApiKey" || k == "Authorization"
    {
      var withKey: HeaderMap := if Truthy(apiKey) then map["X-ApiKey" := apiKey] else map[];
      if Truthy(tokens.accessToken) then withKey["Authorization" := Some("Bearer " + tokens.accessToken.value)]
      else withKey
    }
  }
}
