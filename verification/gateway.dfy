/** The payment-gateway client: CampayService's token cache and 401 handling, the retry
    policy configured in WebClientConfig, and the translation of failures into
    user-facing messages. HTTP exchanges are answered by oracles indexed by the number of
    exchanges made so far; the clock is one reading per call. */
module Gateway {
  import opened Wrappers
  import opened Text
  import opened Sanitizers

  // ---- failures ----

  /** The cause carried by a WebClientRequestException. `ConnectCause` is a
      java.net.ConnectException, which is a subclass of java.net.SocketException. */
  datatype Cause = SocketCause | ConnectCause | TimeoutCause | OtherCause

  /** The throwables the client can see. */
  datatype Failure =
    | RequestFailure(cause: Cause)          // WebClientRequestException
    | ResponseFailure(status: int, body: string)  // WebClientResponseException
    | SocketFailure                         // a bare SocketException
    | ConnectFailure                        // a bare ConnectException
    | TimeoutFailure                        // TimeoutException, e.g. from `.timeout(...)`
    | PrematureClose                        // reactor-netty PrematureCloseException
    | Exhausted(attempts: nat, last: Failure)  // the exception built when retries run out
    | Plain(message: string)                // any other RuntimeException

  /** `instanceof java.net.SocketException` of a request exception's cause. */
  predicate IsSocketCause(c: Cause) {
    c == SocketCause || c == ConnectCause
  }

  /** `isRetryableException`. */
  predicate IsRetryable(f: Failure) {
    match f
    case SocketFailure => true
    case ConnectFailure => true
    case TimeoutFailure => true
    case PrematureClose => true
    case ResponseFailure(status, _) => status >= 500 || status == 408 || status == 429
    case RequestFailure(_) => true
    case Exhausted(_, _) => false
    case Plain(_) => false
  }

  /** Which failures are retried, stated by kind: every transport failure, and an HTTP
      error exactly when its status is a server error, 408 or 429. */
  lemma RetryableCases(f: Failure)
    ensures f.ResponseFailure? ==> (IsRetryable(f) <==> f.status >= 500 || f.status == 408 || f.status == 429)
    ensures f.ResponseFailure? && f.status in {400, 401, 403, 404} ==> !IsRetryable(f)
    ensures f.RequestFailure? || f.SocketFailure? || f.ConnectFailure? || f.TimeoutFailure? || f.PrematureClose? ==>
              IsRetryable(f)
    ensures f.Exhausted? || f.Plain? ==> !IsRetryable(f)
  {
  }

  const NetworkConnectionMessage := "Network connection error with Campay API. Please try again."
  const UnableToConnectMessage := "Unable to connect to Campay API. " + "Service may be unavailable."
  const TimedOutMessage := "Request to Campay API timed out. Please try again."
  const NetworkErrorMessage := "Network error occurred while communicating with Campay API."
  const UnavailableMessage := "Campay API service is temporarily unavailable"
  const GenericMessage := "Unexpected error occurred while communicating with Campay API"

  /** `mapCampayError`: the message of the RuntimeException that replaces a failure. */
  function MapCampayError(f: Failure): (m: string)
    ensures f.RequestFailure? ==>
              m in {NetworkConnectionMessage, UnableToConnectMessage, TimedOutMessage, NetworkErrorMessage}
    ensures !f.RequestFailure? && !f.ResponseFailure? ==> m == GenericMessage
    ensures f.ResponseFailure? && f.status in {502, 503, 504} ==> m == UnavailableMessage
    ensures f == RequestFailure(SocketCause) || f == RequestFailure(ConnectCause) ==> m == NetworkConnectionMessage
    ensures f == RequestFailure(TimeoutCause) ==> m == TimedOutMessage
    ensures f == RequestFailure(OtherCause) ==> m == NetworkErrorMessage
    ensures f.ResponseFailure? ==> m == ResponseMessage(f.status, f.body)
  {
    match f
    case RequestFailure(c) =>
      if IsSocketCause(c) then NetworkConnectionMessage
      else if c == ConnectCause then UnableToConnectMessage
      else if c == TimeoutCause then TimedOutMessage
      else NetworkErrorMessage
    case ResponseFailure(status, body) => ResponseMessage(status, body)
    case _ => GenericMessage
  }

  /** The switch on the HTTP status of a WebClientResponseException. */
  function ResponseMessage(status: int, body: string): (m: string)
    ensures status in {502, 503, 504} ==> m == UnavailableMessage
    ensures status == 400 ==> m == "Invalid request to Campay API: " + body
    ensures status == 401 ==> m == "Authentication failed with Campay API"
    ensures status == 403 ==> m == "Access denied by Campay API"
    ensures status == 404 ==> m == "Requested resource not found on Campay API"
    ensures status == 429 ==> m == "Too many requests to Campay API. Please try again later."
    ensures status == 500 ==> m == "Internal server error at Campay API"
    ensures status !in {400, 401, 403, 404, 429, 500, 502, 503, 504} ==>
              m == "Unexpected error from Campay API (Status: " + IntText(status) + ")"
  {
    if status == 400 then "Invalid request to Campay API: " + body
    else if status == 401 then "Authentication failed with Campay API"
    else if status == 403 then "Access denied by Campay API"
    else if status == 404 then "Requested resource not found on Campay API"
    else if status == 429 then "Too many requests to Campay API. Please try again later."
    else if status == 500 then "Internal server error at Campay API"
    else if status == 502 || status == 503 || status == 504 then UnavailableMessage
    else "Unexpected error from Campay API (Status: " + IntText(status) + ")"
  }

  /** Because ConnectException is a SocketException, the "Unable to connect" text is never
      produced: a refused connection reads as a generic connection error. */
  lemma ConnectMessageUnreachable(f: Failure)
    ensures MapCampayError(f) != UnableToConnectMessage
    ensures MapCampayError(RequestFailure(ConnectCause)) == NetworkConnectionMessage
  {
    match f
    case RequestFailure(c) => RequestMessageNotUnable(c);
    case ResponseFailure(status, body) => ResponseMessageNotUnable(status, body);
    case _ => GenericNotUnable();
  }

  lemma RequestMessageNotUnable(c: Cause)
    ensures MapCampayError(RequestFailure(c)) != UnableToConnectMessage
  {
    assert UnableToConnectMessage[0] == 'U';
  }

  lemma ResponseMessageNotUnable(status: int, body: string)
    ensures ResponseMessage(status, body) != UnableToConnectMessage
  {
    var m := ResponseMessage(status, body);
    var u := UnableToConnectMessage;
    if status == 400 {
      var a := "Invalid request to Campay API: ";
      assert m[0] == a[0] == 'I' && u[0] == 'U';
    } else if status == 429 {
      assert m[|m| - 2] == 'r' && u[|u| - 2] == 'e';
    } else if status in {401, 403, 404, 500, 502, 503, 504} {
      FixedTextsNotUnable();
    } else {
      assert m[|m| - 1] == ')' && u[|u| - 1] == '.';
    }
  }

  lemma FixedTextsNotUnable()
    ensures "Authentication failed with Campay API" != UnableToConnectMessage
    ensures "Access denied by Campay API" != UnableToConnectMessage
    ensures "Requested resource not found on Campay API" != UnableToConnectMessage
    ensures "Internal server error at Campay API" != UnableToConnectMessage
    ensures UnavailableMessage != UnableToConnectMessage
  {
  }

  lemma GenericNotUnable()
    ensures GenericMessage != UnableToConnectMessage
  {
    assert GenericMessage[|GenericMessage| - 1] == 'I';
    assert UnableToConnectMessage[|UnableToConnectMessage| - 1] == '.';
  }

  /** Each HTTP status the client distinguishes gets its own text: the texts for 401, 403,
      404, 429, 500 and the 502-504 group are pairwise different. */
  lemma StatusMessagesDistinct(body: string, a: int, b: int)
    requires a in {401, 403, 404, 429, 500, 502} && b in {401, 403, 404, 429, 500, 502}
    requires ResponseMessage(a, body) == ResponseMessage(b, body)
    ensures a == b
  {
  }

  /** `onRetryExhaustedThrow`. */
  function ExhaustedMessage(n: nat): string {
    "Campay API call failed after " + Decimal(n) + " attempts"
  }

  // ---- configuration and state ----

  /** `campay.token-refresh-threshold` (ms) and `campay.max-retry-attempts`. */
  datatype Config = Config(threshold: int, maxRetries: nat)

  const DefaultConfig := Config(300000, 3)

  /** Nominal delay before retry `i` (0-based): 1 s doubling, capped at 10 s. The random
      jitter of up to half the delay is not modelled. */
  function BackoffMillis(i: nat): (d: nat)
    ensures 1000 <= d <= 10000
  {
    assert Pow2(0) == 1 && Pow2(1) == 2 && Pow2(2) == 4 && Pow2(3) == 8;
    if i >= 4 then 10000 else Pow2(i) * 1000
  }

  function Pow2(i: nat): (p: nat)
    ensures p >= 1
  {
    if i == 0 then 1 else 2 * Pow2(i - 1)
  }

  /** The nominal backoff never shrinks and sits at the cap from the fifth retry on. */
  lemma {:induction false} BackoffMonotone(i: nat, j: nat)
    requires i <= j
    ensures BackoffMillis(i) <= BackoffMillis(j)
    ensures j >= 4 ==> BackoffMillis(j) == 10000
    decreases j - i
  {
    if i < j {
      BackoffMonotone(i + 1, j);
      if i < 4 && i + 1 < 4 {
        assert Pow2(i + 1) == 2 * Pow2(i);
      }
    }
  }

  /** `cachedToken` and `tokenTimestamp`. */
  datatype TokenCache = TokenCache(token: Option<string>, issuedAt: int)

  const EmptyCache := TokenCache(None, 0)

  /** The token is used without an auth call. */
  predicate IsFresh(c: TokenCache, now: int, cfg: Config) {
    c.token.Some? && now - c.issuedAt < cfg.threshold
  }

  /** A gateway call: collect, withdraw (disburse) or status query. The whole request
      object is kept so that a resend can be compared with the original. */
  datatype Call =
    | CollectCall(amount: string, phone: string, description: string, externalReference: string)
    | DisburseCall(request: DisburseRequest)
    | StatusCall(reference: string)

  /** One request put on the wire, with the token in its Authorization header. */
  datatype Sent = Sent(call: Call, token: string)

  /** The gateway's JSON reply; null fields are `None`. */
  datatype GatewayResponse = GatewayResponse(reference: Option<string>, status: Option<string>)

  /** Client state: the cache, how many auth and API exchanges happened, and the log of
      API requests sent. */
  datatype Client = Client(cache: TokenCache, authCalls: nat, apiCalls: nat, sent: seq<Sent>)

  /** `auth(i)` answers the i-th token request, `api(i)` the i-th API request. */
  datatype Oracle = Oracle(auth: nat -> Result<string, Failure>, api: nat -> Result<GatewayResponse, Failure>)

  /** The wire never answers with the exception the retry policy itself builds. */
  ghost predicate WireOracle(o: Oracle) {
    forall i :: o.api(i).Err? ==> !o.api(i).error.Exhausted?
  }

  datatype Step<T> = Step(client: Client, result: Result<T, Failure>)

  // ---- token handling ----

  /** The `/token/` exchange under `retryWhen(campayRetrySpec)`: `k` retries are done. */
  function AuthWithRetry(cl: Client, o: Oracle, cfg: Config, k: nat): (r: Step<string>)
    requires k <= cfg.maxRetries
    ensures cl.authCalls < r.client.authCalls <= cl.authCalls + cfg.maxRetries + 1 - k
    ensures r.client == cl.(authCalls := r.client.authCalls)
    ensures r.result.Err? ==>
              (!IsRetryable(r.result.error) ||
               (r.result.error.Exhausted? && r.result.error.attempts == cfg.maxRetries))
    decreases cfg.maxRetries - k
  {
    var reply := o.auth(cl.authCalls);
    var cl1 := cl.(authCalls := cl.authCalls + 1);
    match reply
    case Ok(t) => Step(cl1, Ok(t))
    case Err(f) =>
      if !IsRetryable(f) then Step(cl1, Err(f))
      else if k < cfg.maxRetries then AuthWithRetry(cl1, o, cfg, k + 1)
      else Step(cl1, Err(Exhausted(cfg.maxRetries, f)))
  }

  /** What `getAccessToken()` decides when it is called, before anything subscribes: either
      the Mono of the cached token, or the Mono that fetches one. Re-subscribing to the
      returned Mono replays that decision; it does not read the cache again. */
  datatype TokenSource = Cached(token: string) | Fetch

  function TokenSourceAt(cl: Client, cfg: Config, now: int): (src: TokenSource)
    ensures src.Cached? <==> IsFresh(cl.cache, now, cfg)
    ensures src.Cached? ==> src.token == cl.cache.token.value
  {
    if IsFresh(cl.cache, now, cfg) then Cached(cl.cache.token.value) else Fetch
  }

  /** One subscription to the Mono `getAccessToken()` returned. The fetching Mono asks for a
      token (with its own retries); success caches it with the current time, failure empties
      the cache and surfaces as the mapped RuntimeException. */
  function SubscribeToken(cl: Client, o: Oracle, cfg: Config, now: int, src: TokenSource): (r: Step<string>)
    ensures src.Cached? ==> r == Step(cl, Ok(src.token))
    ensures src.Fetch? ==> r.client.authCalls > cl.authCalls
    ensures r.client.apiCalls == cl.apiCalls && r.client.sent == cl.sent
    ensures src.Fetch? && r.result.Ok? ==> r.client.cache == TokenCache(Some(r.result.value), now)
    ensures r.result.Err? ==> src.Fetch? && r.client.cache == EmptyCache && r.result.error.Plain?
  {
    match src
    case Cached(t) => Step(cl, Ok(t))
    case Fetch =>
      var a := AuthWithRetry(cl, o, cfg, 0);
      match a.result
      case Ok(t) => Step(a.client.(cache := TokenCache(Some(t), now)), Ok(t))
      case Err(f) => Step(a.client.(cache := EmptyCache), Err(Plain(MapCampayError(f))))
  }

  /** `getAccessToken` subscribed once. A fresh cached token is returned as is; otherwise
      the token is fetched, and cached on success. */
  function GetAccessToken(cl: Client, o: Oracle, cfg: Config, now: int): (r: Step<string>)
    ensures IsFresh(cl.cache, now, cfg) ==> r == Step(cl, Ok(cl.cache.token.value))
    ensures !IsFresh(cl.cache, now, cfg) ==> r.client.authCalls > cl.authCalls
    ensures r.client.apiCalls == cl.apiCalls && r.client.sent == cl.sent
    ensures !IsFresh(cl.cache, now, cfg) && r.result.Ok? ==> r.client.cache == TokenCache(Some(r.result.value), now)
    ensures r.result.Err? ==> r.client.cache == EmptyCache && r.result.error.Plain?
  {
    SubscribeToken(cl, o, cfg, now, TokenSourceAt(cl, cfg, now))
  }

  /** A failed token fetch leaves a cache that forces a fetch on the next call, however
      little time has passed (for a positive threshold, unless the clock reads below it). */
  lemma FailedAuthForcesRefetch(cl: Client, o: Oracle, cfg: Config, now: int, later: int)
    requires GetAccessToken(cl, o, cfg, now).result.Err?
    ensures var c2 := GetAccessToken(cl, o, cfg, now).client;
            GetAccessToken(c2, o, cfg, later).client.authCalls > c2.authCalls
  {
  }

  /** A successful fetch is reused without another exchange while it is younger than the
      threshold. */
  lemma FetchedTokenReused(cl: Client, o: Oracle, cfg: Config, now: int, later: int)
    requires !IsFresh(cl.cache, now, cfg) && GetAccessToken(cl, o, cfg, now).result.Ok?
    requires now <= later < now + cfg.threshold
    ensures var s1 := GetAccessToken(cl, o, cfg, now);
            GetAccessToken(s1.client, o, cfg, later) == Step(s1.client, s1.result)
  {
  }

  /** `refreshToken`: the cache is emptied first, so a fetch always happens. */
  function RefreshToken(cl: Client, o: Oracle, cfg: Config, now: int): (r: Step<string>)
    ensures r.client.authCalls > cl.authCalls
    ensures r.client.apiCalls == cl.apiCalls && r.client.sent == cl.sent
    ensures r.result.Err? ==> r.result.error.Plain?
  {
    GetAccessToken(cl.(cache := EmptyCache), o, cfg, now)
  }

  // ---- requests ----

  /** An answer the `onStatus(401)` handler takes over. */
  predicate IsUnauthorized(a: Result<GatewayResponse, Failure>) {
    a.Err? && a.error.ResponseFailure? && a.error.status == 401
  }

  /** Puts one request on the wire and takes the oracle's answer. */
  function Exchange(cl: Client, o: Oracle, call: Call, token: string): (r: Step<GatewayResponse>)
    ensures r.client == cl.(apiCalls := cl.apiCalls + 1, sent := cl.sent + [Sent(call, token)])
    ensures r.result == o.api(cl.apiCalls)
  {
    Step(cl.(apiCalls := cl.apiCalls + 1, sent := cl.sent + [Sent(call, token)]), o.api(cl.apiCalls))
  }

  /** `make*Request`: on HTTP 401 the token is refreshed and the same request is sent once
      more (`refreshTokenAndRetry*`), with no 401 handling on that second try. Every other
      failure is passed on unchanged. */
  function SendWithRefresh(cl: Client, o: Oracle, cfg: Config, now: int, call: Call, token: string)
    : (r: Step<GatewayResponse>)
    ensures |cl.sent| < |r.client.sent| <= |cl.sent| + 2
    ensures r.client.sent[..|cl.sent|] == cl.sent
    ensures forall i :: |cl.sent| <= i < |r.client.sent| ==> r.client.sent[i].call == call
    ensures r.client.sent[|cl.sent|].token == token
    ensures r.client.apiCalls > cl.apiCalls
    ensures r.result.Ok? || !r.result.error.Plain? ==> r.result == o.api(r.client.apiCalls - 1)
    ensures !IsUnauthorized(o.api(cl.apiCalls)) ==>
              r.result == o.api(cl.apiCalls) && r.client.apiCalls == cl.apiCalls + 1 &&
              |r.client.sent| == |cl.sent| + 1
  {
    var s1 := Exchange(cl, o, call, token);
    match s1.result
    case Err(ResponseFailure(401, _)) =>
      var t := RefreshToken(s1.client, o, cfg, now);
      (match t.result
       case Err(f) => Step(t.client, Err(f))
       case Ok(renewed) => Exchange(t.client, o, call, renewed))
    case _ => s1
  }

  /** After a 401 the resend carries the same request object under the newly fetched token,
      and a second 401 is not handled again. */
  lemma UnauthorizedResendsOnce(cl: Client, o: Oracle, cfg: Config, now: int, call: Call, token: string)
    requires o.api(cl.apiCalls).Err? && o.api(cl.apiCalls).error.ResponseFailure?
    requires o.api(cl.apiCalls).error.status == 401
    requires var s1 := Exchange(cl, o, call, token).client;
             RefreshToken(s1, o, cfg, now).result.Ok?
    ensures var r := SendWithRefresh(cl, o, cfg, now, call, token);
            var s1 := Exchange(cl, o, call, token).client;
            var t := RefreshToken(s1, o, cfg, now);
            && |r.client.sent| == |cl.sent| + 2
            && r.client.sent[|cl.sent| + 1] == Sent(call, t.result.value)
            && r.result == o.api(t.client.apiCalls)
  {
  }

  /** The outcome of the retried chain: the client afterwards, the last attempt's result,
      the number of attempts (subscriptions), and the first request each attempt put on
      the wire, in order. */
  datatype CallRun = CallRun(client: Client, result: Result<GatewayResponse, Failure>, attempts: nat,
                             openers: seq<Sent>)

  /** One subscription to `getAccessToken().flatMap(make*Request)` as assembled from `src`:
      the token Mono is subscribed, then the request is sent. Only this request is put on
      the wire, and a token failure arrives already mapped. */
  function TryOnce(cl: Client, o: Oracle, cfg: Config, now: int, call: Call, src: TokenSource)
    : (r: Step<GatewayResponse>)
    requires WireOracle(o)
    ensures |cl.sent| <= |r.client.sent| && r.client.sent[..|cl.sent|] == cl.sent
    ensures forall i :: |cl.sent| <= i < |r.client.sent| ==> r.client.sent[i].call == call
    ensures src.Cached? ==> |r.client.sent| > |cl.sent| && r.client.sent[|cl.sent|] == Sent(call, src.token)
    ensures src.Fetch? ==> r.client.authCalls > cl.authCalls
    ensures r.client.authCalls >= cl.authCalls
    ensures r.result.Err? ==> !r.result.error.Exhausted?
    ensures r.client.apiCalls >= cl.apiCalls
    ensures r.result.Ok? || !r.result.error.Plain? ==>
              r.client.apiCalls > cl.apiCalls && r.result == o.api(r.client.apiCalls - 1)
    ensures src.Cached? && !IsUnauthorized(o.api(cl.apiCalls)) ==>
              r.result == o.api(cl.apiCalls) && r.client.apiCalls == cl.apiCalls + 1
  {
    var t := SubscribeToken(cl, o, cfg, now, src);
    match t.result
    case Err(f) => Step(t.client, Err(f))
    case Ok(token) => SendWithRefresh(t.client, o, cfg, now, call, token)
  }

  /** The first request an attempt put on the wire, if it got that far. */
  function Opener(before: Client, after: Client): seq<Sent> {
    if |after.sent| > |before.sent| then [after.sent[|before.sent|]] else []
  }

  /** The call chain `getAccessToken().flatMap(make*Request).retryWhen(campayRetrySpec)`:
      every attempt re-subscribes the chain assembled from `src`, so a cached token is
      replayed on every attempt (even after a 401 refresh has cached a newer one), and the
      fetching chain fetches on every attempt. `k` retries are done. */
  function CallWithRetry(cl: Client, o: Oracle, cfg: Config, now: int, call: Call, src: TokenSource, k: nat)
    : (r: CallRun)
    requires k <= cfg.maxRetries
    requires WireOracle(o)
    ensures 1 <= r.attempts <= cfg.maxRetries + 1 - k
    ensures |cl.sent| <= |r.client.sent| && r.client.sent[..|cl.sent|] == cl.sent
    ensures forall i :: |cl.sent| <= i < |r.client.sent| ==> r.client.sent[i].call == call
    ensures src.Cached? ==> |r.openers| == r.attempts
    ensures src.Cached? ==> forall i :: 0 <= i < |r.openers| ==> r.openers[i] == Sent(call, src.token)
    ensures src.Fetch? ==> r.client.authCalls >= cl.authCalls + r.attempts
    ensures r.result.Err? && !r.result.error.Exhausted? ==> !IsRetryable(r.result.error)
    ensures r.result.Err? && r.result.error.Exhausted? ==>
              && r.result.error.attempts == cfg.maxRetries
              && IsRetryable(r.result.error.last)
              && r.attempts == cfg.maxRetries + 1 - k
    ensures r.client.apiCalls >= cl.apiCalls
    ensures var first := TryOnce(cl, o, cfg, now, call, src);
            first.result.Ok? || !IsRetryable(first.result.error) ==>
              r.attempts == 1 && r.client == first.client && r.result == first.result
    ensures var first := TryOnce(cl, o, cfg, now, call, src);
            r.attempts > 1 ==> first.result.Err? && IsRetryable(first.result.error)
    decreases cfg.maxRetries - k
  {
    var step := TryOnce(cl, o, cfg, now, call, src);
    var first := Opener(cl, step.client);
    match step.result
    case Ok(resp) => CallRun(step.client, Ok(resp), 1, first)
    case Err(f) =>
      if !IsRetryable(f) then CallRun(step.client, Err(f), 1, first)
      else if k < cfg.maxRetries then
        var rest := CallWithRetry(step.client, o, cfg, now, call, src, k + 1);
        LogExtends(cl.sent, step.client.sent, rest.client.sent, call);
        CallRun(rest.client, rest.result, rest.attempts + 1, first + rest.openers)
      else CallRun(step.client, Err(Exhausted(cfg.maxRetries, f)), 1, first)
  }

  /** `res`, reached from `before` in `after`, is an answer from the wire: a success, and
      every failure other than a token failure or the exhaustion, is the oracle's last API
      answer, and the exhaustion wraps that last answer. */
  predicate EndsOnWire(before: Client, o: Oracle, after: Client, res: Result<GatewayResponse, Failure>) {
    && ((res.Ok? || !(res.error.Plain? || res.error.Exhausted?)) ==>
          after.apiCalls > before.apiCalls && res == o.api(after.apiCalls - 1))
    && (res.Err? && res.error.Exhausted? ==>
          after.apiCalls > before.apiCalls && o.api(after.apiCalls - 1) == Err(res.error.last))
  }

  lemma EndsOnWireEarlier(a: Client, b: Client, o: Oracle, after: Client, res: Result<GatewayResponse, Failure>)
    requires a.apiCalls <= b.apiCalls && EndsOnWire(b, o, after, res)
    ensures EndsOnWire(a, o, after, res)
  {
  }

  /** The retried chain ends on an answer from the wire. */
  lemma {:induction false} RetryEndsOnWireAnswer(cl: Client, o: Oracle, cfg: Config, now: int, call: Call,
                                                  src: TokenSource, k: nat)
    requires k <= cfg.maxRetries
    requires WireOracle(o)
    ensures var r := CallWithRetry(cl, o, cfg, now, call, src, k); EndsOnWire(cl, o, r.client, r.result)
    decreases cfg.maxRetries - k, 1
  {
    var step := TryOnce(cl, o, cfg, now, call, src);
    if step.result.Err? && IsRetryable(step.result.error) && k < cfg.maxRetries {
      RetriedEndsOnWire(cl, o, cfg, now, call, src, k);
    } else {
      LastAttemptEndsOnWire(cl, o, cfg, now, call, src, k);
    }
  }

  /** The inductive step: a retried attempt leaves the wire answer to the rest of the chain. */
  lemma {:induction false} RetriedEndsOnWire(cl: Client, o: Oracle, cfg: Config, now: int, call: Call,
                                              src: TokenSource, k: nat)
    requires k < cfg.maxRetries
    requires WireOracle(o)
    requires var step := TryOnce(cl, o, cfg, now, call, src); step.result.Err? && IsRetryable(step.result.error)
    ensures var r := CallWithRetry(cl, o, cfg, now, call, src, k); EndsOnWire(cl, o, r.client, r.result)
    decreases cfg.maxRetries - k, 0
  {
    var step := TryOnce(cl, o, cfg, now, call, src);
    var rest := CallWithRetry(step.client, o, cfg, now, call, src, k + 1);
    RetryContinues(cl, o, cfg, now, call, src, k);
    RetryEndsOnWireAnswer(step.client, o, cfg, now, call, src, k + 1);
    EndsOnWireEarlier(cl, step.client, o, rest.client, rest.result);
  }

  /** After a retryable failure with retries left, the chain's outcome is that of the rest. */
  lemma RetryContinues(cl: Client, o: Oracle, cfg: Config, now: int, call: Call, src: TokenSource, k: nat)
    requires k < cfg.maxRetries
    requires WireOracle(o)
    requires var step := TryOnce(cl, o, cfg, now, call, src); step.result.Err? && IsRetryable(step.result.error)
    ensures var step := TryOnce(cl, o, cfg, now, call, src);
            var r := CallWithRetry(cl, o, cfg, now, call, src, k);
            var rest := CallWithRetry(step.client, o, cfg, now, call, src, k + 1);
            r.client == rest.client && r.result == rest.result
  {
  }

  /** An attempt after which the chain stops ends on an answer from the wire. */
  lemma LastAttemptEndsOnWire(cl: Client, o: Oracle, cfg: Config, now: int, call: Call,
                              src: TokenSource, k: nat)
    requires k <= cfg.maxRetries
    requires WireOracle(o)
    requires var step := TryOnce(cl, o, cfg, now, call, src);
             !(step.result.Err? && IsRetryable(step.result.error) && k < cfg.maxRetries)
    ensures var r := CallWithRetry(cl, o, cfg, now, call, src, k); EndsOnWire(cl, o, r.client, r.result)
  {
    var step := TryOnce(cl, o, cfg, now, call, src);
    if step.result.Err? && IsRetryable(step.result.error) {
      var r := CallWithRetry(cl, o, cfg, now, call, src, k);
      assert r.client == step.client && r.result == Err(Exhausted(cfg.maxRetries, step.result.error));
      assert o.api(r.client.apiCalls - 1) == step.result;
    } else {
      StopEndsOnWire(cl, o, cfg, now, call, src, k);
    }
  }

  /** An attempt that succeeds, or fails in a way that is not retried, is the chain's result. */
  lemma StopEndsOnWire(cl: Client, o: Oracle, cfg: Config, now: int, call: Call, src: TokenSource, k: nat)
    requires k <= cfg.maxRetries
    requires WireOracle(o)
    requires var step := TryOnce(cl, o, cfg, now, call, src); !(step.result.Err? && IsRetryable(step.result.error))
    ensures var r := CallWithRetry(cl, o, cfg, now, call, src, k); EndsOnWire(cl, o, r.client, r.result)
  {
    var r := CallWithRetry(cl, o, cfg, now, call, src, k);
    var step := TryOnce(cl, o, cfg, now, call, src);
    assert r.client == step.client && r.result == step.result;
  }

  /** Two stretches of the request log, each adding only requests for `call`, add up. */
  lemma LogExtends(a: seq<Sent>, b: seq<Sent>, c: seq<Sent>, call: Call)
    requires |a| <= |b| && b[..|a|] == a && forall i :: |a| <= i < |b| ==> b[i].call == call
    requires |b| <= |c| && c[..|b|] == b && forall i :: |b| <= i < |c| ==> c[i].call == call
    ensures |a| <= |c| && c[..|a|] == a && forall i :: |a| <= i < |c| ==> c[i].call == call
  {
    assert forall i :: |a| <= i < |b| ==> c[i] == b[i];
  }

  /** `collect`, `disburse` and `getTransactionStatus`: the chain is assembled once from the
      cache as it stands, retried, and its final failure mapped to a message. */
  function GatewayCall(cl: Client, o: Oracle, cfg: Config, now: int, call: Call): (r: (Client, Result<GatewayResponse, string>))
    requires WireOracle(o)
    ensures var run := CallWithRetry(cl, o, cfg, now, call, TokenSourceAt(cl, cfg, now), 0);
            && r.0 == run.client
            && (r.1.Ok? <==> run.result.Ok?)
            && (run.result.Ok? ==> r.1 == Ok(run.result.value))
            && (run.result.Err? ==> r.1 == Err(MapCampayError(run.result.error)))
    ensures var run := CallWithRetry(cl, o, cfg, now, call, TokenSourceAt(cl, cfg, now), 0);
            IsFresh(cl.cache, now, cfg) ==>
              forall i :: 0 <= i < |run.openers| ==> run.openers[i] == Sent(call, cl.cache.token.value)
    ensures var run := CallWithRetry(cl, o, cfg, now, call, TokenSourceAt(cl, cfg, now), 0);
            !IsFresh(cl.cache, now, cfg) ==> r.0.authCalls >= cl.authCalls + run.attempts
    ensures var run := CallWithRetry(cl, o, cfg, now, call, TokenSourceAt(cl, cfg, now), 0);
            EndsOnWire(cl, o, r.0, run.result)
  {
    var run := CallWithRetry(cl, o, cfg, now, call, TokenSourceAt(cl, cfg, now), 0);
    RetryEndsOnWireAnswer(cl, o, cfg, now, call, TokenSourceAt(cl, cfg, now), 0);
    match run.result
    case Ok(resp) => (run.client, Ok(resp))
    case Err(f) => (run.client, Err(MapCampayError(f)))
  }

  /** A successful call hands back the last reply the gateway sent. */
  lemma GatewayReplyFromWire(cl: Client, o: Oracle, cfg: Config, now: int, call: Call)
    requires WireOracle(o)
    ensures var r := GatewayCall(cl, o, cfg, now, call);
            r.1.Ok? ==> r.0.apiCalls > cl.apiCalls && o.api(r.0.apiCalls - 1) == Ok(r.1.value)
  {
    var r := GatewayCall(cl, o, cfg, now, call);
    var run := CallWithRetry(cl, o, cfg, now, call, TokenSourceAt(cl, cfg, now), 0);
    assert EndsOnWire(cl, o, r.0, run.result);
  }

  /** When every attempt fails in a retryable way, the caller never sees the "failed after
      N attempts" text: the exhaustion exception is a plain RuntimeException, which the
      error mapping turns into the generic message. */
  lemma ExhaustionReadsGeneric(cl: Client, o: Oracle, cfg: Config, now: int, call: Call)
    requires WireOracle(o)
    requires var run := CallWithRetry(cl, o, cfg, now, call, TokenSourceAt(cl, cfg, now), 0);
             run.result.Err? && run.result.error.Exhausted?
    ensures GatewayCall(cl, o, cfg, now, call).1 == Err(GenericMessage)
    ensures GatewayCall(cl, o, cfg, now, call).1 != Err(ExhaustedMessage(cfg.maxRetries))
    ensures CallWithRetry(cl, o, cfg, now, call, TokenSourceAt(cl, cfg, now), 0).attempts == cfg.maxRetries + 1
  {
    var e := ExhaustedMessage(cfg.maxRetries);
    assert e[|e| - 1] == 's';
    assert GenericMessage[|GenericMessage| - 1] == 'I';
  }

  /** A token that cannot be fetched stops the call at once: the mapped auth failure is a
      plain RuntimeException, which the outer retry does not retry. */
  lemma AuthFailureNotRetried(cl: Client, o: Oracle, cfg: Config, now: int, call: Call)
    requires WireOracle(o)
    requires GetAccessToken(cl, o, cfg, now).result.Err?
    ensures CallWithRetry(cl, o, cfg, now, call, TokenSourceAt(cl, cfg, now), 0).attempts == 1
    ensures GatewayCall(cl, o, cfg, now, call).1 == Err(GenericMessage)
  {
  }

  /** With a fresh cache, a 401 on the first attempt refreshes the cache, yet when the resend
      fails retryably the second attempt opens with the old token again: the retry replays
      the `Mono.just` of the token read at assembly. */
  lemma RetryReplaysAssembledToken(cl: Client, o: Oracle, cfg: Config, now: int, call: Call)
    requires WireOracle(o) && cfg.maxRetries >= 1 && IsFresh(cl.cache, now, cfg)
    requires o.api(cl.apiCalls).Err? && o.api(cl.apiCalls).error.ResponseFailure?
    requires o.api(cl.apiCalls).error.status == 401
    requires o.auth(cl.authCalls).Ok?
    requires o.api(cl.apiCalls + 1).Err? && o.api(cl.apiCalls + 1).error.ResponseFailure?
    requires o.api(cl.apiCalls + 1).error.status == 503
    ensures var run := CallWithRetry(cl, o, cfg, now, call, TokenSourceAt(cl, cfg, now), 0);
            && run.client.sent[|cl.sent| + 1] == Sent(call, o.auth(cl.authCalls).value)
            && |run.openers| >= 2 && run.openers[1] == Sent(call, cl.cache.token.value)
  {
    var src := TokenSourceAt(cl, cfg, now);
    var step := TryOnce(cl, o, cfg, now, call, src);
    assert step.result.Err? && IsRetryable(step.result.error);
    var rest := CallWithRetry(step.client, o, cfg, now, call, src, 1);
    assert |rest.openers| >= 1;
  }

  /** With a stale cache, every attempt fetches a token, even after the first attempt has
      cached one that is still fresh. */
  lemma RetryRefetchesEachAttempt(cl: Client, o: Oracle, cfg: Config, now: int, call: Call)
    requires WireOracle(o) && cfg.maxRetries >= 1 && cfg.threshold > 0 && !IsFresh(cl.cache, now, cfg)
    requires o.auth(cl.authCalls).Ok? && o.auth(cl.authCalls + 1).Ok?
    requires o.api(cl.apiCalls).Err? && o.api(cl.apiCalls).error.ResponseFailure?
    requires o.api(cl.apiCalls).error.status == 503
    ensures var src := TokenSourceAt(cl, cfg, now);
            var first := TryOnce(cl, o, cfg, now, call, src).client;
            IsFresh(first.cache, now, cfg) &&
            CallWithRetry(cl, o, cfg, now, call, src, 0).client.authCalls >= cl.authCalls + 2
  {
  }
}
