/** The HTTP client (apps/sim/lib/api/axiosClient.ts): its defaults, the request
    interceptor that writes the bearer token into the outgoing configuration, and one
    call through both interceptors, where a resubmission from the response
    interceptor goes through the same client again. */
module AxiosClient {
  import opened Js
  import opened ErrorHandlers
  import opened Service
  import opened AuthHandlers
  import opened Interceptors

  const TIMEOUT_MS := 30000
  const CONTENT_TYPE := "Content-Type"
  const APPLICATION_JSON := "application/json"

  /** The handlers registered on a client. */
  datatype Interceptor = TokenInjection | ResponseHandling

  class Client {
    const baseURL: string
    const timeout: int
    const headers: map<string, string>
    var requestInterceptors: seq<Interceptor>
    var responseInterceptors: seq<Interceptor>

    constructor (baseURL: string, timeout: int, headers: map<string, string>)
      ensures this.baseURL == baseURL && this.timeout == timeout && this.headers == headers
      ensures requestInterceptors == [] && responseInterceptors == []
    {
      this.baseURL, this.timeout, this.headers := baseURL, timeout, headers;
      requestInterceptors, responseInterceptors := [], [];
    }

    method UseRequest(h: Interceptor)
      modifies this
      ensures requestInterceptors == old(requestInterceptors) + [h]
      ensures responseInterceptors == old(responseInterceptors)
    {
      requestInterceptors := requestInterceptors + [h];
    }

    method UseResponse(h: Interceptor)
      modifies this
      ensures responseInterceptors == old(responseInterceptors) + [h]
      ensures requestInterceptors == old(requestInterceptors)
    {
      responseInterceptors := responseInterceptors + [h];
    }
  }

  /** `createAxiosClient()`, given NEXT_PUBLIC_API_BASE_URL: the base URL or "", a 30 s
      timeout, a JSON content type, the token injection and the response handling. It
      does not touch the Keycloak singleton, so it cannot fail for want of its configuration. */
  method CreateAxiosClient(apiBaseUrl: Option<string>) returns (c: Client)
    ensures fresh(c)
    ensures c.baseURL == OrElse(apiBaseUrl, "") && c.timeout == TIMEOUT_MS
    ensures c.headers == map[CONTENT_TYPE := APPLICATION_JSON]
    ensures c.requestInterceptors == [TokenInjection] && c.responseInterceptors == [ResponseHandling]
  {
    c := new Client(OrElse(apiBaseUrl, ""), TIMEOUT_MS, map[CONTENT_TYPE := APPLICATION_JSON]);
    c.UseRequest(TokenInjection);
    c.UseResponse(ResponseHandling);
  }

  /** The request interceptor on a configuration, given what `getInstance` gives (`None`
      for its configuration error, which is swallowed): the bearer header when the
      instance holds a non-empty token, the configuration untouched otherwise. */
  function InjectToken(client: Option<ClientState>, request: RequestView): (r: RequestView)
    ensures r.url == request.url && r.retry == request.retry
    ensures client.Some? && client.value.token != "" ==>
              r.headers == request.headers[AUTHORIZATION := BearerHeader(client.value.token)]
    ensures !(client.Some? && client.value.token != "") ==> r == request
  {
    if client.Some? && client.value.token != "" then
      request.(headers := request.headers[AUTHORIZATION := BearerHeader(client.value.token)])
    else
      request
  }

  /** The interceptor changes no header but `Authorization`, and applying it twice is
      the same as once. */
  lemma InjectTokenOnlyAuthorization(client: Option<ClientState>, request: RequestView)
    ensures var r := InjectToken(client, request);
            (forall k :: k != AUTHORIZATION ==> (k in r.headers <==> k in request.headers)) &&
            (forall k :: k != AUTHORIZATION && k in request.headers ==> r.headers[k] == request.headers[k])
    ensures InjectToken(client, InjectToken(client, request)) == InjectToken(client, request)
  {
  }

  /** The request interceptor on the configuration object, which it changes in place
      and returns. */
  method InjectTokenOn(service: KeycloakService, env: KeycloakEnv, config: RequestConfig)
    returns (r: RequestConfig)
    modifies service, config
    ensures r == config
    ensures var (s, client) := GetInstanceStep(old(service.View()), env);
            service.View() == s && config.View() == InjectToken(client, old(config.View()))
  {
    var keycloak := service.GetInstance(env);
    if keycloak.Some? && keycloak.value.token != "" {
      config.headers := config.headers[AUTHORIZATION := BearerHeader(keycloak.value.token)];
    }
    r := config;
  }

  // ---------------------------------------------------------------------------
  // One call through the client.

  /** What the transport gives for one sending: a response, or none (a network failure or
      the timeout, with or without the request having gone out). */
  datatype Transport = Answered(response: Response) | NoAnswer(requestSent: bool, message: string)

  /** Everything the outside world decides about one sending: the transport's answer and,
      should it come to that, how `updateToken` and `logout` settle. */
  datatype Attempt = Attempt(transport: Transport, update: UpdateOutcome, logout: LogoutOutcome)

  datatype CallOutcome = Resolved(data: Option<Value>) | Rejected(reason: Rejection)

  /** A call's outcome, the requests as they went out, the calls on keycloak-js and the
      browser, and the singleton's state afterwards. */
  datatype CallRun = CallRun(outcome: CallOutcome, sent: seq<RequestView>, effects: seq<Effect>,
                             state: ServiceState)

  /** axios resolves a response whose status is 2xx and rejects every other. */
  predicate Succeeds(t: Transport) {
    t.Answered? && 200 <= t.response.status < 300
  }

  /** The error axios rejects with when the transport does not succeed. */
  function ErrorOf(t: Transport): (e: HttpError)
    ensures t.Answered? ==> e.response == Some(t.response) && e.requestSent &&
                            e.message == "Request failed with status code " + IntToDecimal(t.response.status)
    ensures t.NoAnswer? ==> e.response.None? && e.requestSent == t.requestSent && e.message == t.message
  {
    match t
    case Answered(response) =>
      HttpError(Some(response), true, "Request failed with status code " + IntToDecimal(response.status))
    case NoAnswer(sent, message) => HttpError(None, sent, message)
  }

  /** `client(request)`: the request interceptor, sending number `k` (whose answer is
      `attempts(k)`), then the response interceptor; a resubmission is a new call on the
      same client with the request as the handler left it. */
  function Call(s: ServiceState, env: KeycloakEnv, request: RequestView, attempts: nat -> Attempt, k: nat,
                browser: Browser, loginUrl: string): (r: CallRun)
    ensures 1 <= |r.sent| && r.sent[0] == InjectToken(GetInstanceStep(s, env).1, request)
    ensures Succeeds(attempts(k).transport) ==>
              r == CallRun(Resolved(attempts(k).transport.response.data),
                           [InjectToken(GetInstanceStep(s, env).1, request)], [], GetInstanceStep(s, env).0)
    decreases if request.retry then 0 else 1
  {
    var (s1, client) := GetInstanceStep(s, env);
    var sent := InjectToken(client, request);
    var attempt := attempts(k);
    if Succeeds(attempt.transport) then
      CallRun(Resolved(OnFulfilled(attempt.transport.response)), [sent], [], s1)
    else
      var err := ErrorOf(attempt.transport);
      var handled := OnRejected(err, Some(sent), GetInstanceStep(s1, env).1, attempt.update, browser,
                                attempt.logout, loginUrl);
      var s2 := if TakesRefreshPath(err, Some(sent)) then RefreshState(s1, env, attempt.update) else s1;
      match handled.value
      case Resubmit(next) =>
        var rest := Call(s2, env, next, attempts, k + 1, browser, loginUrl);
        CallRun(rest.outcome, [sent] + rest.sent, handled.effects + rest.effects, rest.state)
      case Reject(reason) =>
        CallRun(Rejected(reason), [sent], handled.effects, s2)
  }

  /** A request already marked `_retry` is sent once and never refreshes. */
  lemma RetriedRequestSentOnce(s: ServiceState, env: KeycloakEnv, request: RequestView, attempts: nat -> Attempt,
                               k: nat, browser: Browser, loginUrl: string)
    requires request.retry
    ensures var r := Call(s, env, request, attempts, k, browser, loginUrl);
            |r.sent| == 1 && r.effects == [] && r.state == GetInstanceStep(s, env).0
  {
  }

  /** No two calls of `updateToken` in one list of effects. */
  predicate AtMostOneUpdate(effects: seq<Effect>) {
    forall i, j :: 0 <= i < j < |effects| ==> !(effects[i].UpdateToken? && effects[j].UpdateToken?)
  }

  /** The error handler's verdict on the first sending of a call that did not succeed. */
  function FirstHandling(s: ServiceState, env: KeycloakEnv, request: RequestView, attempt: Attempt,
                         browser: Browser, loginUrl: string): Outcome<Handling>
  {
    var (s1, client) := GetInstanceStep(s, env);
    var sent := InjectToken(client, request);
    OnRejected(ErrorOf(attempt.transport), Some(sent), GetInstanceStep(s1, env).1, attempt.update, browser,
               attempt.logout, loginUrl)
  }

  /** A handler that rejects made at most one `updateToken` call. */
  lemma RejectionUpdatesAtMostOnce(err: HttpError, request: Option<RequestView>, client: Option<ClientState>,
                                   update: UpdateOutcome, browser: Browser, logout: LogoutOutcome, loginUrl: string)
    requires OnRejected(err, request, client, update, browser, logout, loginUrl).value.Reject?
    ensures AtMostOneUpdate(OnRejected(err, request, client, update, browser, logout, loginUrl).effects)
  {
    var effects := OnRejected(err, request, client, update, browser, logout, loginUrl).effects;
    if TakesRefreshPath(err, request) {
      var refresh := RefreshToken(client, update).effects;
      var auth := HandleAuthError(client, browser, logout, loginUrl).effects;
      assert effects == refresh + auth;
      assert |refresh| <= 1;
      forall j | 1 <= j < |effects| ensures !effects[j].UpdateToken? {
        assert effects[j] == auth[j - |refresh|];
      }
    }
  }

  /** After `updateToken` was refused and keycloak-js cleared the tokens, the request
      interceptor adds no bearer header: the configuration goes out as it came, so one
      without `Authorization` is sent without it. */
  lemma RefusedRefreshSendsNoBearer(s: ServiceState, env: KeycloakEnv, request: RequestView)
    requires GetInstanceStep(s, env).1.Some? && GetInstanceStep(s, env).1.value.authenticated
    ensures var s' := RefreshState(s, env, UpdateRejected(true));
            InjectToken(GetInstanceStep(s', env).1, request) == request
    ensures AUTHORIZATION !in request.headers ==>
              AUTHORIZATION !in InjectToken(GetInstanceStep(RefreshState(s, env, UpdateRejected(true)), env).1, request).headers
  {
    RefreshTokenState(s, env, UpdateRejected(true));
  }

  /** Retry at most once: a call sends its request at most twice, and when it sends it
      twice the only call on keycloak-js was one `updateToken(30)` before the second
      sending; `updateToken` runs at most once per call. */
  lemma {:induction false} AtMostOneResubmission(s: ServiceState, env: KeycloakEnv, request: RequestView,
                                                 attempts: nat -> Attempt, k: nat, browser: Browser,
                                                 loginUrl: string)
    ensures var r := Call(s, env, request, attempts, k, browser, loginUrl);
            1 <= |r.sent| <= 2 &&
            (|r.sent| == 2 ==> r.effects == [UpdateToken(REFRESH_MIN_VALIDITY)] && !request.retry && r.sent[1].retry) &&
            AtMostOneUpdate(r.effects)
  {
    var r := Call(s, env, request, attempts, k, browser, loginUrl);
    var attempt := attempts(k);
    if !Succeeds(attempt.transport) {
      var handled := FirstHandling(s, env, request, attempt, browser, loginUrl);
      if handled.value.Resubmit? {
        var s1 := GetInstanceStep(s, env).0;
        var s2 := RefreshState(s1, env, attempt.update);
        var next := handled.value.request;
        RetriedRequestSentOnce(s2, env, next, attempts, k + 1, browser, loginUrl);
        var rest := Call(s2, env, next, attempts, k + 1, browser, loginUrl);
        assert handled.effects == [UpdateToken(REFRESH_MIN_VALIDITY)];
        assert r.sent[1..] == rest.sent && r.effects == handled.effects + rest.effects;
      } else {
        var (s1, client) := GetInstanceStep(s, env);
        RejectionUpdatesAtMostOnce(ErrorOf(attempt.transport), Some(InjectToken(client, request)),
                                   GetInstanceStep(s1, env).1, attempt.update, browser, attempt.logout, loginUrl);
        assert r.effects == handled.effects;
      }
    }
  }

  /** A call resolves only with the body of a 2xx response to its last sending, never
      with a transport envelope. */
  lemma {:induction false} ResolvesOnlyWithPayload(s: ServiceState, env: KeycloakEnv, request: RequestView,
                                                   attempts: nat -> Attempt, k: nat, browser: Browser,
                                                   loginUrl: string)
    ensures var r := Call(s, env, request, attempts, k, browser, loginUrl);
            var last := attempts(k + |r.sent| - 1).transport;
            (r.outcome.Resolved? <==> Succeeds(last)) &&
            (r.outcome.Resolved? ==> r.outcome.data == last.response.data)
    decreases if request.retry then 0 else 1
  {
    AtMostOneResubmission(s, env, request, attempts, k, browser, loginUrl);
    var (s1, client) := GetInstanceStep(s, env);
    var sent := InjectToken(client, request);
    var attempt := attempts(k);
    if !Succeeds(attempt.transport) {
      var err := ErrorOf(attempt.transport);
      var handled := OnRejected(err, Some(sent), GetInstanceStep(s1, env).1, attempt.update, browser,
                                attempt.logout, loginUrl);
      var s2 := if TakesRefreshPath(err, Some(sent)) then RefreshState(s1, env, attempt.update) else s1;
      if handled.value.Resubmit? {
        ResolvesOnlyWithPayload(s2, env, handled.value.request, attempts, k + 1, browser, loginUrl);
      }
    }
  }

  /** Every rejection carries an `ApiError` unless the Keycloak configuration is missing
      and no instance exists, the one case where the configuration error escapes. */
  lemma {:induction false} RejectionsAreApiErrors(s: ServiceState, env: KeycloakEnv, request: RequestView,
                                                  attempts: nat -> Attempt, k: nat, browser: Browser,
                                                  loginUrl: string)
    requires Configured(env) || s.instance.Some?
    ensures var r := Call(s, env, request, attempts, k, browser, loginUrl);
            r.outcome.Rejected? ==> r.outcome.reason.Api?
    decreases if request.retry then 0 else 1
  {
    var (s1, client) := GetInstanceStep(s, env);
    var sent := InjectToken(client, request);
    var attempt := attempts(k);
    if !Succeeds(attempt.transport) {
      var err := ErrorOf(attempt.transport);
      var handled := OnRejected(err, Some(sent), GetInstanceStep(s1, env).1, attempt.update, browser,
                                attempt.logout, loginUrl);
      var s2 := if TakesRefreshPath(err, Some(sent)) then RefreshState(s1, env, attempt.update) else s1;
      if handled.value.Resubmit? {
        RejectionsAreApiErrors(s2, env, handled.value.request, attempts, k + 1, browser, loginUrl);
      }
    }
  }

  /** Every sending carries `Authorization: Bearer <token>` for the token the instance
      holds when it goes out, whenever that token is non-empty. */
  lemma {:induction false} BearerOnEverySending(s: ServiceState, env: KeycloakEnv, request: RequestView,
                                                attempts: nat -> Attempt, k: nat, browser: Browser,
                                                loginUrl: string)
    ensures var r := Call(s, env, request, attempts, k, browser, loginUrl);
            var first := GetInstanceStep(s, env).1;
            (first.Some? && first.value.token != "" ==>
               AUTHORIZATION in r.sent[0].headers &&
               r.sent[0].headers[AUTHORIZATION] == BearerHeader(first.value.token)) &&
            (|r.sent| == 2 && r.state.instance.Some? && r.state.instance.value.token != "" ==>
               AUTHORIZATION in r.sent[1].headers &&
               r.sent[1].headers[AUTHORIZATION] == BearerHeader(r.state.instance.value.token))
    decreases if request.retry then 0 else 1
  {
    AtMostOneResubmission(s, env, request, attempts, k, browser, loginUrl);
    var (s1, client) := GetInstanceStep(s, env);
    var sent := InjectToken(client, request);
    var attempt := attempts(k);
    if !Succeeds(attempt.transport) {
      var err := ErrorOf(attempt.transport);
      var handled := OnRejected(err, Some(sent), GetInstanceStep(s1, env).1, attempt.update, browser,
                                attempt.logout, loginUrl);
      var s2 := if TakesRefreshPath(err, Some(sent)) then RefreshState(s1, env, attempt.update) else s1;
      if handled.value.Resubmit? {
        var rest := Call(s2, env, handled.value.request, attempts, k + 1, browser, loginUrl);
        BearerOnEverySending(s2, env, handled.value.request, attempts, k + 1, browser, loginUrl);
        RetriedRequestSentOnce(s2, env, handled.value.request, attempts, k + 1, browser, loginUrl);
        assert s2.instance.Some?;
        assert GetInstanceStep(s2, env) == (s2, s2.instance);
        var r := Call(s, env, request, attempts, k, browser, loginUrl);
        assert r.sent == [sent] + rest.sent && r.state == rest.state;
      }
    }
  }
}
