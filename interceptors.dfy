/** The response interceptor (apps/sim/lib/api/interceptors.ts): a success yields
    only the body; a 401 on a request not yet retried refreshes the token once and
    resubmits the request with the new bearer header, or runs the auth-error handler
    and rejects with the session-expired error; every other failure rejects with a
    normalised `ApiError`. */
module Interceptors {
  import opened Js
  import opened ErrorHandlers
  import opened Service
  import opened AuthHandlers

  /** A request's configuration as the interceptors see it; `retry` is `_retry`. */
  datatype RequestView = RequestView(url: string, headers: map<string, string>, retry: bool)

  const AUTHORIZATION := "Authorization"
  const SESSION_EXPIRED := "인증 세션이 만료되었습니다."

  /** The header value `Bearer <token>`. */
  function BearerHeader(token: string): (h: string)
    ensures |h| == 7 + |token| && h[..7] == "Bearer " && h[7..] == token
  {
    "Bearer " + token
  }

  /** Why an error handler rejects: a normalised `ApiError`, or the configuration error
      that `getInstance` throws out of the auth-error handler. */
  datatype Rejection = Api(error: ApiError) | ConfigurationError

  /** What the error handler does with a failed request. */
  datatype Handling = Resubmit(request: RequestView) | Reject(reason: Rejection)

  /** The success handler: the response body alone. */
  function OnFulfilled(response: Response): (data: Option<Value>)
    ensures data == response.data
  {
    response.data
  }

  /** `error.response?.data`. */
  function ResponseData(err: HttpError): Option<Value> {
    if err.response.Some? then err.response.value.data else None
  }

  /** `status || 0`, where `status` is `error.response?.status`. */
  function StatusOrZero(err: HttpError): (status: int)
    ensures err.response.None? ==> status == 0
    ensures err.response.Some? ==> status == err.response.value.status
  {
    if err.response.Some? then err.response.value.status else 0
  }

  /** A 401 on a request that has a configuration and is not marked `_retry`. */
  predicate TakesRefreshPath(err: HttpError, request: Option<RequestView>) {
    err.response.Some? && err.response.value.status == 401 && request.Some? && !request.value.retry
  }

  /** The request as resubmitted: marked `_retry`, and carrying the bearer header when
      the instance holds a non-empty token. */
  function RetryRequest(request: RequestView, token: string): (r: RequestView)
    ensures r.retry && r.url == request.url
    ensures token != "" ==> r.headers == request.headers[AUTHORIZATION := BearerHeader(token)]
    ensures token == "" ==> r.headers == request.headers
  {
    var headers := if token != "" then request.headers[AUTHORIZATION := BearerHeader(token)] else request.headers;
    request.(retry := true, headers := headers)
  }

  /** The error handler, given what `getInstance` gives (`client`), how `updateToken(30)`
      settles, and what the auth-error handler meets. */
  function OnRejected(err: HttpError, request: Option<RequestView>, client: Option<ClientState>,
                      update: UpdateOutcome, browser: Browser, logout: LogoutOutcome,
                      loginUrl: string): (r: Outcome<Handling>)
    ensures r.value.Resubmit? ==> TakesRefreshPath(err, request) && r.value.request.retry
    ensures TakesRefreshPath(err, request) ==>
              (r.value.Resubmit? <==> RefreshToken(client, update).value)
    ensures r.value.Resubmit? ==>
              r.value.request == RetryRequest(request.value, AfterUpdate(client.value, update).token)
    ensures TakesRefreshPath(err, request) && !RefreshToken(client, update).value ==>
              r.value == Reject(if client.Some? then Api(NewApiError(SESSION_EXPIRED, 401, ResponseData(err)))
                                else ConfigurationError) &&
              r.effects == RefreshToken(client, update).effects +
                           HandleAuthError(client, browser, logout, loginUrl).effects
    ensures !TakesRefreshPath(err, request) ==>
              r == Outcome(Reject(Api(NewApiError(GetErrorMessage(err), StatusOrZero(err), ResponseData(err)))), [])
  {
    if TakesRefreshPath(err, request) then
      var refresh := RefreshToken(client, update);
      if refresh.value then
        // _retry is set, the header is taken from the refreshed instance, the request goes again
        Outcome(Resubmit(RetryRequest(request.value, AfterUpdate(client.value, update).token)), refresh.effects)
      else
        var handled := HandleAuthError(client, browser, logout, loginUrl);
        var reason := if handled.value then Api(NewApiError(SESSION_EXPIRED, 401, ResponseData(err)))
                      else ConfigurationError;
        Outcome(Reject(reason), refresh.effects + handled.effects)
    else
      Outcome(Reject(Api(NewApiError(GetErrorMessage(err), StatusOrZero(err), ResponseData(err)))), [])
  }

  /** The auth-error path rejects with the session-expired error, status 401 and the
      response's body, unless the configuration is missing; `_retry` stays unset. */
  lemma RefreshFailureRejects(err: HttpError, request: Option<RequestView>, client: Option<ClientState>,
                              update: UpdateOutcome, browser: Browser, logout: LogoutOutcome, loginUrl: string)
    requires TakesRefreshPath(err, request)
    requires client.Some?
    requires !client.value.authenticated || update.UpdateRejected?
    ensures var r := OnRejected(err, request, client, update, browser, logout, loginUrl);
            r.value.Reject? && r.value.reason.Api? &&
            r.value.reason.error == ApiError("ApiError", SESSION_EXPIRED, 401, err.response.value.data) &&
            Logout(if browser.Window? then Some(browser.origin) else None) in r.effects
  {
    var handled := HandleAuthError(client, browser, logout, loginUrl);
    if browser.Window? {
      assert handled.effects[1] == Logout(Some(browser.origin));
    } else {
      assert handled.effects[0] == Logout(None);
    }
    var r := OnRejected(err, request, client, update, browser, logout, loginUrl);
    assert r.effects == RefreshToken(client, update).effects + handled.effects;
  }

  /** With the configuration missing, the refresh fails and the auth-error handler's own
      `getInstance` throws, so the rejection is that error and not an `ApiError`, and
      neither storage nor logout is touched. */
  lemma MissingConfigurationEscapes(err: HttpError, request: Option<RequestView>, update: UpdateOutcome,
                                    browser: Browser, logout: LogoutOutcome, loginUrl: string)
    requires TakesRefreshPath(err, request)
    ensures OnRejected(err, request, None, update, browser, logout, loginUrl) == Outcome(Reject(ConfigurationError), [])
  {
  }

  // ---------------------------------------------------------------------------
  // The request configuration object, which the handler changes in place.

  class RequestConfig {
    const url: string
    var headers: map<string, string>
    var retry: bool

    function View(): RequestView
      reads this
    {
      RequestView(url, headers, retry)
    }

    constructor (url: string, headers: map<string, string>)
      ensures View() == RequestView(url, headers, false)
    {
      this.url, this.headers, retry := url, headers, false;
    }
  }

  /** The error handler run on the singleton and on the failed request's configuration
      object (`error.config`, `null` when absent), which it marks and re-heads in place. */
  method OnRejectedOn(service: KeycloakService, env: KeycloakEnv, err: HttpError, config: RequestConfig?,
                      update: UpdateOutcome, browser: Browser, logout: LogoutOutcome, loginUrl: string)
    returns (r: Outcome<Handling>)
    modifies service, service.instance, config
    ensures var request := if config == null then None else Some(old(config.View()));
            r == OnRejected(err, request, GetInstanceStep(old(service.View()), env).1,
                            update, browser, logout, loginUrl) &&
            service.View() == (if TakesRefreshPath(err, request) then RefreshState(old(service.View()), env, update)
                               else old(service.View()))
    ensures config != null && r.value.Resubmit? ==> config.View() == r.value.request
    ensures config != null && !r.value.Resubmit? ==> config.View() == old(config.View())
  {
    ghost var s0 := service.View();
    ghost var request := if config == null then None else Some(config.View());
    ghost var client := GetInstanceStep(s0, env).1;
    if err.response.Some? && err.response.value.status == 401 && config != null && !config.retry {
      var refresh := RefreshTokenOn(service, env, update);
      if refresh.value {
        config.retry := true;
        var keycloak := service.GetInstance(env);
        if keycloak.None? {
          // refreshToken succeeded, so the instance exists
          assert false;
        }
        if keycloak.value.token != "" {
          config.headers := config.headers[AUTHORIZATION := BearerHeader(keycloak.value.token)];
        }
        r := Outcome(Resubmit(config.View()), refresh.effects);
      } else {
        var handled := HandleAuthErrorOn(service, env, browser, logout, loginUrl);
        var reason := if handled.value then Api(NewApiError(SESSION_EXPIRED, 401, ResponseData(err)))
                      else ConfigurationError;
        r := Outcome(Reject(reason), refresh.effects + handled.effects);
      }
    } else {
      r := Outcome(Reject(Api(NewApiError(GetErrorMessage(err), StatusOrZero(err), ResponseData(err)))), []);
    }
  }
}
