/** Token refresh, the valid-token helper and the auth-error handler
    (apps/sim/lib/api/authHandlers.ts). Each decision is a function of what
    `getInstance` gives (`None` for its configuration error) and of how the
    keycloak-js calls settle; the calls made on keycloak-js and the browser are
    returned in order. */
module AuthHandlers {
  import opened Js
  import opened Service

  /** Calls the handlers make on keycloak-js and on the browser, in order. */
  datatype Effect =
    | UpdateToken(minValidity: int)       // keycloak.updateToken(minValidity)
    | ClearStorage                        // localStorage.clear()
    | Logout(redirectUri: Option<string>) // keycloak.logout({redirectUri})
    | NavigateTo(url: string)             // window.location.href = url

  /** A handler's answer together with the calls it made. */
  datatype Outcome<T> = Outcome(value: T, effects: seq<Effect>)

  /** The browser, when there is one (`typeof window !== 'undefined'`). */
  datatype Browser = NoWindow | Window(origin: string)

  /** How the logout promise settles. */
  datatype LogoutOutcome = LogoutResolved | LogoutRejected

  const REFRESH_MIN_VALIDITY := 30
  const VALID_TOKEN_MIN_VALIDITY := 300

  /** `refreshToken()`: true exactly when the instance exists, is authenticated and
      `updateToken(30)` resolves, whether or not it had to refresh. */
  function RefreshToken(client: Option<ClientState>, update: UpdateOutcome): (r: Outcome<bool>)
    ensures r.value <==> client.Some? && client.value.authenticated && update.UpdateResolved?
    ensures client.Some? && client.value.authenticated ==> r.effects == [UpdateToken(REFRESH_MIN_VALIDITY)]
    ensures !(client.Some? && client.value.authenticated) ==> r.effects == []
  {
    if client.None? then Outcome(false, [])
    else if !client.value.authenticated then Outcome(false, [])
    else
      match update
      case UpdateResolved(_, _) =>
        // refreshed or still valid: both count as success
        Outcome(true, [UpdateToken(REFRESH_MIN_VALIDITY)])
      case UpdateRejected(_) => Outcome(false, [UpdateToken(REFRESH_MIN_VALIDITY)])
  }

  /** `getValidToken()`: the token after `updateToken(300)` resolved, when the instance
      is authenticated and that token is non-empty; `null` otherwise. */
  function GetValidToken(client: Option<ClientState>, update: UpdateOutcome): (r: Outcome<Option<string>>)
    ensures r.value.Some? <==>
              client.Some? && client.value.authenticated && update.UpdateResolved? &&
              AfterUpdate(client.value, update).token != ""
    ensures r.value.Some? ==> r.value.value == AfterUpdate(client.value, update).token
    ensures client.Some? && client.value.authenticated ==> r.effects == [UpdateToken(VALID_TOKEN_MIN_VALIDITY)]
    ensures !(client.Some? && client.value.authenticated) ==> r.effects == []
  {
    if client.None? || !client.value.authenticated then Outcome(None, [])
    else if update.UpdateRejected? then Outcome(None, [UpdateToken(VALID_TOKEN_MIN_VALIDITY)])
    else Outcome(OrNull(Some(AfterUpdate(client.value, update).token)), [UpdateToken(VALID_TOKEN_MIN_VALIDITY)])
  }

  /** `handleAuthError()`: `getInstance` first (its throw escapes: the value is false and
      nothing was done), then clear storage, then log out back to the origin, and only
      if the logout rejects, go to the login URL. */
  function HandleAuthError(client: Option<ClientState>, browser: Browser, logout: LogoutOutcome,
                           loginUrl: string): (r: Outcome<bool>)
    ensures r.value <==> client.Some?
    ensures client.None? ==> r.effects == []
    ensures client.Some? && browser.Window? ==>
              |r.effects| >= 2 && r.effects[..2] == [ClearStorage, Logout(Some(browser.origin))] &&
              r.effects[2..] == if logout.LogoutRejected? then [NavigateTo(loginUrl)] else []
    ensures client.Some? && browser.NoWindow? ==> r.effects == [Logout(None)]
  {
    if client.None? then Outcome(false, [])
    else
      var clear := if browser.Window? then [ClearStorage] else [];
      var redirect := if browser.Window? then Some(browser.origin) else None;
      var fallback := if logout.LogoutRejected? && browser.Window? then [NavigateTo(loginUrl)] else [];
      Outcome(true, clear + [Logout(redirect)] + fallback)
  }

  /** The singleton's state after `refreshToken()`: `getInstance` may have built the
      instance, and a resolved `updateToken` leaves its token on it. */
  function RefreshState(s: ServiceState, env: KeycloakEnv, update: UpdateOutcome): ServiceState {
    var (s1, client) := GetInstanceStep(s, env);
    if client.Some? && client.value.authenticated then s1.(instance := Some(AfterUpdate(client.value, update)))
    else s1
  }

  /** `refreshToken()` run on the singleton. */
  method RefreshTokenOn(service: KeycloakService, env: KeycloakEnv, update: UpdateOutcome) returns (r: Outcome<bool>)
    modifies service, service.instance
    ensures r == RefreshToken(GetInstanceStep(old(service.View()), env).1, update)
    ensures service.View() == RefreshState(old(service.View()), env, update)
    ensures old(service.instance) != null ==> service.instance == old(service.instance)
  {
    var keycloak := service.GetInstance(env);
    if keycloak.None? {
      return Outcome(false, []);
    }
    if !keycloak.value.authenticated {
      return Outcome(false, []);
    }
    var refreshed := keycloak.value.UpdateToken(update);
    r := Outcome(refreshed.Some?, [UpdateToken(REFRESH_MIN_VALIDITY)]);
  }

  /** `handleAuthError()` run on the singleton, whose `getInstance` may build the instance. */
  method HandleAuthErrorOn(service: KeycloakService, env: KeycloakEnv, browser: Browser,
                           logout: LogoutOutcome, loginUrl: string) returns (r: Outcome<bool>)
    modifies service
    ensures var (s, client) := GetInstanceStep(old(service.View()), env);
            service.View() == s && r == HandleAuthError(client, browser, logout, loginUrl)
    ensures old(service.instance) != null ==> service.instance == old(service.instance)
  {
    var keycloak := service.GetInstance(env);
    var client := if keycloak.Some? then Some(keycloak.value.State()) else None;
    r := HandleAuthError(client, browser, logout, loginUrl);
  }

  /** A refresh that reports success leaves the instance authenticated with the token
      from `updateToken`. A refused refresh leaves it without a token and unauthenticated,
      any other failed `updateToken` leaves it as it was, and when `updateToken` was never
      called the instance is whatever `getInstance` gave. */
  lemma RefreshTokenState(s: ServiceState, env: KeycloakEnv, update: UpdateOutcome)
    ensures var s' := RefreshState(s, env, update);
            var client := GetInstanceStep(s, env).1;
            (RefreshToken(client, update).value ==>
               s'.instance == Some(client.value.(token := if update.refreshed then update.token else client.value.token)) &&
               s'.instance.value.authenticated) &&
            (client.Some? && client.value.authenticated && update == UpdateRejected(true) ==>
               s'.instance == Some(client.value.(authenticated := false, token := ""))) &&
            (client.Some? && client.value.authenticated && update == UpdateRejected(false) ==>
               s'.instance == client) &&
            (!(client.Some? && client.value.authenticated) ==> s'.instance == client)
  {
  }
}
