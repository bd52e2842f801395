# Client-side session and token lifecycle, in Dafny

This project models the session and token lifecycle that the `sim` web app runs
around its HTTP client, and proves properties of that model. It covers six pieces:

- **Error normalisation** (`ErrorHandlers`, from `apps/sim/lib/api/errorHandlers.ts`).
  This is the `ApiError` record and `getErrorMessage`. That function is total and
  tries, in order: the body's string `message`, the body's string `error`, a fixed
  message per HTTP status, the "no response" message, the error's own message, and
  the "unknown error" message.
- **The Keycloak singleton** (`Service`, from `apps/sim/lib/auth/keycloak/service.ts`).
  The class's three static fields become the fields of a `KeycloakService` object.
  Its methods are lazy `getInstance`, single-flight `initialize`, and `reset`; the
  `initKeycloak` wrapper sits beside them. The keycloak-js client is the `Keycloak`
  class. Its `init` handshake settles with an outcome that the caller passes in.
- **The auth handlers** (`AuthHandlers`, from `apps/sim/lib/api/authHandlers.ts`).
  `refreshToken`, `getValidToken` and `handleAuthError` are modelled as decisions
  over what `getInstance` returns and how the keycloak-js calls settle. Each one also
  returns the calls it makes on keycloak-js and the browser, in order.
- **The response interceptor** (`Interceptors`, from `apps/sim/lib/api/interceptors.ts`).
  On a 401 for a request that has not been retried, it refreshes once. It then either
  resubmits the request with the new bearer header, or runs the auth-error handler and
  rejects with "session expired". Every other failure becomes a normalised `ApiError`.
  The request's configuration object is changed in place.
- **The HTTP client** (`AxiosClient`, from `apps/sim/lib/api/axiosClient.ts`).
  This covers the client's defaults and the request interceptor that writes the
  bearer token into the outgoing configuration. `Call` models one call through both
  interceptors, including the one possible resubmission.
- **The `getSession` dev bypass** (`Session`, from `apps/sim/lib/auth/index.ts`).
  It decides between the production safety error, the test-user session, the
  hard-coded `dev-user-123` session and real authentication.

Shared JavaScript notions live in `Js`: optional strings, JSON values, truthiness,
and how a template literal prints an integer.

Some inputs are parameters rather than modelled behaviour: environment variables,
the settling of keycloak-js promises, the transport's answer to each sending, the
browser window and its origin, the user table, and the clock.

Two behaviours of the code are exposed as lemmas:

- `Service.ConfigFailureLeavesFlagSet`. `initialize` sets `isInitializing` before the
  `try` begins, so a missing configuration leaves the flag set. From then on, every
  `initialize` falls into the polling branch and waits until a `reset` clears the flag;
  the waiting callers then resolve `false`, because `reset` also drops the instance.
- `Interceptors.MissingConfigurationEscapes`. `handleAuthError` calls `getInstance`
  first. So when the configuration is missing, the 401 path rejects with the
  configuration error, not with the session-expired `ApiError`.

Four behaviours of the code that a reader might not expect:

- `initialize` itself rejects when the handshake fails. Only `initKeycloak` turns that
  rejection into `false`.
- `_retry` is set only after a successful refresh, not before the refresh.
- Concurrent 401s are not coalesced into one refresh.
- A response with an unlisted status gets the generic message with the status in
  brackets. It does not get the "no response" message.

## Model

| member | source | states |
|---|---|---|
| `ErrorHandlers.NewApiError` | apps/sim/lib/api/errorHandlers.ts:6-15 | the error keeps exactly the given message, status and data, and its name is `ApiError` |
| `ErrorHandlers.StatusMessage` | apps/sim/lib/api/errorHandlers.ts:36-53 | any status other than the seven listed gets `서버 오류가 발생했습니다. (<status>)`; the message ends in `)` exactly for those statuses |
| `ErrorHandlers.KnownStatusMessages` | apps/sim/lib/api/errorHandlers.ts:36-50 | 400, 401, 403, 404, 500, 502 and 503 each map to their own fixed message |
| `ErrorHandlers.StatusMessageInjective` | apps/sim/lib/api/errorHandlers.ts:36-53 | no two statuses share a message |
| `Js.IntToDecimalInjective` | apps/sim/lib/api/errorHandlers.ts:52 | the status printed in the generic message determines the status |
| `Js.IntToDecimal` | apps/sim/lib/api/errorHandlers.ts:52 | the printed status is non-empty decimal digits with no leading zero (only 0 itself starts with `0`), with a leading `-` exactly for a negative status |
| `Js.NatToDecimalValue` | apps/sim/lib/api/errorHandlers.ts:52 | the digits printed for a non-negative number, read back as a decimal numeral, give that number |
| `Js.IntToDecimalValue` | apps/sim/lib/api/errorHandlers.ts:52 | `${status}` read back as a signed decimal numeral gives the status, for every integer |
| `Js.IsObject` | apps/sim/lib/api/errorHandlers.ts:26-27 | a body passes the `typeof data === 'object'` test exactly when it is present and is neither null, a boolean, a number nor a string |
| `Js.StringProperty` | apps/sim/lib/api/errorHandlers.ts:26-27 | a property is read exactly when the body is an object holding that key with a string value, and the string is that value |
| `ErrorHandlers.GetErrorMessage` | apps/sim/lib/api/errorHandlers.ts:56-62 | with no response: the no-response message if a request went out, else the error's message if non-empty, else the unknown-error message |
| `ErrorHandlers.GetErrorMessageIsFirstCandidate` | apps/sim/lib/api/errorHandlers.ts:20-63 | the result is the first present candidate, in the order body message, body error, status message, no-response, own message, unknown; so the function is total |
| `ErrorHandlers.MessageFieldFirst` | apps/sim/lib/api/errorHandlers.ts:26-29 | a string `message` in an object body is returned, whatever `error` and the status say |
| `ErrorHandlers.ErrorFieldSecond` | apps/sim/lib/api/errorHandlers.ts:30-32 | without a string `message`, a string `error` is returned |
| `ErrorHandlers.StatusThird` | apps/sim/lib/api/errorHandlers.ts:35-53 | with a response whose body has neither string, the status message is returned |
| `Service.NewClient` | apps/sim/lib/auth/keycloak/service.ts:26-30 | a new client carries exactly the configured url, realm and clientId, and is not yet authenticated |
| `Service.AfterUpdate` | apps/sim/lib/api/authHandlers.ts:17 | what keycloak-js leaves on the client when `updateToken` settles: the new token after a refresh, the old one when it was still valid, no token and not authenticated after a refused refresh, the client unchanged after any other failure; the configuration is never touched |
| `Service.GetInstanceStep` | apps/sim/lib/auth/keycloak/service.ts:13-33 | an existing instance is returned unchanged; with a missing or empty url, realm or clientId it throws and the instance stays absent; otherwise the new client is stored and returned |
| `Service.KeycloakService.GetInstance` | apps/sim/lib/auth/keycloak/service.ts:13-33 | the same object is returned once the instance exists; a new one is fresh; the state follows `GetInstanceStep` |
| `Service.InitializeStep` | apps/sim/lib/auth/keycloak/service.ts:35-64 | a stored promise is returned with nothing changed; with the flag set and no promise the caller polls and nothing changes; an idle singleton with an instance or a complete configuration runs the handshake exactly once on the existing or newly built client, keeps that client with the handshake's outcome recorded on it, stores the outcome, clears the flag and answers with it; a handshake starts in no other case; a configuration failure leaves the flag set with no promise stored |
| `Service.KeycloakService.Initialize` | apps/sim/lib/auth/keycloak/service.ts:35-64 | the object's new state and reply follow `InitializeStep` |
| `Service.ResetStep` | apps/sim/lib/auth/keycloak/service.ts:66-70 | reset leaves no instance, the flag clear and no promise |
| `Service.KeycloakService.Reset` | apps/sim/lib/auth/keycloak/service.ts:66-70 | the object returns to the initial state |
| `Service.KeycloakService.constructor` | apps/sim/lib/auth/keycloak/service.ts:9-11 | the static fields start as null, false and null |
| `Service.Keycloak.constructor` | apps/sim/lib/auth/keycloak/service.ts:26-30 | the client holds the given url, realm and clientId |
| `Service.AfterInit` | apps/sim/lib/auth/keycloak/service.ts:56 | a resolved handshake records its authenticated flag, and the token only when authenticated; a rejected one leaves the client as it was |
| `Service.Keycloak.Init` | apps/sim/lib/auth/keycloak/service.ts:56 | the handshake's outcome is recorded on the client as `AfterInit` gives it |
| `Service.Keycloak.UpdateToken` | apps/sim/lib/api/authHandlers.ts:17 | `updateToken` answers "refreshed" when it resolves and leaves the new token; a rejection after a refused refresh clears the token and the authenticated flag, and any other rejection leaves the client as it was |
| `Service.InitKeycloakAnswer` | apps/sim/lib/auth/keycloak/service.ts:78-85 | `initKeycloak` answers `false` for a rejected handshake or a configuration failure; it answers true exactly for a handshake that resolved authenticated; it stays pending only in the polling branch |
| `Service.InitKeycloak` | apps/sim/lib/auth/keycloak/service.ts:78-85 | `initKeycloak` runs `initialize` and turns its rejection into `false` |
| `Service.HandshakeAtMostOnce` | apps/sim/lib/auth/keycloak/service.ts:37-63 | over any sequence of calls, `init` runs at most once between resets |
| `Service.SameReplyUntilReset` | apps/sim/lib/auth/keycloak/service.ts:37-39 | once a promise is stored, every later `initialize` before a reset gets it, and no handshake starts |
| `Service.InitializeOnceThenShared` | apps/sim/lib/auth/keycloak/service.ts:35-64 | from any idle singleton with an instance or a complete configuration, including one that `getInstance` has already primed, one handshake answers the first caller and every later caller alike until a reset |
| `Service.StuckFlagPolls` | apps/sim/lib/auth/keycloak/service.ts:42-51 | with the flag set and no promise, every `initialize` before a reset waits, whatever the instance, and no promise is stored and no handshake runs; with no instance and an incomplete configuration, nothing changes at all |
| `Service.ConfigFailureLeavesFlagSet` | apps/sim/lib/auth/keycloak/service.ts:53-58 | a configuration failure inside `initialize` leaves the flag set and no promise stored, so later callers wait until a reset |
| `Service.ResetRoundTrip` | apps/sim/lib/auth/keycloak/service.ts:66-70 | reset reaches the initial state from any state, twice is the same as once, and the next `getInstance` builds a client equal to the first one ever built |
| `AuthHandlers.RefreshToken` | apps/sim/lib/api/authHandlers.ts:7-30 | true exactly when an instance exists, is authenticated and `updateToken` resolves, whether it refreshed or not; `updateToken(30)` is called only when authenticated |
| `AuthHandlers.RefreshTokenOn` | apps/sim/lib/api/authHandlers.ts:7-30 | on the singleton: the answer is `RefreshToken`'s, and the state shows the built instance and the updated token |
| `AuthHandlers.RefreshTokenState` | apps/sim/lib/api/authHandlers.ts:9-25 | a successful refresh leaves the instance authenticated, with the new token if it was refreshed and its old one if it was still valid; a refused refresh leaves it unauthenticated without a token; any other failed `updateToken` leaves it as it was; without the call, the instance is what `getInstance` gave |
| `AuthHandlers.GetValidToken` | apps/sim/lib/api/authHandlers.ts:64-80 | the token is returned exactly when authenticated, `updateToken(300)` resolves and the token is non-empty; otherwise null |
| `AuthHandlers.HandleAuthError` | apps/sim/lib/api/authHandlers.ts:35-57 | a missing configuration throws before any step; otherwise it clears storage, then logs out to the origin, and navigates to the login URL only if the logout rejects |
| `AuthHandlers.HandleAuthErrorOn` | apps/sim/lib/api/authHandlers.ts:35-57 | on the singleton: the same steps, after a `getInstance` that may build the instance |
| `Interceptors.BearerHeader` | apps/sim/lib/api/interceptors.ts:39 | the header value is `Bearer ` followed by exactly the token |
| `Interceptors.StatusOrZero` | apps/sim/lib/api/interceptors.ts:58 | the status is the response's status, or 0 without a response |
| `Interceptors.OnFulfilled` | apps/sim/lib/api/interceptors.ts:19 | a successful response resolves with its body and nothing else |
| `Interceptors.RetryRequest` | apps/sim/lib/api/interceptors.ts:33-40 | the resubmitted request is marked `_retry`; it gets the bearer header only for a non-empty token; nothing else changes |
| `Interceptors.OnRejected` | apps/sim/lib/api/interceptors.ts:22-68 | only a 401 on a request with a config and no `_retry` refreshes; it resubmits exactly when the refresh succeeds; otherwise it rejects with the session-expired error after the auth-error steps; every other failure rejects with `ApiError(getErrorMessage, status or 0, data)` and touches nothing |
| `Interceptors.RefreshFailureRejects` | apps/sim/lib/api/interceptors.ts:44-53 | a failed refresh rejects with `ApiError('인증 세션이 만료되었습니다.', 401, response data)` and requests logout |
| `Interceptors.MissingConfigurationEscapes` | apps/sim/lib/api/interceptors.ts:44-53 | with no configuration the rejection is the configuration error, and nothing is cleared or logged out |
| `Interceptors.OnRejectedOn` | apps/sim/lib/api/interceptors.ts:22-68 | on the request's config object: `_retry` and the header change in place only on resubmission; the state follows the refresh |
| `AxiosClient.CreateAxiosClient` | apps/sim/lib/api/axiosClient.ts:12-49 | the base URL is the configured value or `''`, the timeout is 30000 ms, Content-Type is `application/json`, and both interceptors are registered |
| `AxiosClient.InjectToken` | apps/sim/lib/api/axiosClient.ts:22-38 | with a non-empty token the configuration gets `Authorization: Bearer <token>`; without a token, or when `getInstance` throws, it passes through unchanged |
| `AxiosClient.InjectTokenOnlyAuthorization` | apps/sim/lib/api/axiosClient.ts:22-38 | no header other than `Authorization` changes, and injecting twice equals injecting once |
| `AxiosClient.InjectTokenOn` | apps/sim/lib/api/axiosClient.ts:22-38 | the same configuration object is changed in place and returned |
| `AxiosClient.ErrorOf` | apps/sim/lib/api/interceptors.ts:22-24 | the error axios rejects with: a non-2xx answer carries its response, counts as sent and has the message `Request failed with status code <status>`; a missing answer carries no response and the transport's sent flag and message |
| `AxiosClient.Call` | apps/sim/lib/api/interceptors.ts:17-68 | the first sending is the request after the token interceptor; a 2xx answer to it resolves with that body alone, with no other sending and no call on keycloak-js |
| `AxiosClient.RefusedRefreshSendsNoBearer` | apps/sim/lib/api/axiosClient.ts:28-29 | once a refused refresh has cleared the tokens, the request interceptor adds no bearer header: the configuration goes out as it came, so one without `Authorization` is sent without it |
| `AxiosClient.RetriedRequestSentOnce` | apps/sim/lib/api/interceptors.ts:27 | a request already marked `_retry` is sent once and never refreshes |
| `AxiosClient.AtMostOneResubmission` | apps/sim/lib/api/interceptors.ts:27-43 | a call sends its request at most twice; a second sending follows exactly one `updateToken(30)`; `updateToken` runs at most once per call |
| `AxiosClient.RejectionUpdatesAtMostOnce` | apps/sim/lib/api/interceptors.ts:44-53 | a rejecting error handler has called `updateToken` at most once |
| `AxiosClient.ResolvesOnlyWithPayload` | apps/sim/lib/api/interceptors.ts:19 | a call resolves exactly when its last sending got a 2xx response, and then with that response's body only |
| `AxiosClient.RejectionsAreApiErrors` | apps/sim/lib/api/interceptors.ts:44-67 | when the configuration is present or an instance exists, every rejection is an `ApiError` |
| `AxiosClient.BearerOnEverySending` | apps/sim/lib/api/axiosClient.ts:28-29 | every sending carries the bearer header for the instance's non-empty token at that time, including the resubmission |
| `Session.FindFirst` | apps/sim/lib/auth/index.ts:29-31 | a found user has the requested id, is in the table and no earlier row has that id; `None` means no row has that id |
| `Session.LookupTestUser` | apps/sim/lib/auth/index.ts:28-52 | a failing table gives no user; a reachable table gives its first row with the id, so a user is found exactly when some row has that id |
| `Session.DevSession` | apps/sim/lib/auth/index.ts:36-47 | a bypass session expires at now + 365·24·60·60·1000 ms, and its organisation is `TEST_ORG_ID` when non-empty, else null |
| `Session.DevUser` | apps/sim/lib/auth/index.ts:57-68 | the fallback user is `dev-user-123`, `dev@example.com`, `Dev User`, verified, not a super user, with no image and no Stripe customer, created and updated now |
| `Session.GetSession` | apps/sim/lib/auth/index.ts:11-86 | production with the bypass always throws; only the exact `'true'` bypasses; a bypass session's userId is its user's id; a user other than dev-user-123 is the `TEST_USER_ID` user with `dev-session`/`dev-token` |
| `Session.BypassChoosesUser` | apps/sim/lib/auth/index.ts:21-80 | a found test user gets `dev-session`/`dev-token`; no id, not found, or a failed lookup gives the `dev-user-123` session |
| `Session.StoreDownLikeNotFound` | apps/sim/lib/auth/index.ts:28-53 | a failing lookup ends like a lookup that finds nobody |

## Left out

- The UI is not modelled: the React provider (`keycloak-provider.tsx`), the `use-external-api` hook, the example components, the sidebar and header components, and the `check-users` script.
- keycloak-js internals (`init`, `updateToken`, `logout`, `createLoginUrl`) are outcomes given as parameters. Their own network protocol is not modelled.
- Which `updateToken` failures clear the tokens is an input (the `cleared` flag of `UpdateRejected`). keycloak-js clears them when the server refuses the refresh; the HTTP exchange that decides this is not modelled.
- AuthHandlers.GetValidToken: it returns only the answer and the calls made. The token that `updateToken(300)` leaves on the singleton is not carried into later calls, because `getValidToken` is not on any path that `Call` models.
- An absent token (`undefined`) and an empty token are both written "". Every place the code tests the token treats the two alike.
- Service.KeycloakService.Initialize: the `init` promise settles within the call. So no concurrent caller can observe the in-flight state (promise stored but pending, flag set).
- The polling branch is the reply `WaitsForFlag`. Its later resolution with `instance?.authenticated ?? false` and the 100 ms timer are not modelled.
- Concurrency is not modelled. This includes interleaved initialisations, overlapping 401s and their separate refreshes, and a `reset` during a call.
- `console` logging is not modelled.
- The logout promise's `.catch` is shown as a later step in the effect list. The rejection itself does not wait for it.
- The request interceptor's error handler (`apps/sim/lib/api/axiosClient.ts:39-42`) only passes an earlier error on, and no earlier request interceptor exists. It is not modelled.
- The module-level `axiosClient` instance is not modelled. It is one `CreateAxiosClient` call at load time.
- Axios transport details are not modelled: case-insensitive header names, URL joining with the base URL, and timeouts as such. A timeout is one kind of `NoAnswer`.
- Every `new Date()` in `getSession` reads one clock value `now`. The real code reads the clock several times.
- The real `getSession` from `./auth` is not part of this model. Delegating to it is the result `RealAuth`.
