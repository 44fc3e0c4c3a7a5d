# Auth session layer, modelled in Dafny

This project models the client-side authentication layer of an Angular
application. The layer has four parts:

- **Session store** (`session_state.dfy`, module `SessionState`). It is a
  reducer over `{initialized, isGuest, user}`. Two actions drive it:
  `SetUser(user?)` and `Logout`.
- **Session service** (`session_service.dfy`, module `SessionService`).
  - Class `AuthService` holds the token store as a `map<string, string>`.
    It also logs the actions it dispatches and the URLs it navigates to.
    `StoreAccessTokens`, `ClearAccessTokens` and `Logout` update these
    fields in place.
  - `Me` and `SignIn` are functions. They take the outcomes of their HTTP
    calls and return the effects of the call: the final token map, the
    dispatched actions, the navigation target and the emitted value.
- **Auth interceptor** (`auth_interceptor.dfy`, module `AuthInterceptor`).
  This is the class interceptor that `withInterceptorsFromDi()` registers.
  - Class `AuthHttpInterceptor` has the mutable `isRefreshing` flag and a
    reference to the `AuthService` whose token store it reads and writes.
  - Each continuation of `intercept` is one method: the synchronous
    rewrite, the downstream error handler, the refresh response handler,
    the refresh error handler and the retry error handler.
  - Concurrent requests are interleavings of these method calls on one
    object. The pure function `Step` gives the flag's behaviour on each
    event. A model-only ghost counter tracks the refresh pipelines still
    open, that is, started and not yet at line 97 or 117 of
    http.interceptor.ts. Every handler that changes the flag ensures
    `Proto() == Step(old(Proto()), event)`, so lemmas about sequences of
    `Step` events cover every interleaving of method calls.
- **Bootstrap initializer** (`bootstrap.dfy`, module `Bootstrap`).
  `InitializeApp` takes the stored refresh token, the refresh outcome and the
  profile outcome. It returns the HTTP calls made, the actions dispatched and
  whether the start-up promise resolves to null.

`http.dfy` (module `Http`) holds the shared values:

- `Option`;
- requests `{verb, url, headers, bypass}`, where `bypass` is the
  BYPASS_AUTH_INTERCEPTOR context flag;
- header sets;
- HTTP errors;
- `Fetch<T>`, the outcome of one HTTP call.

`BuildAuthHttpHeaders(token)` is modelled as `BuildAuthHeaders`. It returns a
header set that holds only an Authorization entry carrying the token. The
model does not fix the exact scheme prefix, but the function is injective.

A string that the code tests for truthiness counts as present only when it is
non-empty (`Truthy`). This covers the stored access token, the stored refresh
token, the refreshed access token and the `next` redirect. So an empty stored
token behaves like a missing one.

Where the code and its comments, or the behaviour one would expect, disagree,
the model follows the code:

- A user is valid when its `userId` is non-zero (`!!user?.userId`). A
  negative id is therefore valid.
- The refresh call issued by the interceptor carries no bypass marker. It
  therefore passes through the interceptor again: an HTTP error on the refresh
  call first reaches the interceptor's own error handler as one more
  downstream error, and only then becomes `'UNAUTHORIZED'`. `RefreshCall`
  returns an unmarked request, and the trace model counts that error as one
  more `DownstreamError` event. The initializer's calls do carry the marker.
- After a successful refresh, the store holds the new access token together
  with the refresh token read when the 401 arrived. No new refresh token is
  taken from the response.
- The handler at lines 117-119 does not clear the flag.
- A failing retried request is turned into `'UNAUTHORIZED'`, not returned
  as-is.
- Every error that does not start a refresh clears the flag, including a 401
  that arrives while a refresh is under way. See "## Findings".
- `me()` and `signIn()` call absolute endpoint URLs. These do not start with
  `/api/`, so the interceptor does not rewrite them or attach the access
  token. Their refresh-and-retry path still applies.

## Model

| member | source | states |
|---|---|---|
| `SessionState.Apply` | src/app/modules/auth/store/auth.state.ts:31-51 | After either action the store is initialized and is a guest exactly when it holds no user; it holds a user exactly for SetUser with a present user of non-zero id, and then that user |
| `SessionState.ApplyForgetsPriorState` | src/app/modules/auth/store/auth.state.ts:36-50 | Both handlers overwrite all three fields, so the result never depends on the prior state |
| `SessionState.LogoutIdempotent` | src/app/modules/auth/store/auth.state.ts:44-51 | Logout yields `{true, true, undefined}` from any state; applying it twice equals applying it once |
| `SessionState.LogoutWinsAfterSetUser` | src/app/modules/auth/store/auth.state.ts:31-51 | `SetUser(u); Logout` leaves the same state as `Logout` alone |
| `SessionState.LastActionDecides` | src/app/modules/auth/store/auth.state.ts:36-50 | After a non-empty sequence of actions the state is what the last action alone produces from the defaults |
| `SessionState.SettledPersists` | src/app/modules/auth/store/auth.state.ts:36-50 | Once any action has been handled, `initialized` stays true and `isGuest` keeps equal to "no user" whatever follows |
| `SessionState.ApplyAllMeaning` | src/app/modules/auth/store/auth.state.ts:21-51 | No actions leave the state unchanged; otherwise the store is logged in with the last action's user exactly when that action is SetUser with a valid user, else it is an initialized guest |
| `SessionService.StoreTokens` | src/app/modules/auth/services/auth.service.ts:82-85 | Both token keys then retrieve the stored tokens; every other key retrieves what it did before |
| `SessionService.ClearTokens` | src/app/modules/auth/services/auth.service.ts:98-101 | Both token keys then retrieve nothing; every other key retrieves what it did before |
| `SessionService.ClearUndoesStore` | src/app/modules/auth/services/auth.service.ts:82-101 | Clearing after storing leaves the same map as clearing alone |
| `SessionService.StoreOverwrites` | src/app/modules/auth/services/auth.service.ts:82-85 | A second store replaces both tokens of the first |
| `SessionService.AuthService.constructor` | src/app/modules/auth/services/auth.service.ts:22-29 | Starts from the given store with nothing dispatched and no navigation |
| `SessionService.AuthService.StoreAccessTokens` | src/app/modules/auth/services/auth.service.ts:82-85 | The new store is StoreTokens of the old one; dispatch and navigation logs are untouched |
| `SessionService.AuthService.RetrieveAccessToken` | src/app/modules/auth/services/auth.service.ts:88-90 | Present exactly when the access-token key is stored, and then its stored value |
| `SessionService.AuthService.RetrieveRefreshToken` | src/app/modules/auth/services/auth.service.ts:93-95 | Present exactly when the refresh-token key is stored, and then its stored value |
| `SessionService.AuthService.ClearAccessTokens` | src/app/modules/auth/services/auth.service.ts:98-101 | The new store is ClearTokens of the old one; dispatch and navigation logs are untouched |
| `SessionService.AuthService.Logout` | src/app/modules/auth/services/auth.service.ts:75-79 | Clears both tokens, appends one Logout to the dispatch log and navigates to the post-logout target; no HTTP call is involved |
| `SessionService.LogoutSession` | src/app/modules/auth/services/auth.service.ts:75-79 | Whatever was dispatched before, the session store after the Logout is an initialized guest |
| `SessionService.Me` | src/app/modules/auth/services/auth.service.ts:59-67 | Dispatches nothing exactly when the profile fetch succeeds, and then yields its body; on any error dispatches Logout and yields null instead of failing |
| `SessionService.SignIn` | src/app/modules/auth/services/auth.service.ts:36-54 | Given the POST and profile outcomes as the interceptor hands them back: a failing POST leaves the token map unchanged, dispatches nothing, does not navigate and fails with that outcome's error. Otherwise the map is StoreTokens of the old one when the body is present and unchanged when it is absent. Exactly one SetUser of the fetched profile is dispatched when the profile fetch succeeds; a failed profile fetch dispatches exactly Logout and then SetUser(null). `me`'s result is emitted. Navigation happens exactly when `next` is non-empty, and goes to `next` |
| `SessionService.SignInSession` | src/app/modules/auth/services/auth.service.ts:36-67 | After a sign-in the session store is unchanged if the POST failed, logged in with the profile exactly when the profile fetch returned a valid user, and an initialized guest otherwise |
| `AuthInterceptor.Prepare` | src/app/modules/auth/interceptors/http.interceptor.ts:41-71 | A bypass request or a URL outside `/api/` is forwarded unchanged; an `/api/` URL becomes `apiUrl + "/" + rest` and its headers are replaced by exactly the auth header for a stored access token, or by none |
| `AuthInterceptor.Step` | src/app/modules/auth/interceptors/http.interceptor.ts:77-125 | A refresh call is issued exactly for a 401 with a refresh token stored and the flag clear, and the flag is then set; every other error clears the flag; a refresh response clears it; a refresh error leaves it |
| `AuthInterceptor.AuthHttpInterceptor.constructor` | src/app/modules/auth/interceptors/http.interceptor.ts:26-30 | The flag starts clear with no refresh under way |
| `AuthInterceptor.AuthHttpInterceptor.Intercept` | src/app/modules/auth/interceptors/http.interceptor.ts:32-74 | The forwarded request is Prepare of the request with the access token stored at that moment; the error handler is attached exactly when the request is not bypass-marked |
| `AuthInterceptor.AuthHttpInterceptor.OnDownstreamError` | src/app/modules/auth/interceptors/http.interceptor.ts:75-126 | A bypass request's error is passed on and the flag is untouched; otherwise the flag follows Step; a refresh GET to `apiUrl + "/auth/refresh"`, authorised with the stored refresh token, is issued exactly when Step starts one, and the flag is set before it is returned; any other error is rethrown unchanged |
| `AuthInterceptor.AuthHttpInterceptor.OnRefreshResponse` | src/app/modules/auth/interceptors/http.interceptor.ts:94-113 | With an access token in the response: the store holds that token and the refresh token read at error time, and the retry carries the new auth header; without one: nothing is stored and the retry is the previous request; the flag is clear when the retry is issued |
| `AuthInterceptor.AuthHttpInterceptor.OnRefreshError` | src/app/modules/auth/interceptors/http.interceptor.ts:114-120 | A refresh error surfaces as 'UNAUTHORIZED' and the flag is left as it was |
| `AuthInterceptor.AuthHttpInterceptor.OnRetryError` | src/app/modules/auth/interceptors/http.interceptor.ts:106-119 | Any error of the retried request surfaces as 'UNAUTHORIZED'; it never starts a second refresh |
| `AuthInterceptor.TwoConcurrent401s` | src/app/modules/auth/interceptors/http.interceptor.ts:81-125 | From any state with the flag clear, the 401 errors of two requests, with a refresh token stored, start exactly one refresh between them. A later error of that refresh call re-enters the interceptor and is not covered (see "## Findings") |
| `AuthInterceptor.SingleFlightBroken` | src/app/modules/auth/interceptors/http.interceptor.ts:81-125 | Three successive 401s, with a refresh token stored, leave two refresh calls unanswered at once |
| `AuthInterceptor.ThreeConcurrent401s` | src/app/modules/auth/interceptors/http.interceptor.ts:75-126 | On one interceptor object, the first and third of three 401s both issue a refresh call and the second is rethrown |
| `AuthInterceptor.FailedRefreshKeepsFlag` | src/app/modules/auth/interceptors/http.interceptor.ts:95-124 | A refresh failure that does not pass through the interceptor's error handler leaves the flag set with nothing under way. That happens when the refresh body is null and reading its access token throws at :97, or when the store write at :99 throws. The next 401 is then rethrown (and clears the flag) instead of refreshing |
| `AuthInterceptor.RefreshHttpFailureClearsFlag` | src/app/modules/auth/interceptors/http.interceptor.ts:81-124 | An HTTP failure of the unmarked refresh call re-enters the error handler while the flag is set. It does not trigger, so :124 clears the flag before the error becomes `'UNAUTHORIZED'` at :117-118. Afterwards nothing is under way and the next 401 with a refresh token starts a refresh again |
| `AuthInterceptor.StepSingleFlight` | src/app/modules/auth/interceptors/http.interceptor.ts:79-125 | Corrected flag: a refresh is issued under the same condition, an error that issues none leaves the state alone, and any refresh answer clears the flag |
| `AuthInterceptor.SingleFlightHolds` | src/app/modules/auth/interceptors/http.interceptor.ts:81-125 | Under the corrected flag, every interleaving keeps at most one refresh unanswered, with the flag set exactly while one is |
| `AuthInterceptor.SingleFlightRecovers` | src/app/modules/auth/interceptors/http.interceptor.ts:114-124 | Under the corrected flag, from any state and after any events, once a refresh has failed the next 401 with a refresh token starts a refresh of its own |
| `Bootstrap.InitializeApp` | src/app/modules/auth/config/auth.initializer.ts:17-60 | With no truthy refresh token it makes no call, dispatches nothing and resolves to null. Otherwise it first GETs `apiUrl + "/auth/refresh"` with the refresh token and, only after that succeeds, GETs `apiUrl + "/auth/me"` with the new access token, both bypass-marked. It dispatches exactly one `SetUser(profile)` when both calls succeed, and nothing (resolving to null) when either fails |
| `Bootstrap.BootReadsOnlyRefreshToken` | src/app/modules/auth/config/auth.initializer.ts:23-57 | Start-up depends on storage only through the refresh-token entry; it writes nothing, so the new access token is not persisted |
| `Bootstrap.BootSession` | src/app/modules/auth/config/auth.initializer.ts:49-55 | After start-up the session store still has its defaults (even `initialized` false) if nothing was dispatched; otherwise it is logged in exactly when the profile holds a valid user |
| `Bootstrap.BootLogsIn` | src/app/modules/auth/config/auth.initializer.ts:30-53 | Refresh token stored, access token "A" refreshed, profile with id 7: the profile call carries "A" and start-up ends logged in as that user |

## Left out

- HttpClient, RxJS observables and operators, the NGXS store, the Router and LocalStorageService are not part of this model. HTTP outcomes are parameters (`Fetch`) or method calls, storage is a `map<string, string>`, and dispatch and navigation are logged values.
- Real asynchronous scheduling is left out. Concurrency is represented only as interleavings of handler calls on one interceptor object.
- The functional `authHttpInterceptor` (src/app/modules/auth/interceptors/http.interceptor.ts:131-194) is not modelled, because it is not registered. Its flag is a fresh local on every call, so it never guards anything. Its refresh is a POST that sends the headers object as the body.
- `BuildAuthHttpHeaders` lives in the auth utils, which are not part of this model. Its header format is abstracted to an injective token-carrying header set. `BuildAuthHttpHeaders(undefined)` in the initializer becomes a header set without a token.
- The values of ACCESS_TOKEN_KEY and REFRESH_TOKEN_KEY live in the auth config, which is not part of this model. Two distinct placeholder strings stand in for them.
- The interceptor reads `apiUrl` through `inject(AUTH_MODULE_CONFIG)` on each call. The model gives the object a fixed `apiUrl`.
- The endpoint constants and the application providers are left out, apart from the registration of the class interceptor.
- SessionService.SignIn: the sign-in POST and the profile GET are not bypass-marked, so both pass through the interceptor. Their outcomes are taken as the interceptor hands them back. On that path the interceptor may store a refreshed access token, and it may fail the call with `'UNAUTHORIZED'` instead of an HTTP error. Both effects are modelled only in `AuthInterceptor`. `SignInEffects.storage` holds only the service's own writes, and `Failed` carries an HTTP error rather than that string.
- Bootstrap.InitializeApp: a null refresh body is not a `RefreshBody`. Reading its access token throws, and the error is absorbed like a failed call, with one request, no dispatch and a null result. A caller passes such a body as `Failed`.
- A successful response passes through `intercept` unchanged. The model has no handler for this because nothing changes.
- A storage read is a plain map lookup. The behaviour of LocalStorageService on unavailable storage is not part of this model.

## Findings

| source | as written | input that shows it | evidently intended | confidence | as-written member | corrected member |
|---|---|---|---|---|---|---|
| src/app/modules/auth/interceptors/http.interceptor.ts:123-125 | Any error that does not start a refresh clears `isRefreshingAuthToken`, including a 401 rejected because a refresh is already under way | A refresh token is stored. Requests a, b and c all get 401 in turn: a starts a refresh; b is rejected and clears the flag; c then starts a second refresh while a's is still unanswered | At most one refresh in flight per interceptor (the guard's own comment at :84): an error that starts no refresh leaves the flag alone, and the refresh answer, success or failure, clears it | medium, not executed | `AuthInterceptor.SingleFlightBroken` | `AuthInterceptor.SingleFlightHolds` |

With only two requests the code makes two refresh calls in total, one after the other. a and b both get 401: a starts a refresh, and b is rejected and clears the flag. a's refresh call is itself unmarked. When it is answered 401, its error re-enters the interceptor, finds the flag clear and issues a second refresh call. a's first refresh call has been answered by then, but its pipeline (lines 97 and 117) is still waiting on the second. The two calls never overlap, so this breaks the promise of one refresh per 401 burst, not the single-flight rule. The model's `inFlight` counts open refresh pipelines, so it reads 2 here too.
