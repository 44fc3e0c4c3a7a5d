/** The start-up initializer: with a stored refresh token it exchanges the token
    for a fresh access token, fetches the profile with it, and dispatches
    SetUser; every failure is absorbed. */
module Bootstrap {
  import opened Http
  import opened SessionState
  import opened SessionService

  /** What one start-up run does: the HTTP calls it makes, in order, the actions
      it dispatches, and whether its promise resolves to null. */
  datatype BootRun = BootRun(requests: seq<Request>, dispatched: seq<Action>, resolvesNull: bool)

  /** The refresh call: a GET authorised with the refresh token, marked to bypass the interceptor. */
  function RefreshRequest(apiUrl: string, refreshToken: string): Request {
    Request(Get, apiUrl + "/auth/refresh", BuildAuthHeaders(refreshToken), true)
  }

  /** The profile call: a GET authorised with the access token of the refresh
      response, marked to bypass the interceptor. A missing access token is
      passed on as it is. */
  function ProfileRequest(apiUrl: string, body: RefreshBody): Request {
    Request(Get, apiUrl + "/auth/me", Headers(body.accessToken, map[]), true)
  }

  /** `initializeApp` followed by running the thunk it returns, given the
      outcomes of the refresh call and of the profile call. A null refresh body
      makes reading its access token throw, and that error is absorbed like a
      failed call, so it is passed in as `Failed`. */
  function InitializeApp(storage: map<string, string>, apiUrl: string,
                         refresh: Fetch<RefreshBody>, profile: Fetch<Option<User>>): (r: BootRun)
    ensures !Truthy(Lookup(storage, RefreshTokenKey)) ==> r == BootRun([], [], true)
    ensures Truthy(Lookup(storage, RefreshTokenKey)) ==>
      |r.requests| == (if refresh.Fetched? then 2 else 1) &&
      r.requests[0] == RefreshRequest(apiUrl, Lookup(storage, RefreshTokenKey).value)
    ensures Truthy(Lookup(storage, RefreshTokenKey)) && refresh.Fetched? ==>
      r.requests[1] == ProfileRequest(apiUrl, refresh.body)
    ensures forall q :: q in r.requests ==> q.verb == Get && q.bypass
    ensures r.dispatched != [] <==>
      Truthy(Lookup(storage, RefreshTokenKey)) && refresh.Fetched? && profile.Fetched?
    ensures r.dispatched != [] ==> r.dispatched == [SetUser(profile.body)]
    ensures r.resolvesNull <==> r.dispatched == []
  {
    var refreshToken := Lookup(storage, RefreshTokenKey);
    if !Truthy(refreshToken) then BootRun([], [], true)
    else
      var first := RefreshRequest(apiUrl, refreshToken.value);
      match refresh
      case Failed(_) => BootRun([first], [], true)
      case Fetched(body) =>
        var second := ProfileRequest(apiUrl, body);
        match profile
        case Failed(_) => BootRun([first, second], [], true)
        case Fetched(user) => BootRun([first, second], [SetUser(user)], false)
  }

  /** Start-up reads the store only under the refresh-token key: two stores
      that agree there give the same run. It writes nothing, and the fresh
      access token is not persisted. */
  lemma BootReadsOnlyRefreshToken(m1: map<string, string>, m2: map<string, string>, apiUrl: string,
                                  refresh: Fetch<RefreshBody>, profile: Fetch<Option<User>>)
    requires Lookup(m1, RefreshTokenKey) == Lookup(m2, RefreshTokenKey)
    ensures InitializeApp(m1, apiUrl, refresh, profile) == InitializeApp(m2, apiUrl, refresh, profile)
  {
  }

  /** The session store after start-up: the defaults when nothing was
      dispatched (not even `initialized` is set), else logged in exactly when
      the profile holds a valid user. */
  lemma BootSession(storage: map<string, string>, apiUrl: string,
                    refresh: Fetch<RefreshBody>, profile: Fetch<Option<User>>)
    ensures var r := InitializeApp(storage, apiUrl, refresh, profile);
      ApplyAll(Defaults, r.dispatched) ==
        if r.dispatched == [] then Defaults
        else if ValidUser(profile.body) then AuthState(true, false, profile.body)
        else AuthState(true, true, None)
  {
    ApplyAllMeaning(Defaults, InitializeApp(storage, apiUrl, refresh, profile).dispatched);
  }

  /** A stored refresh token, a refresh answered with access token "A" and a
      profile with id 7: start-up ends logged in as that user. */
  lemma BootLogsIn(storage: map<string, string>, apiUrl: string, u: User)
    requires Lookup(storage, RefreshTokenKey) == Some("R")
    requires u.userId == 7
    ensures var r := InitializeApp(storage, apiUrl, Fetched(RefreshBody(Some("A"))), Fetched(Some(u)));
      r.requests[1].headers == BuildAuthHeaders("A") &&
      ApplyAll(Defaults, r.dispatched) == AuthState(true, false, Some(u))
  {
    BootSession(storage, apiUrl, Fetched(RefreshBody(Some("A"))), Fetched(Some(u)));
  }
}
