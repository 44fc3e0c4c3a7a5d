/** The session service: token persistence in a string-keyed store, and the
    sign-in, profile and logout flows that feed the session store. */
module SessionService {
  import opened Http
  import opened SessionState

  /** The two storage keys. Their spellings are configuration; the model relies
      only on their being distinct. */
  const AccessTokenKey := "ACCESS_TOKEN_KEY"
  const RefreshTokenKey := "REFRESH_TOKEN_KEY"

  /** `getItem`: the stored string, or absent. */
  function Lookup(m: map<string, string>, k: string): Option<string> {
    if k in m then Some(m[k]) else None
  }

  /** The store after `storeAccessTokens`: both keys written, every other key kept. */
  function StoreTokens(m: map<string, string>, access: string, refresh: string): (r: map<string, string>)
    ensures Lookup(r, AccessTokenKey) == Some(access)
    ensures Lookup(r, RefreshTokenKey) == Some(refresh)
    ensures forall k :: k != AccessTokenKey && k != RefreshTokenKey ==> Lookup(r, k) == Lookup(m, k)
  {
    m[AccessTokenKey := access][RefreshTokenKey := refresh]
  }

  /** The store after `clearAccessTokens`: both keys gone, every other key kept. */
  function ClearTokens(m: map<string, string>): (r: map<string, string>)
    ensures Lookup(r, AccessTokenKey) == None
    ensures Lookup(r, RefreshTokenKey) == None
    ensures forall k :: k != AccessTokenKey && k != RefreshTokenKey ==> Lookup(r, k) == Lookup(m, k)
  {
    m - {AccessTokenKey, RefreshTokenKey}
  }

  /** Clearing undoes storing: whatever was stored, the store ends up as if it
      had only been cleared. */
  lemma ClearUndoesStore(m: map<string, string>, access: string, refresh: string)
    ensures ClearTokens(StoreTokens(m, access, refresh)) == ClearTokens(m)
  {
    var l, r := ClearTokens(StoreTokens(m, access, refresh)), ClearTokens(m);
    forall k ensures k in l <==> k in r {
      assert Lookup(l, k) == Lookup(r, k);
    }
  }

  /** A second store replaces both tokens of the first. */
  lemma StoreOverwrites(m: map<string, string>, a1: string, r1: string, a2: string, r2: string)
    ensures StoreTokens(StoreTokens(m, a1, r1), a2, r2) == StoreTokens(m, a2, r2)
  {
  }

  /** The body of a sign-in response. */
  datatype SignInRes = SignInRes(accessToken: string, refreshToken: string)

  /** The service with its side effects made visible: the token store, the
      actions dispatched to the session store and the URLs navigated to. */
  class AuthService {
    var storage: map<string, string>
    var dispatched: seq<Action>
    var navigations: seq<string>
    const afterLogoutRedirect: string

    constructor (storage: map<string, string>, afterLogoutRedirect: string)
      ensures this.storage == storage && this.afterLogoutRedirect == afterLogoutRedirect
      ensures dispatched == [] && navigations == []
    {
      this.storage := storage;
      this.afterLogoutRedirect := afterLogoutRedirect;
      dispatched := [];
      navigations := [];
    }

    method StoreAccessTokens(res: SignInRes)
      modifies this`storage
      ensures storage == StoreTokens(old(storage), res.accessToken, res.refreshToken)
    {
      storage := storage[AccessTokenKey := res.accessToken];
      storage := storage[RefreshTokenKey := res.refreshToken];
    }

    /** The access token last stored, or absent when none is. */
    function RetrieveAccessToken(): (t: Option<string>)
      reads this`storage
      ensures t.Some? <==> AccessTokenKey in storage
      ensures t.Some? ==> t.value == storage[AccessTokenKey]
    {
      Lookup(storage, AccessTokenKey)
    }

    /** The refresh token last stored, or absent when none is. */
    function RetrieveRefreshToken(): (t: Option<string>)
      reads this`storage
      ensures t.Some? <==> RefreshTokenKey in storage
      ensures t.Some? ==> t.value == storage[RefreshTokenKey]
    {
      Lookup(storage, RefreshTokenKey)
    }

    method ClearAccessTokens()
      modifies this`storage
      ensures storage == ClearTokens(old(storage))
    {
      storage := storage - {AccessTokenKey};
      storage := storage - {RefreshTokenKey};
    }

    /** Clears both tokens, dispatches Logout and navigates to the post-logout target. */
    method Logout()
      modifies this
      ensures storage == ClearTokens(old(storage))
      ensures dispatched == old(dispatched) + [Action.Logout]
      ensures navigations == old(navigations) + [afterLogoutRedirect]
    {
      ClearAccessTokens();
      dispatched := dispatched + [Action.Logout];
      navigations := navigations + [afterLogoutRedirect];
    }
  }

  /** What `me()` yields and dispatches. */
  datatype MeResult = MeResult(user: Option<User>, dispatched: seq<Action>)

  /** `me()`: the profile on success with nothing dispatched; on any error a
      Logout is dispatched and null is yielded instead of an error. */
  function Me(profile: Fetch<Option<User>>): (r: MeResult)
    ensures r.dispatched == [] <==> profile.Fetched?
    ensures profile.Fetched? ==> r.user == profile.body
    ensures profile.Failed? ==> r.user.None? && r.dispatched == [Action.Logout]
  {
    match profile
    case Fetched(user) => MeResult(user, [])
    case Failed(_) => MeResult(None, [Action.Logout])
  }

  /** The effects of one `signIn` call. `result` is what its observable emits
      (the profile, possibly null) or the error it fails with. */
  datatype SignInEffects = SignInEffects(
    storage: map<string, string>,
    dispatched: seq<Action>,
    navigation: Option<string>,
    result: Fetch<Option<User>>)

  /** `signIn(dto, next)` given the outcome of the sign-in POST and of the
      profile fetch that follows it. */
  function SignIn(storage: map<string, string>, post: Fetch<Option<SignInRes>>,
                  profile: Fetch<Option<User>>, next: Option<string>): (r: SignInEffects)
    ensures post.Failed? ==> r == SignInEffects(storage, [], None, Failed(post.error))
    ensures r.storage ==
      if post.Fetched? && post.body.Some?
      then StoreTokens(storage, post.body.value.accessToken, post.body.value.refreshToken)
      else storage
    ensures r.navigation.Some? <==> post.Fetched? && Truthy(next)
    ensures r.navigation.Some? ==> r.navigation == next
    ensures post.Fetched? ==> r.result == Fetched(Me(profile).user)
    ensures post.Fetched? && profile.Fetched? ==> r.dispatched == [SetUser(profile.body)]
    ensures post.Fetched? && profile.Failed? ==> r.dispatched == [Action.Logout, SetUser(None)]
  {
    match post
    case Failed(e) => SignInEffects(storage, [], None, Failed(e))
    case Fetched(res) =>
      var stored := if res.Some? then StoreTokens(storage, res.value.accessToken, res.value.refreshToken) else storage;
      var me := Me(profile);
      SignInEffects(stored, me.dispatched + [SetUser(me.user)],
                    if Truthy(next) then next else None, Fetched(me.user))
  }

  /** The session store after a sign-in: unchanged if the POST failed, else
      logged in exactly when the profile fetch returned a valid user. */
  lemma SignInSession(s: AuthState, storage: map<string, string>, post: Fetch<Option<SignInRes>>,
                      profile: Fetch<Option<User>>, next: Option<string>)
    ensures var r := SignIn(storage, post, profile, next);
      ApplyAll(s, r.dispatched) ==
        if post.Failed? then s
        else if profile.Fetched? && ValidUser(profile.body) then AuthState(true, false, profile.body)
        else AuthState(true, true, None)
  {
    ApplyAllMeaning(s, SignIn(storage, post, profile, next).dispatched);
  }

  /** The session store after a logout: a guest, whatever came before. */
  lemma LogoutSession(s: AuthState, acts: seq<Action>)
    ensures ApplyAll(s, acts + [Action.Logout]) == AuthState(true, true, None)
  {
    ApplyAllMeaning(s, acts + [Action.Logout]);
  }
}
