/** The session store: a reducer over `{initialized, isGuest, user}` driven by
    two actions, SetUser and Logout. */
module SessionState {
  import opened Http

  datatype Role = Admin | HrManager | DepartmentManager | Employee

  datatype User = User(userId: int, name: string, email: string, role: Role, org: Org)

  datatype Org = Org(orgId: int, name: string, employees: seq<User>)

  datatype AuthState = AuthState(initialized: bool, isGuest: bool, user: Option<User>)

  datatype Action = SetUser(payload: Option<User>) | Logout

  /** The state the store starts in. */
  const Defaults := AuthState(false, true, None)

  /** `!!user?.userId`: a user is kept only when present with a non-zero id;
      a negative id is accepted. */
  predicate ValidUser(u: Option<User>) {
    u.Some? && u.value.userId != 0
  }

  /** What every handled action leaves behind: the store is initialized and
      is a guest exactly when it holds no user. */
  predicate Settled(s: AuthState) {
    s.initialized && (s.isGuest <==> s.user.None?)
  }

  /** The two action handlers. */
  function Apply(s: AuthState, a: Action): (r: AuthState)
    ensures Settled(r)
    ensures r.user.Some? <==> a.SetUser? && ValidUser(a.payload)
    ensures r.user.Some? ==> r.user == a.payload
  {
    match a
    case SetUser(u) =>
      var valid := ValidUser(u);
      s.(user := if valid then u else None, isGuest := !valid, initialized := true)
    case Logout =>
      AuthState(true, true, None)
  }

  /** The store after a sequence of dispatched actions, in order. */
  function ApplyAll(s: AuthState, acts: seq<Action>): AuthState
    decreases |acts|
  {
    if acts == [] then s else ApplyAll(Apply(s, acts[0]), acts[1..])
  }

  /** Both handlers overwrite every field, so the prior state never matters. */
  lemma ApplyForgetsPriorState(s: AuthState, t: AuthState, a: Action)
    ensures Apply(s, a) == Apply(t, a)
  {
  }

  lemma LogoutIdempotent(s: AuthState)
    ensures Apply(Apply(s, Logout), Logout) == Apply(s, Logout)
    ensures Apply(s, Logout) == AuthState(true, true, None)
  {
  }

  lemma LogoutWinsAfterSetUser(s: AuthState, u: Option<User>)
    ensures ApplyAll(s, [SetUser(u), Logout]) == ApplyAll(s, [Logout])
  {
    assert [SetUser(u), Logout][1..] == [Logout];
  }

  /** After a non-empty sequence of actions only the last one decides the state. */
  lemma {:induction false} LastActionDecides(s: AuthState, acts: seq<Action>)
    requires acts != []
    ensures ApplyAll(s, acts) == Apply(Defaults, acts[|acts| - 1])
    decreases |acts|
  {
    ApplyForgetsPriorState(s, Defaults, acts[0]);
    if |acts| > 1 {
      LastActionDecides(Apply(s, acts[0]), acts[1..]);
    }
  }

  /** Once initialized, the store never goes back to uninitialized, and
      `isGuest` keeps matching the absence of a user. */
  lemma {:induction false} SettledPersists(s: AuthState, acts: seq<Action>)
    requires Settled(s) || acts != []
    ensures Settled(ApplyAll(s, acts))
    decreases |acts|
  {
    if acts != [] {
      SettledPersists(Apply(s, acts[0]), acts[1..]);
    }
  }

  /** The store after any actions: the starting state when none were
      dispatched, else a logged-in user only if the last action set a valid one. */
  lemma {:induction false} ApplyAllMeaning(s: AuthState, acts: seq<Action>)
    ensures acts == [] ==> ApplyAll(s, acts) == s
    ensures acts != [] ==>
      var last := acts[|acts| - 1];
      ApplyAll(s, acts) ==
        if last.SetUser? && ValidUser(last.payload) then AuthState(true, false, last.payload)
        else AuthState(true, true, None)
  {
    if acts != [] {
      LastActionDecides(s, acts);
    }
  }
}
