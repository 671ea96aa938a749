/** `authReducer` of the client's auth context: a pure step function over the
    signed-in user, the token, and two flags. The user record is left
    abstract as `U`. */
module AuthReducer {
  import opened Common

  datatype AuthState<U> = AuthState(user: Option<U>, token: Option<string>, isLoading: bool, isAuthenticated: bool)

  /** The actions the auth context dispatches; `Unknown` is any other action
      object, which the reducer's default branch receives. */
  datatype AuthAction<U> =
    | LoginStart
    | LoginSuccess(user: U, token: string)
    | LoginFailure
    | Logout
    | UpdateUser(updated: U)
    | SetLoading(loading: bool)
    | Unknown(kind: string)

  /** The state the provider starts in; `stored` is the token read from local
      storage, which is kept although nobody is signed in yet. */
  function Initial<U>(stored: Option<string>): (s: AuthState<U>)
    ensures s.user.None? && s.token == stored && !s.isLoading && !s.isAuthenticated
  {
    AuthState(None, stored, false, false)
  }

  /** Signed out: no user, no token, not loading, not authenticated. */
  predicate SignedOut<U>(s: AuthState<U>)
  {
    s.user.None? && s.token.None? && !s.isLoading && !s.isAuthenticated
  }

  /** Whenever the state claims to be authenticated it holds a user and a
      token. */
  predicate Consistent<U>(s: AuthState<U>)
  {
    s.isAuthenticated ==> s.user.Some? && s.token.Some?
  }

  /** One reducer step. Each action changes exactly the fields listed for it
      and keeps the rest; failure and logout both sign out, whatever the
      state was. */
  function Reduce<U>(s: AuthState<U>, a: AuthAction<U>): (r: AuthState<U>)
    ensures a.LoginStart? ==> r == s.(isLoading := true)
    ensures a.LoginSuccess? ==> r.user == Some(a.user) && r.token == Some(a.token) && !r.isLoading && r.isAuthenticated
    ensures a.LoginFailure? || a.Logout? ==> SignedOut(r)
    ensures a.UpdateUser? ==> r == s.(user := Some(a.updated))
    ensures a.SetLoading? ==> r == s.(isLoading := a.loading)
    ensures a.Unknown? ==> r == s
    ensures Consistent(s) ==> Consistent(r)
  {
    match a
    case LoginStart => s.(isLoading := true)
    case LoginSuccess(user, token) => s.(user := Some(user), token := Some(token), isLoading := false, isAuthenticated := true)
    case LoginFailure => s.(user := None, token := None, isLoading := false, isAuthenticated := false)
    case Logout => s.(user := None, token := None, isLoading := false, isAuthenticated := false)
    case UpdateUser(updated) => s.(user := Some(updated))
    case SetLoading(loading) => s.(isLoading := loading)
    case Unknown(_) => s
  }

  /** LOGIN_FAILURE and LOGOUT are the same transition. */
  lemma {:induction false} FailureIsLogout<U>(s: AuthState<U>)
    ensures Reduce(s, LoginFailure) == Reduce(s, Logout)
    ensures Reduce(s, Logout) == AuthState(None, None, false, false)
  {
  }

  /** The state after dispatching `actions` in order. */
  function Replay<U>(s: AuthState<U>, actions: seq<AuthAction<U>>): AuthState<U>
    decreases |actions|
  {
    if actions == [] then s else Replay(Reduce(s, actions[0]), actions[1..])
  }

  /** Replaying `a + b` is replaying `a`, then `b`. */
  lemma {:induction false} ReplayAppend<U>(s: AuthState<U>, a: seq<AuthAction<U>>, b: seq<AuthAction<U>>)
    ensures Replay(s, a + b) == Replay(Replay(s, a), b)
    decreases |a|
  {
    if a != [] {
      assert (a + b)[0] == a[0];
      assert (a + b)[1..] == a[1..] + b;
      ReplayAppend(Reduce(s, a[0]), a[1..], b);
    } else {
      assert a + b == b;
    }
  }

  /** Every state the provider can reach from its initial state, by any
      sequence of actions, is consistent: authenticated implies a user and a
      token are present. */
  lemma {:induction false} ReachableConsistent<U>(stored: Option<string>, actions: seq<AuthAction<U>>)
    ensures Consistent(Replay(Initial<U>(stored), actions))
  {
    ReplayPreserves(Initial<U>(stored), actions);
  }

  lemma {:induction false} ReplayPreserves<U>(s: AuthState<U>, actions: seq<AuthAction<U>>)
    requires Consistent(s)
    ensures Consistent(Replay(s, actions))
    decreases |actions|
  {
    if actions != [] {
      ReplayPreserves(Reduce(s, actions[0]), actions[1..]);
    }
  }

  /** Whatever happened before, a final logout leaves the client signed out. */
  lemma {:induction false} LogoutLast<U>(s: AuthState<U>, actions: seq<AuthAction<U>>)
    ensures SignedOut(Replay(s, actions + [Logout]))
  {
    ReplayAppend(s, actions, [Logout]);
  }
}
