/** The client-side session state (frontend/src/contexts/AuthContext.js):
    the initial state and the reducer that every dispatched action goes
    through. */
module AuthContext {
  import opened Common

  /** The user object the server returns; the reducer never inspects it. */
  datatype Profile = Profile(id: UserId, role: Role, email: string)

  datatype AuthState = AuthState(user: Option<Profile>, token: Option<string>, isLoading: bool, isAuthenticated: bool)

  datatype Action =
    | AuthSuccess(user: Option<Profile>, token: Option<string>)
    | AuthFail
    | Logout
    | SetLoading(loading: bool)
    | Unknown(kind: string)

  /** initialState: no user, loading, not authenticated, the stored token. */
  function Initial(storedToken: Option<string>): (s: AuthState)
    ensures s.user.None? && s.isLoading && !s.isAuthenticated && s.token == storedToken
  {
    AuthState(None, storedToken, true, false)
  }

  /** authReducer. */
  function Reduce(s: AuthState, a: Action): AuthState {
    match a
    case AuthSuccess(user, token) => s.(user := user, token := token, isAuthenticated := true, isLoading := false)
    case AuthFail => s.(user := None, token := None, isAuthenticated := false, isLoading := false)
    case Logout => s.(user := None, token := None, isAuthenticated := false, isLoading := false)
    case SetLoading(loading) => s.(isLoading := loading)
    case Unknown(_) => s
  }

  /** The reducer applied to a sequence of dispatched actions, in order. */
  function Run(s: AuthState, actions: seq<Action>): AuthState
    decreases |actions|
  {
    if actions == [] then s else Run(Reduce(s, actions[0]), actions[1..])
  }

  /** Only an authenticated state carries a user. */
  predicate Inv(s: AuthState) {
    !s.isAuthenticated ==> s.user.None?
  }

  /** A successful authentication stores the payload's user and token and
      ends loading. */
  lemma SuccessAuthenticates(s: AuthState, user: Option<Profile>, token: Option<string>)
    ensures var r := Reduce(s, AuthSuccess(user, token));
      r.user == user && r.token == token && r.isAuthenticated && !r.isLoading
  {
  }

  /** A failed authentication and a logout give the same state, which has no
      user and no token, and repeating either changes nothing. */
  lemma FailIsLogout(s: AuthState)
    ensures Reduce(s, AuthFail) == Reduce(s, Logout)
    ensures var r := Reduce(s, Logout);
      r.user.None? && r.token.None? && !r.isAuthenticated && !r.isLoading
    ensures Reduce(Reduce(s, Logout), Logout) == Reduce(s, Logout)
    ensures Reduce(Reduce(s, AuthFail), AuthFail) == Reduce(s, AuthFail)
  {
  }

  /** SET_LOADING changes only the loading flag; an unknown action nothing. */
  lemma LoadingOnlyTouchesLoading(s: AuthState, loading: bool, kind: string)
    ensures Reduce(s, SetLoading(loading)) == s.(isLoading := loading)
    ensures Reduce(s, Unknown(kind)) == s
  {
  }

  /** Every action preserves the invariant. */
  lemma ReducePreservesInv(s: AuthState, a: Action)
    requires Inv(s)
    ensures Inv(Reduce(s, a))
  {
  }

  /** The invariant holds in every state reachable from the initial one. */
  lemma {:induction false} RunPreservesInv(s: AuthState, actions: seq<Action>)
    requires Inv(s)
    ensures Inv(Run(s, actions))
    decreases |actions|
  {
    if actions != [] {
      ReducePreservesInv(s, actions[0]);
      RunPreservesInv(Reduce(s, actions[0]), actions[1..]);
    }
  }

  lemma {:induction false} ReachableStatesKeepInv(storedToken: Option<string>, actions: seq<Action>)
    ensures Inv(Run(Initial(storedToken), actions))
  {
    RunPreservesInv(Initial(storedToken), actions);
  }

  /** Whatever came before, after a logout only a successful authentication
      brings a user or a token back. */
  lemma {:induction false} LogoutIsSticky(s: AuthState, actions: seq<Action>)
    requires forall i :: 0 <= i < |actions| ==> !actions[i].AuthSuccess?
    ensures var r := Run(Reduce(s, Logout), actions);
      !r.isAuthenticated && r.user.None? && r.token.None?
  {
    StaysLoggedOut(Reduce(s, Logout), actions);
  }

  lemma {:induction false} StaysLoggedOut(s: AuthState, actions: seq<Action>)
    requires !s.isAuthenticated && s.user.None? && s.token.None?
    requires forall i :: 0 <= i < |actions| ==> !actions[i].AuthSuccess?
    ensures var r := Run(s, actions);
      !r.isAuthenticated && r.user.None? && r.token.None?
    decreases |actions|
  {
    if actions != [] {
      assert !actions[0].AuthSuccess?;
      StaysLoggedOut(Reduce(s, actions[0]), actions[1..]);
    }
  }
}
