/**
 * The client's session: the reducer over `{isAuthenticated, token,
 * isLoading, user}`, the starting state derived from the stored token, and
 * the provider's `login`, `register`, `logout` and startup profile check,
 * which dispatch actions and write the stored token. Network responses are
 * parameters: a success with its body, a non-OK response with its `detail`,
 * or a thrown error with its message.
 */
module AuthContext {
  import opened Wrappers
  import opened Fetch

  /** The `/api/auth/me` payload, as far as the client reads it. */
  datatype Profile = Profile(id: int, email: string, isSupervisor: bool)

  datatype AuthState = AuthState(isAuthenticated: bool, token: Option<string>, isLoading: bool, user: Option<Profile>)

  /** The four action types; `Other` stands for any action the reducer does not know. */
  datatype AuthAction =
    | LoginSuccess(accessToken: string)
    | Logout
    | SetLoading(loading: bool)
    | SetUser(profile: Option<Profile>)
    | Other

  // ---------------------------------------------------------------------
  // getInitialState and authReducer
  // ---------------------------------------------------------------------

  function InitialState(stored: Option<string>): (s: AuthState)
    ensures s.isAuthenticated <==> Truthy(stored)
    ensures s.token == stored && !s.isLoading && s.user.None?
  {
    AuthState(Truthy(stored), stored, false, None)
  }

  function Reduce(s: AuthState, a: AuthAction): (r: AuthState)
    ensures a.LoginSuccess? ==> r == s.(isAuthenticated := true, token := Some(a.accessToken), isLoading := false)
    ensures a.Logout? ==> !r.isAuthenticated && r.token.None? && r.user.None? && r.isLoading == s.isLoading
    ensures a.SetLoading? ==> r == s.(isLoading := a.loading)
    ensures a.SetUser? ==> r == s.(user := a.profile)
    ensures a.Other? ==> r == s
  {
    match a
    case LoginSuccess(t) => s.(isAuthenticated := true, token := Some(t), isLoading := false)
    case Logout => s.(isAuthenticated := false, token := None, user := None)
    case SetLoading(b) => s.(isLoading := b)
    case SetUser(u) => s.(user := u)
    case Other => s
  }

  /** Whoever is signed in holds a token. */
  predicate TokenInvariant(s: AuthState) {
    s.isAuthenticated ==> s.token.Some?
  }

  lemma InitialStateHasInvariant(stored: Option<string>)
    ensures TokenInvariant(InitialState(stored))
  {
  }

  lemma ReducePreservesInvariant(s: AuthState, a: AuthAction)
    requires TokenInvariant(s)
    ensures TokenInvariant(Reduce(s, a))
  {
  }

  lemma LogoutIdempotent(s: AuthState)
    ensures Reduce(Reduce(s, Logout), Logout) == Reduce(s, Logout)
  {
  }

  /** The state after dispatching `actions` in order. */
  function ReduceAll(s: AuthState, actions: seq<AuthAction>): AuthState
    decreases |actions|
  {
    if actions == [] then s else ReduceAll(Reduce(s, actions[0]), actions[1..])
  }

  lemma {:induction false} ReduceAllAppend(s: AuthState, xs: seq<AuthAction>, ys: seq<AuthAction>)
    ensures ReduceAll(s, xs + ys) == ReduceAll(ReduceAll(s, xs), ys)
    decreases |xs|
  {
    if xs == [] {
      assert xs + ys == ys;
    } else {
      assert (xs + ys)[0] == xs[0];
      assert (xs + ys)[1..] == xs[1..] + ys;
      ReduceAllAppend(Reduce(s, xs[0]), xs[1..], ys);
    }
  }

  /** Every sequence of dispatches keeps the token invariant. */
  lemma {:induction false} ReduceAllPreservesInvariant(s: AuthState, actions: seq<AuthAction>)
    requires TokenInvariant(s)
    ensures TokenInvariant(ReduceAll(s, actions))
    decreases |actions|
  {
    if actions != [] {
      ReducePreservesInvariant(s, actions[0]);
      ReduceAllPreservesInvariant(Reduce(s, actions[0]), actions[1..]);
    }
  }

  // ---------------------------------------------------------------------
  // login and register, as the actions they dispatch and the result they return
  // ---------------------------------------------------------------------

  datatype AuthResult = AuthResult(success: bool, error: Option<string>)

  const LOGIN_FAILED := "Login failed"
  const REGISTRATION_FAILED := "Registration failed"

  /** The actions `login` dispatches for a login response and, after a success, a profile response. */
  function LoginActions(login: Response<string>, profile: Response<Profile>): seq<AuthAction> {
    if !login.Success? then [SetLoading(true), SetLoading(false)]
    else match profile
      case Success(u) => [SetLoading(true), LoginSuccess(login.body), SetUser(Some(u))]
      case Failure(_) => [SetLoading(true), LoginSuccess(login.body)]
      case Thrown(_) => [SetLoading(true), LoginSuccess(login.body), SetLoading(false)]
  }

  function LoginResult(login: Response<string>, profile: Response<Profile>): (r: AuthResult)
    ensures r.success <==> login.Success? && !profile.Thrown?
    ensures r.success ==> r.error.None?
    ensures !login.Success? ==> r.error == Some(ErrorText(login, LOGIN_FAILED))
  {
    if !login.Success? then AuthResult(false, Some(ErrorText(login, LOGIN_FAILED)))
    else if profile.Thrown? then AuthResult(false, Some(profile.message.GetOr(LOGIN_FAILED)))
    else AuthResult(true, None)
  }

  lemma ReduceTwo(s: AuthState, a: AuthAction, b: AuthAction)
    ensures ReduceAll(s, [a, b]) == Reduce(Reduce(s, a), b)
  {
    assert [a, b][1..] == [b];
    assert [b][1..] == [];
    assert ReduceAll(Reduce(s, a), [b]) == ReduceAll(Reduce(Reduce(s, a), b), []);
  }

  lemma ReduceThree(s: AuthState, a: AuthAction, b: AuthAction, c: AuthAction)
    ensures ReduceAll(s, [a, b, c]) == Reduce(Reduce(Reduce(s, a), b), c)
  {
    assert [a, b, c][1..] == [b, c];
    ReduceTwo(Reduce(s, a), b, c);
  }

  /** The state `login` leaves, case by case. */
  lemma LoginUnfold(s: AuthState, login: Response<string>, profile: Response<Profile>)
    ensures !login.Success? ==> ReduceAll(s, LoginActions(login, profile)) == s.(isLoading := false)
    ensures login.Success? ==>
              var s1 := s.(isAuthenticated := true, token := Some(login.body), isLoading := false);
              ReduceAll(s, LoginActions(login, profile))
              == if profile.Success? then s1.(user := Some(profile.body)) else s1
  {
    if !login.Success? {
      ReduceTwo(s, SetLoading(true), SetLoading(false));
    } else if profile.Failure? {
      ReduceTwo(s, SetLoading(true), LoginSuccess(login.body));
    } else {
      ReduceThree(s, SetLoading(true), LoginSuccess(login.body), LoginActions(login, profile)[2]);
    }
  }

  /** `login` always ends with the loading flag cleared. */
  lemma LoginClearsLoading(s: AuthState, login: Response<string>, profile: Response<Profile>)
    ensures !ReduceAll(s, LoginActions(login, profile)).isLoading
  {
    LoginUnfold(s, login, profile);
  }

  /** A refused or failed login leaves the session as it was, apart from the loading flag. */
  lemma FailedLoginKeepsSession(s: AuthState, login: Response<string>, profile: Response<Profile>)
    requires !login.Success?
    ensures ReduceAll(s, LoginActions(login, profile)) == s.(isLoading := false)
    ensures !LoginResult(login, profile).success
  {
    LoginUnfold(s, login, profile);
  }

  /**
   * A profile request that throws after the login succeeded: the call
   * reports failure, yet the session is signed in with the new token.
   */
  lemma ThrownProfileKeepsSession(s: AuthState, token: string, m: Option<string>)
    ensures var s' := ReduceAll(s, LoginActions(Success(token), Thrown(m)));
      && s'.isAuthenticated && s'.token == Some(token) && s'.user == s.user
      && !LoginResult(Success(token), Thrown(m)).success
  {
    LoginUnfold(s, Success(token), Thrown(m));
  }

  /** A non-OK profile response still counts as a successful login, with `user` as it was. */
  lemma RejectedProfileStillSucceeds(s: AuthState, token: string, d: Option<string>)
    ensures var s' := ReduceAll(s, LoginActions(Success(token), Failure(d)));
      && s'.isAuthenticated && s'.user == s.user
      && LoginResult(Success(token), Failure(d)) == AuthResult(true, None)
  {
    LoginUnfold(s, Success(token), Failure(d));
  }

  /** The registration form's fields; `isSupervisor` is whatever the form holds, possibly nothing. */
  datatype RegisterCredentials = RegisterCredentials(
    email: string, password: string, confirmPassword: string, isSupervisor: Option<bool>,
    rest: map<string, string>)

  datatype RegisterPayload = RegisterPayload(email: string, password: string, isSupervisor: bool, rest: map<string, string>)

  /** `confirmPassword` is dropped and `is_supervisor` coerced with `Boolean(...)`. */
  function RegisterPayloadOf(c: RegisterCredentials): (p: RegisterPayload)
    ensures p.email == c.email && p.password == c.password && p.rest == c.rest
    ensures p.isSupervisor <==> c.isSupervisor == Some(true)
  {
    RegisterPayload(c.email, c.password, c.isSupervisor.GetOr(false), c.rest)
  }

  // ---------------------------------------------------------------------
  // AuthProvider
  // ---------------------------------------------------------------------

  /** The provider: the reducer's current state and the token kept in `localStorage`. */
  class AuthProvider {
    var state: AuthState
    var storedToken: Option<string>

    constructor (stored: Option<string>)
      ensures state == InitialState(stored) && storedToken == stored
      ensures TokenInvariant(state)
    {
      state := InitialState(stored);
      storedToken := stored;
    }

    method Dispatch(a: AuthAction)
      modifies this
      ensures state == Reduce(old(state), a) && storedToken == old(storedToken)
    {
      state := Reduce(state, a);
    }

    method Login(login: Response<string>, profile: Response<Profile>) returns (r: AuthResult)
      modifies this
      ensures state == ReduceAll(old(state), LoginActions(login, profile))
      ensures storedToken == (if login.Success? then Some(login.body) else old(storedToken))
      ensures r == LoginResult(login, profile)
    {
      LoginUnfold(state, login, profile);
      Dispatch(SetLoading(true));
      if !login.Success? {
        Dispatch(SetLoading(false));
        return AuthResult(false, Some(ErrorText(login, LOGIN_FAILED)));
      }
      storedToken := Some(login.body);
      Dispatch(LoginSuccess(login.body));
      match profile {
        case Success(u) =>
          Dispatch(SetUser(Some(u)));
          r := AuthResult(true, None);
        case Failure(_) =>
          r := AuthResult(true, None);
        case Thrown(m) =>
          Dispatch(SetLoading(false));
          r := AuthResult(false, Some(m.GetOr(LOGIN_FAILED)));
      }
    }

    /**
     * `register`: on a refused or failed registration the loading flag is
     * cleared and the error returned; otherwise the result is that of
     * `login` with the same email and password.
     */
    method Register(c: RegisterCredentials, registration: Response<Profile>, login: Response<string>,
                    profile: Response<Profile>)
      returns (payload: RegisterPayload, r: AuthResult)
      modifies this
      ensures payload == RegisterPayloadOf(c)
      ensures !registration.Success? ==>
                && state == old(state).(isLoading := false) && storedToken == old(storedToken)
                && r == AuthResult(false, Some(ErrorText(registration, REGISTRATION_FAILED)))
      ensures registration.Success? ==>
                && state == ReduceAll(old(state), [SetLoading(true)] + LoginActions(login, profile))
                && storedToken == (if login.Success? then Some(login.body) else old(storedToken))
                && r == LoginResult(login, profile)
    {
      Dispatch(SetLoading(true));
      payload := RegisterPayloadOf(c);
      if !registration.Success? {
        Dispatch(SetLoading(false));
        return payload, AuthResult(false, Some(ErrorText(registration, REGISTRATION_FAILED)));
      }
      r := Login(login, profile);
      ReduceAllAppend(old(state), [SetLoading(true)], LoginActions(login, profile));
    }

    method Logout()
      modifies this
      ensures state == Reduce(old(state), AuthAction.Logout) && storedToken.None?
    {
      storedToken := None;
      Dispatch(AuthAction.Logout);
    }

    /**
     * The check run while rendering the provider: with a stored token and no
     * user yet, the profile response decides. An accepted token loads the
     * user; a rejected one is removed and the session logged out; a thrown
     * request changes nothing.
     */
    method CheckProfile(profile: Response<Profile>)
      modifies this
      ensures !Truthy(old(storedToken)) || old(state).user.Some? ==> state == old(state) && storedToken == old(storedToken)
      ensures Truthy(old(storedToken)) && old(state).user.None? ==>
                match profile
                case Success(u) => state == old(state).(user := Some(u)) && storedToken == old(storedToken)
                case Failure(_) => state == Reduce(old(state), AuthAction.Logout) && storedToken.None?
                case Thrown(_) => state == old(state) && storedToken == old(storedToken)
    {
      if Truthy(storedToken) && state.user.None? {
        match profile {
          case Success(u) =>
            Dispatch(SetUser(Some(u)));
          case Failure(_) =>
            storedToken := None;
            Dispatch(AuthAction.Logout);
          case Thrown(_) =>
        }
      }
    }
  }
}
