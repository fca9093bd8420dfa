/**
 * The guard around signed-in pages: a loader while the session is being
 * checked, otherwise the page itself only for a complete session (a token,
 * the signed-in flag and a loaded user), and a redirect to the login page
 * for anything less.
 */
module ProtectedRoute {
  import opened Wrappers
  import opened Fetch
  import opened AuthContext

  const LOGIN_PATH := "/login"

  /** What the guard renders: exactly one of these for every session. */
  datatype Render = Loader | Redirect(to: string) | Children

  function Guard(s: AuthState): (r: Render)
    ensures s.isLoading ==> r == Loader
    ensures !s.isLoading ==> (r == Children <==> Truthy(s.token) && s.isAuthenticated && s.user.Some?)
    ensures !s.isLoading && r != Children ==> r == Redirect(LOGIN_PATH)
  {
    if s.isLoading then Loader
    else if !Truthy(s.token) || !s.isAuthenticated || s.user.None? then Redirect(LOGIN_PATH)
    else Children
  }

  /** An empty stored token is falsy: it redirects even for a session marked signed in. */
  lemma EmptyTokenRedirects(s: AuthState)
    requires !s.isLoading && s.token == Some("")
    ensures Guard(s) == Redirect(LOGIN_PATH)
  {
  }

  /** After logging out, the guarded pages stay closed until the next sign-in. */
  lemma LoggedOutIsRedirected(s: AuthState)
    requires !s.isLoading
    ensures Guard(Reduce(s, AuthAction.Logout)) == Redirect(LOGIN_PATH)
  {
  }

  /**
   * A login whose profile request succeeded opens the guarded pages,
   * provided the server issued a non-empty token.
   */
  lemma LoginOpensGuard(s: AuthState, token: string, u: Profile)
    ensures Guard(ReduceAll(s, LoginActions(Success(token), Success(u)))) == Children <==> token != ""
  {
    LoginUnfold(s, Success(token), Success(u));
  }

  /**
   * A session restored from storage at startup is not enough by itself: the
   * user must still be loaded by the profile check.
   */
  lemma StartupNeedsProfile(stored: Option<string>)
    ensures Guard(InitialState(stored)) == Redirect(LOGIN_PATH)
  {
  }
}
