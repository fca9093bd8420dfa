/** The `/dashboard` route: the employer or the candidate dashboard, chosen by the loaded user alone. */
module DashboardRouter {
  import opened Wrappers
  import opened Fetch
  import opened AuthContext

  datatype Dashboard = LoginRedirect | EmployerDashboard | CandidateDashboard

  function Route(s: AuthState): (r: Dashboard)
    ensures s.user.None? ==> r == LoginRedirect
    ensures s.user.Some? ==> (r == EmployerDashboard <==> s.user.value.isSupervisor)
    ensures s.user.Some? ==> r != LoginRedirect
  {
    if s.user.None? then LoginRedirect
    else if s.user.value.isSupervisor then EmployerDashboard
    else CandidateDashboard
  }

  /** The choice depends on `user` only: token, signed-in and loading flags play no part. */
  lemma RouteIgnoresSessionFlags(s: AuthState, t: AuthState)
    requires s.user == t.user
    ensures Route(s) == Route(t)
  {
  }
}
