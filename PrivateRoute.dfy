/** The route guard: a decision on the session and the role a route demands. */
module PrivateRoute {
  import opened Outcomes
  import opened Types

  datatype Decision = RedirectToLogin | RedirectToHome | Render

  /** Not logged in: to the login page, whatever the route demands. Logged in
      but without the demanded role (a missing role included): to the home
      page. Otherwise the page renders. */
  function Decide(isAuthenticated: bool, role: Option<Role>, requiredRole: Option<Role>): (d: Decision)
    ensures d == RedirectToLogin <==> !isAuthenticated
    ensures d == RedirectToHome <==> isAuthenticated && requiredRole.Some? && role != requiredRole
    ensures d == Render <==> isAuthenticated && (requiredRole.None? || role == requiredRole)
  {
    if !isAuthenticated then RedirectToLogin
    else if requiredRole.Some? && role != requiredRole then RedirectToHome
    else Render
  }

  /** Where a redirect goes. */
  function Target(d: Decision): Option<string> {
    match d
    case RedirectToLogin => Some("/login")
    case RedirectToHome => Some("/")
    case Render => None
  }

  /** The guard sends to `/login` exactly when nobody is logged in, to `/`
      exactly when the role does not match, and nowhere when the page renders. */
  lemma RedirectTargets(isAuthenticated: bool, role: Option<Role>, requiredRole: Option<Role>)
    ensures Target(Decide(isAuthenticated, role, requiredRole)) == Some("/login") <==> !isAuthenticated
    ensures Target(Decide(isAuthenticated, role, requiredRole)) == Some("/") <==>
      isAuthenticated && requiredRole.Some? && role != requiredRole
    ensures Target(Decide(isAuthenticated, role, requiredRole)).None? <==>
      isAuthenticated && (requiredRole.None? || role == requiredRole)
  {
  }

  /** The three cases named by role: a user is sent home from an admin page,
      an admin may see an admin page, nobody logged out gets past it. */
  lemma DecideExamples(role: Option<Role>, requiredRole: Option<Role>)
    ensures Decide(false, role, requiredRole) == RedirectToLogin
    ensures Decide(true, Some(User), Some(Admin)) == RedirectToHome
    ensures Decide(true, Some(Admin), Some(User)) == RedirectToHome
    ensures Decide(true, None, Some(Admin)) == RedirectToHome
    ensures Decide(true, Some(Admin), Some(Admin)) == Render
    ensures Decide(true, role, None) == Render
  {
  }
}
