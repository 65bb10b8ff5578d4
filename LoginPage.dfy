/** The login form's submit handler. */
module LoginPage {
  import opened Outcomes
  import opened Types
  import opened AuthProvider
  import opened PrivateRoute
  import AppRoutes

  const DefaultError: string := "email atau password salah"

  /** Where a successful login navigates: the admin dashboard for an admin,
      the home page otherwise. */
  function LandingPath(role: Option<Role>): (p: string)
    ensures role == Some(Admin) ==> p == "/admin/dashboard"
    ensures role != Some(Admin) ==> p == "/"
  {
    if role == Some(Admin) then "/admin/dashboard" else "/"
  }

  class LoginForm {
    var errorMsg: string

    constructor ()
      ensures errorMsg == ""
    {
      errorMsg := "";
    }

    /** `handleLogin`, given the outcome of `POST /auth/login`. On success the
        session record is stored, the store is logged in with its role and the
        path to navigate to is returned; on failure only the error text is set. */
    method HandleLogin(response: Outcome<SessionRecord>, auth: AuthStore, storage: BrowserStorage)
      returns (navigateTo: Option<string>)
      modifies this, auth, storage
      ensures response.Success? ==>
        && storage.entries == old(storage.entries)[SessionKey := Record(response.value)]
        && auth.State() == AuthState(true, response.value.role)
        && navigateTo == Some(LandingPath(response.value.role))
        && errorMsg == old(errorMsg)
      ensures response.Failure? ==>
        && storage.entries == old(storage.entries)
        && auth.State() == old(auth.State())
        && navigateTo == None
        && errorMsg == MessageOr(response.message, DefaultError)
    {
      match response {
        case Success(session) =>
          storage.SetItem(SessionKey, Record(session));
          auth.Login(true, session.role);
          navigateTo := Some(LandingPath(session.role));
        case Failure(message, _) =>
          errorMsg := MessageOr(message, DefaultError);
          navigateTo := None;
      }
    }
  }

  /** After a successful login, a reload hydrates a fresh store to the same
      state exactly when the stored record has a token and a role. */
  lemma ReloadAfterLogin(session: SessionRecord, entries: map<string, Stored>)
    ensures Hydrated(Initial(), entries[SessionKey := Record(session)]) == AuthState(true, session.role)
      <==> HasCredentials(session)
  {
  }

  /** Whoever logs in lands on a page that renders for them; for an admin that
      is the guarded admin dashboard. */
  lemma {:induction false} LandingIsPermitted(session: SessionRecord)
    ensures AppRoutes.Navigate(LandingPath(session.role), AuthState(true, session.role)) == Some(Render)
    ensures session.role == Some(Admin) ==>
      AppRoutes.Routes[LandingPath(session.role)] == AppRoutes.Guarded(Some(Admin))
  {
    AppRoutes.GuardsByPath(LandingPath(session.role));
  }

  /** A reload renders once with the initial state before the mount effect
      reads storage, and `<Navigate>` acts on that first render: a guarded page
      then sends the browser to the login page, even when the stored record
      would have let it render once hydrated. */
  lemma {:induction false} ReloadOfGuardedPage(p: string, session: SessionRecord, entries: map<string, Stored>)
    requires p in AppRoutes.AdminPaths + AppRoutes.UserPaths
    ensures AppRoutes.Navigate(p, Initial()) == Some(RedirectToLogin)
    ensures HasCredentials(session) && session.role == AppRoutes.Routes[p].requiredRole ==>
      AppRoutes.Navigate(p, Hydrated(Initial(), entries[SessionKey := Record(session)])) == Some(Render)
  {
  }
}
