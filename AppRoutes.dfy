/** The application's route table: each path, and whether the page is public
    or wrapped in the guard with a required role. */
module AppRoutes {
  import opened Outcomes
  import opened Types
  import opened PrivateRoute
  import AuthProvider

  datatype Access = Public | Guarded(requiredRole: Option<Role>)

  const Routes: map<string, Access> := map[
    "/" := Public,
    "/register" := Public,
    "/login" := Public,
    "/admin/dashboard" := Guarded(Some(Admin)),
    "/admin/products" := Guarded(Some(Admin)),
    "/admin/product/add" := Guarded(Some(Admin)),
    "/admin/products/deleted" := Guarded(Some(Admin)),
    "/admin/orders" := Guarded(Some(Admin)),
    "/admin/orders/group-by-user" := Guarded(Some(Admin)),
    "/dashboard" := Guarded(Some(User)),
    "/products" := Guarded(Some(User)),
    "/cart" := Guarded(Some(User)),
    "/orders" := Guarded(Some(User)),
    "/transfer-point" := Guarded(Some(User))
  ]

  const AdminPaths: set<string> := {
    "/admin/dashboard", "/admin/products", "/admin/product/add",
    "/admin/products/deleted", "/admin/orders", "/admin/orders/group-by-user"
  }

  const UserPaths: set<string> := {"/dashboard", "/products", "/cart", "/orders", "/transfer-point"}

  const PublicPaths: set<string> := {"/", "/register", "/login"}

  /** What navigating to `path` shows: nothing for a path without a route, the
      page itself for a public route, the guard's decision otherwise. */
  function Navigate(path: string, s: AuthProvider.AuthState): (r: Option<Decision>)
    ensures r.None? <==> path !in Routes
    ensures path in Routes && Routes[path] == Public ==> r == Some(Render)
    ensures path in Routes && Routes[path].Guarded? ==>
      r == Some(Decide(s.isAuthenticated, s.role, Routes[path].requiredRole))
  {
    if path !in Routes then None
    else match Routes[path]
      case Public => Some(Render)
      case Guarded(required) => Some(Decide(s.isAuthenticated, s.role, required))
  }

  /** The table has exactly the public, admin and user paths. */
  lemma {:induction false} RouteKeys()
    ensures Routes.Keys == PublicPaths + AdminPaths + UserPaths
  {
  }

  /** `/`, `/register` and `/login` have no guard; the six admin paths require
      the admin role; the five user paths require the user role. */
  lemma {:induction false} GuardsByPath(p: string)
    ensures p in PublicPaths ==> p in Routes && Routes[p] == Public
    ensures p in AdminPaths ==> p in Routes && Routes[p] == Guarded(Some(Admin))
    ensures p in UserPaths ==> p in Routes && Routes[p] == Guarded(Some(User))
  {
  }

  predicate StartsWith(prefix: string, s: string) {
    |prefix| <= |s| && s[..|prefix|] == prefix
  }

  /** A path of the table is under `/admin/` exactly when it requires the admin
      role. */
  lemma {:induction false} AdminPrefixMeansAdminRole(p: string)
    requires p in Routes
    ensures StartsWith("/admin/", p) <==> Routes[p] == Guarded(Some(Admin))
  {
    RouteKeys();
    GuardsByPath(p);
    if p !in AdminPaths {
      assert p in PublicPaths + UserPaths;
      assert |p| < 7 || p[1] != 'a';
      NotUnderAdmin(p);
    }
  }

  lemma NotUnderAdmin(s: string)
    requires |s| < 7 || s[1] != 'a'
    ensures !StartsWith("/admin/", s)
  {
    if |s| >= 7 {
      assert s[..7][1] == s[1];
    }
  }

  /** A logged-in admin who asks for a user page is sent home; a logged-in user
      who asks for an admin page is sent home too; once logged out, every guarded
      page sends to the login page. */
  lemma {:induction false} RolesAreSeparated(p: string)
    ensures p in UserPaths ==> Navigate(p, AuthProvider.AuthState(true, Some(Admin))) == Some(RedirectToHome)
    ensures p in AdminPaths ==> Navigate(p, AuthProvider.AuthState(true, Some(User))) == Some(RedirectToHome)
    ensures p in AdminPaths + UserPaths ==> Navigate(p, AuthProvider.Initial()) == Some(RedirectToLogin)
    ensures p in AdminPaths ==> Navigate(p, AuthProvider.AuthState(true, Some(Admin))) == Some(Render)
    ensures p in UserPaths ==> Navigate(p, AuthProvider.AuthState(true, Some(User))) == Some(Render)
  {
    GuardsByPath(p);
  }
}
