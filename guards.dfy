/** The navigation guards of the two client applications: the decision
    each `beforeEach` hook hands to `next()`, and the route tables they
    consult, which are included only as data. */
module Guards {
  import opened Base
  import opened Seqs

  /** `next({ name: 'Login' })`, `next({ name: 'Dashboard' })` or `next()`. */
  datatype Decision = RedirectLogin | RedirectDashboard | Allow

  /** A route record: its path, its name and whether `meta.requiresAuth`
      is set (an absent `meta` counts as not set). */
  datatype Route = Route(path: string, name: string, requiresAuth: bool)

  /** The route named `name`, if the table has one. */
  function RouteNamed(routes: seq<Route>, name: string): (r: Option<Route>)
    ensures r.Some? ==> r.value in routes && r.value.name == name
    ensures r.None? ==> forall j :: 0 <= j < |routes| ==> routes[j].name != name
  {
    Find(routes, (rt: Route) => rt.name == name)
  }

  /** The name of the route a decision redirects to. */
  function Target(d: Decision): Option<string> {
    match d
    case RedirectLogin => Some("Login")
    case RedirectDashboard => Some("Dashboard")
    case Allow => None
  }

  // ---------------------------------------------------------------------
  // The `frontend` application

  /** The user counts as signed in when the stored `isAuthenticated` item is
      exactly the string `"true"`. */
  predicate FlagAuthenticated(flag: Option<string>) {
    flag == Some("true")
  }

  /** The guard of `frontend/src/main.ts`. A signed-out user reaching a
      protected route goes to Login; a signed-in user on the login or
      introduction page goes to the dashboard; anything else passes. Only
      the exact flag `"true"` signs a user in, and a signed-in user is
      never sent to Login. */
  function FrontendGuard(requiresAuth: bool, path: string, flag: Option<string>): (d: Decision)
    ensures d == RedirectLogin <==> requiresAuth && flag != Some("true")
    ensures flag == Some("true") ==> d != RedirectLogin
    ensures flag == Some("true") ==> (d == RedirectDashboard <==> path == "/login" || path == "/")
    ensures flag != Some("true") ==> d != RedirectDashboard
    ensures !requiresAuth && flag != Some("true") ==> d == Allow
  {
    var authenticated := FlagAuthenticated(flag);
    if requiresAuth && !authenticated then RedirectLogin
    else if path == "/login" && authenticated then RedirectDashboard
    else if path == "/" && authenticated then RedirectDashboard
    else Allow
  }

  /** The routes of `frontend/src/router.ts`. */
  const FRONTEND_ROUTES: seq<Route> := [
    Route("/", "Introduction", false),
    Route("/dashboard", "Dashboard", true),
    Route("/tasks", "Tasks", true),
    Route("/task/:id", "TaskDetail", true),
    Route("/profile", "Profile", true),
    Route("/login", "Login", false),
    Route("/register", "Register", false),
    Route("/:pathMatch(.*)*", "NotFound", false)
  ]

  /** A redirect is never followed by another: the route it leads to, under
      the same sign-in state, is allowed. */
  lemma FrontendRedirectSettles(rt: Route, flag: Option<string>)
    requires rt in FRONTEND_ROUTES
    ensures var d := FrontendGuard(rt.requiresAuth, rt.path, flag);
      d != Allow ==>
        var target := RouteNamed(FRONTEND_ROUTES, Target(d).value);
        target.Some? && FrontendGuard(target.value.requiresAuth, target.value.path, flag) == Allow
  {
    var d := FrontendGuard(rt.requiresAuth, rt.path, flag);
    if d == RedirectLogin {
      assert FRONTEND_ROUTES[5].name == "Login";
      assert forall j :: 0 <= j < 5 ==> FRONTEND_ROUTES[j].name != "Login";
    } else if d == RedirectDashboard {
      assert FRONTEND_ROUTES[1].name == "Dashboard";
      assert FRONTEND_ROUTES[0].name != "Dashboard";
    }
  }

  // ---------------------------------------------------------------------
  // The client application

  /** The user counts as signed in when a `token` item is stored at all,
      even an empty one. */
  predicate TokenAuthenticated(token: Option<string>) {
    token.Some?
  }

  /** The guard of `src/router/index.ts`. Login is the only redirect, taken
      exactly for a protected route with no stored token; any stored token,
      the empty string included, lets every route through. */
  function ClientGuard(requiresAuth: bool, token: Option<string>): (d: Decision)
    ensures d != RedirectDashboard
    ensures d == RedirectLogin <==> requiresAuth && token.None?
    ensures token.Some? ==> d == Allow
  {
    if requiresAuth && !TokenAuthenticated(token) then RedirectLogin else Allow
  }

  /** The routes declared in `src/router/index.ts`. */
  const CLIENT_ROUTES: seq<Route> := [
    Route("/", "Home", true),
    Route("/login", "Login", false),
    Route("/register", "Register", false),
    Route("/tasks", "Tasks", true),
    Route("/my-tasks", "MyTasks", true),
    Route("/profile", "Profile", true)
  ]

  /** The login route the client guard redirects to is itself allowed. */
  lemma ClientRedirectSettles(rt: Route, token: Option<string>)
    requires rt in CLIENT_ROUTES
    ensures var d := ClientGuard(rt.requiresAuth, token);
      d != Allow ==>
        var target := RouteNamed(CLIENT_ROUTES, Target(d).value);
        target.Some? && ClientGuard(target.value.requiresAuth, token) == Allow
  {
    assert CLIENT_ROUTES[1].name == "Login";
    assert CLIENT_ROUTES[0].name != "Login";
  }
}
