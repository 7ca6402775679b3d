/** src/App.js: the route table, the banner rule and the navigation bar. */
module Routes {
  import opened Js
  import opened Access

  const Admin := "ROLE_ADMIN"
  const Scheduler := "ROLE_SCHEDULER"

  /** The routes of the table, in the order they are declared. */
  datatype Route =
    | LoginRoute
    | RegisterRoute
    | AboutRoute
    | HomeRoute
    | TeachersRoute
    | ClassroomsRoute
    | SectionsRoute
    | GenerateRoute
    | ScheduleRoute(ownerType: string, id: string)
    | AdminUsersRoute
    | CatchAll

  /** `/schedule/:type/:id`: two non-empty segments after `/schedule/`. */
  function MatchSchedule(pathname: string): (r: Option<(string, string)>)
    ensures r.Some? ==> pathname == "/schedule/" + r.value.0 + "/" + r.value.1
    ensures r.Some? ==> r.value.0 != "" && r.value.1 != "" && '/' !in r.value.0 && '/' !in r.value.1
  {
    if !StartsWith(pathname, "/schedule/") then None
    else
      var rest := pathname[10..];
      var cut := IndexOf(rest, "/");
      if cut.None? then None
      else
        var t, id := rest[..cut.value], rest[cut.value + 1..];
        if t == "" || id == "" || '/' in t || '/' in id then None
        else
          assert rest == t + "/" + id;
          assert pathname == "/schedule/" + rest;
          Some((t, id))
  }

  /** The route a pathname selects; paths match exactly. */
  function MatchRoute(pathname: string): (r: Route)
    ensures r == LoginRoute <==> pathname == "/login"
    ensures r == RegisterRoute <==> pathname == "/register"
    ensures r == AboutRoute <==> pathname == "/aboutus"
    ensures r == HomeRoute <==> pathname == "/"
    ensures r == TeachersRoute <==> pathname == "/teachers"
    ensures r == ClassroomsRoute <==> pathname == "/classrooms"
    ensures r == SectionsRoute <==> pathname == "/sections"
    ensures r == GenerateRoute <==> pathname == "/generate"
    ensures r == AdminUsersRoute <==> pathname == "/admin/users"
    ensures r.ScheduleRoute? <==> MatchSchedule(pathname).Some?
    ensures r.ScheduleRoute? ==> MatchSchedule(pathname) == Some((r.ownerType, r.id))
  {
    if pathname == "/login" then LoginRoute
    else if pathname == "/register" then RegisterRoute
    else if pathname == "/aboutus" then AboutRoute
    else if pathname == "/" then HomeRoute
    else if pathname == "/teachers" then TeachersRoute
    else if pathname == "/classrooms" then ClassroomsRoute
    else if pathname == "/sections" then SectionsRoute
    else if pathname == "/generate" then GenerateRoute
    else if MatchSchedule(pathname).Some? then
      ScheduleRoute(MatchSchedule(pathname).value.0, MatchSchedule(pathname).value.1)
    else if pathname == "/admin/users" then AdminUsersRoute
    else CatchAll
  }

  /** How a route is guarded: not at all, by a ProtectedRoute with a role
      list, or (the catch-all) by a redirect. */
  datatype Guard = Open | Protected(allowedRoles: seq<string>) | Fallback

  function GuardOf(r: Route): (g: Guard)
    ensures g.Open? <==> r == LoginRoute || r == RegisterRoute || r == AboutRoute
    ensures g.Fallback? <==> r == CatchAll
    ensures g.Protected? ==> Admin in g.allowedRoles
    ensures g.Protected? ==> (Scheduler in g.allowedRoles <==> r != AdminUsersRoute)
  {
    match r
    case LoginRoute => Open
    case RegisterRoute => Open
    case AboutRoute => Open
    case AdminUsersRoute => Protected([Admin])
    case CatchAll => Fallback
    case _ => Protected([Admin, Scheduler])
  }

  /** What the page area shows for a pathname. */
  datatype Screen =
    | Page(route: Route)
    | Loading
    | Navigate(to: string, from: Option<string>, error: Option<string>)

  /** The element `<Routes>` renders for a pathname under a given session. */
  function Resolve(pathname: string, isAuthLoading: bool, isAuthenticated: bool, role: Option<string>): (sc: Screen)
    ensures sc.Page? ==> sc.route == MatchRoute(pathname)
    ensures sc.Loading? ==> isAuthLoading && GuardOf(MatchRoute(pathname)).Protected?
    ensures sc.Navigate? && sc.from.Some? ==> sc.from.value == pathname && sc.to == "/login" && !isAuthenticated
    ensures sc.Navigate? && sc.error.Some? ==> sc.to == "/" && sc.error.value == AccessDenied && isAuthenticated
  {
    var route := MatchRoute(pathname);
    match GuardOf(route)
    case Open => Page(route)
    case Fallback => Navigate(if isAuthenticated then "/" else "/login", None, None)
    case Protected(roles) =>
      match Gate(isAuthLoading, isAuthenticated, role, Some(roles), pathname)
      case ShowLoading => Loading
      case RedirectToLogin(from) => Navigate("/login", Some(from), None)
      case RedirectHome(error) => Navigate("/", None, Some(error))
      case RenderChildren => Page(route)
  }

  /** What the application shows for a pathname once it is wrapped in
      `AuthProvider`, as src/index.js does: the provider renders its
      children only after the initial session check, so nothing of the route
      table shows before it ends (None). */
  function AppScreen(pathname: string, isAuthLoading: bool, isAuthenticated: bool, role: Option<string>): Option<Screen> {
    if isAuthLoading then None else Some(Resolve(pathname, false, isAuthenticated, role))
  }

  /** Inside the provider, the gate's placeholder never shows: before the
      session check ends nothing is rendered, and afterwards every path,
      the catch-all included, resolves with the restored session. */
  lemma ProviderWaitsForSession(pathname: string, isAuthLoading: bool, isAuthenticated: bool, role: Option<string>)
    ensures isAuthLoading ==> AppScreen(pathname, isAuthLoading, isAuthenticated, role) == None
    ensures AppScreen(pathname, isAuthLoading, isAuthenticated, role) != Some(Loading)
    ensures !isAuthLoading ==>
      AppScreen(pathname, isAuthLoading, isAuthenticated, role) == Some(Resolve(pathname, false, isAuthenticated, role))
  {
    if !isAuthLoading && GuardOf(MatchRoute(pathname)).Protected? {
      var roles := GuardOf(MatchRoute(pathname)).allowedRoles;
      assert Gate(false, isAuthenticated, role, Some(roles), pathname) != ShowLoading;
    }
  }

  /** `/login`, `/register` and `/aboutus` carry no guard: the route table
      shows their page whatever session it is given. */
  lemma PublicRoutesUngated(isAuthLoading: bool, isAuthenticated: bool, role: Option<string>)
    ensures Resolve("/login", isAuthLoading, isAuthenticated, role) == Page(LoginRoute)
    ensures Resolve("/register", isAuthLoading, isAuthenticated, role) == Page(RegisterRoute)
    ensures Resolve("/aboutus", isAuthLoading, isAuthenticated, role) == Page(AboutRoute)
  {
  }

  /** The six scheduling routes admit exactly admins and schedulers. */
  predicate SharedPath(pathname: string) {
    || pathname in ["/", "/teachers", "/classrooms", "/sections", "/generate"]
    || MatchSchedule(pathname).Some?
  }

  lemma {:induction false} SharedRoutesAdmitStaff(pathname: string, role: Option<string>)
    requires SharedPath(pathname)
    ensures Resolve(pathname, false, true, role).Page? <==> role == Some(Admin) || role == Some(Scheduler)
    ensures !Resolve(pathname, false, true, role).Page? ==>
      Resolve(pathname, false, true, role) == Navigate("/", None, Some(AccessDenied))
  {
    if MatchSchedule(pathname).Some? && pathname !in ["/", "/teachers", "/classrooms", "/sections", "/generate"] {
      assert MatchRoute(pathname).ScheduleRoute?;
    }
  }

  /** `/schedule/{type}/{id}` is one of the shared routes for any type and id
      without slashes. */
  lemma ScheduleRouteMatches(ownerType: string, id: string)
    requires ownerType != "" && id != "" && '/' !in ownerType && '/' !in id
    ensures MatchRoute("/schedule/" + ownerType + "/" + id) == ScheduleRoute(ownerType, id)
  {
    var p := "/schedule/" + ownerType + "/" + id;
    var rest := p[10..];
    assert rest == ownerType + "/" + id;
    assert StartsWith(p, "/schedule/");
    assert OccursAt(rest, "/", |ownerType|);
    forall j | 0 <= j < |ownerType|
      ensures !OccursAt(rest, "/", j)
    {
      assert rest[j] == ownerType[j];
    }
    assert rest[..|ownerType|] == ownerType;
    assert rest[|ownerType| + 1..] == id;
  }

  /** `/admin/users` admits only admins. */
  lemma AdminUsersAdminOnly(role: Option<string>)
    ensures Resolve("/admin/users", false, true, role).Page? <==> role == Some(Admin)
  {
    assert MatchSchedule("/admin/users").None? by {
      assert !StartsWith("/admin/users", "/schedule/") by {
        assert "/admin/users"[1] != "/schedule/"[1];
      }
    }
  }

  /** A ProtectedRoute given a session still being restored shows the
      placeholder (inside `AuthProvider` it is never given one, see
      `ProviderWaitsForSession`); a signed-out visitor is sent to the login
      page with the path to return to. */
  lemma ProtectedPathsWaitThenLogin(pathname: string, isAuthenticated: bool, role: Option<string>)
    requires GuardOf(MatchRoute(pathname)).Protected?
    ensures Resolve(pathname, true, isAuthenticated, role) == Loading
    ensures Resolve(pathname, false, false, role) == Navigate("/login", Some(pathname), None)
  {
  }

  /** An unmatched path goes home when signed in and to the login page
      otherwise; the catch-all reads nothing of the session but
      `isAuthenticated`. */
  lemma CatchAllRedirect(pathname: string, isAuthLoading: bool, isAuthenticated: bool, role: Option<string>)
    requires MatchRoute(pathname) == CatchAll
    ensures Resolve(pathname, isAuthLoading, isAuthenticated, role)
      == Navigate(if isAuthenticated then "/" else "/login", None, None)
  {
  }

  /** A signed-in user whose role is neither admin nor scheduler is sent from
      `/` to `/` again: the redirect target is refused for the same reason. */
  lemma DeniedHomeRedirectsToItself(role: Option<string>)
    requires role != Some(Admin) && role != Some(Scheduler)
    ensures Resolve("/", false, true, role) == Navigate("/", None, Some(AccessDenied))
  {
    SharedRoutesAdmitStaff("/", role);
  }

  /** `showBanner`: the banner shows above exactly the home page and the
      about page. */
  predicate ShowBanner(pathname: string)
    ensures ShowBanner(pathname) <==> MatchRoute(pathname) == HomeRoute || MatchRoute(pathname) == AboutRoute
  {
    pathname == "/" || pathname == "/aboutus"
  }

  /** The navigation links, left to right. */
  function NavLinks(isAuthenticated: bool, isAdmin: bool): (links: seq<string>)
    ensures "/admin/users" in links <==> isAuthenticated && isAdmin
    ensures "/aboutus" in links
    ensures "/login" in links <==> !isAuthenticated
    ensures "/" in links <==> isAuthenticated
  {
    if isAuthenticated then
      ["/", "/teachers", "/classrooms", "/sections"] + (if isAdmin then ["/admin/users"] else []) + ["/aboutus"]
    else ["/aboutus", "/login", "/register"]
  }

  /** The Users link is shown exactly to a signed-in admin, and for admins
      and schedulers every link opens its page. */
  lemma NavLinksMatchAccess(role: Option<string>)
    ensures "/admin/users" in NavLinks(true, role == Some(Admin)) <==> role == Some(Admin)
    ensures "/admin/users" !in NavLinks(false, role == Some(Admin))
    ensures role == Some(Admin) || role == Some(Scheduler) ==>
      forall p :: p in NavLinks(true, role == Some(Admin)) ==> Resolve(p, false, true, role).Page?
  {
    if role == Some(Admin) || role == Some(Scheduler) {
      forall p | p in NavLinks(true, role == Some(Admin))
        ensures Resolve(p, false, true, role).Page?
      {
        if p == "/admin/users" {
          AdminUsersAdminOnly(role);
        } else if p != "/aboutus" {
          SharedRoutesAdmitStaff(p, role);
        }
      }
    }
  }
}
