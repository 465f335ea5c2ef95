/**
 * The client's page table: three public pages behind `PublicRoute`, a
 * signed-in area behind `ProtectedRoute` whose `/dashboard` forwards to
 * the caller's role dashboard, and a catch-all that goes back to `/`.
 */
module App {
  import opened Wrappers
  import opened AuthStore
  import opened RouteGuard

  const RootPath: string := "/"
  const AdminDashboardPath: string := "/admin/dashboard"
  const DoctorDashboardPath: string := "/doctor/dashboard"
  const PatientDashboardPath: string := "/patient/dashboard"

  /** `PublicRoute`: signed-in visitors are sent on to the dashboard. */
  function PublicRoute(v: Snapshot): (s: Screen)
    ensures s == Loading <==> v.isLoading
    ensures s == Redirect(DashboardPath) <==> !v.isLoading && v.isAuthenticated
    ensures s == Children <==> !v.isLoading && !v.isAuthenticated
  {
    if v.isLoading then Loading
    else if v.isAuthenticated then Redirect(DashboardPath)
    else Children
  }

  /** The `switch (user.role)` of `DashboardRedirect`: the dashboard of each known role. */
  function DashboardFor(role: string): (p: Option<string>)
    ensures p.Some? <==> role in ["ADMIN", "DOCTOR", "PATIENT"]
  {
    if role == "ADMIN" then Some(AdminDashboardPath)
    else if role == "DOCTOR" then Some(DoctorDashboardPath)
    else if role == "PATIENT" then Some(PatientDashboardPath)
    else None
  }

  /** `DashboardRedirect`: wait, then send a missing user or an unknown role to the login page. */
  function DashboardRedirect(v: Snapshot): (s: Screen)
    ensures s.Loading? <==> v.isLoading
    ensures !v.isLoading ==> s.Redirect?
    ensures !v.isLoading && v.user.None? ==> s == Redirect(LoginPath)
    ensures !v.isLoading && v.user.Some? && DashboardFor(v.user.value.role).Some? ==>
      s == Redirect(DashboardFor(v.user.value.role).value)
    ensures !v.isLoading && v.user.Some? && DashboardFor(v.user.value.role).None? ==>
      s == Redirect(LoginPath)
  {
    if v.isLoading then Loading
    else if v.user.None? then Redirect(LoginPath)
    else
      match DashboardFor(v.user.value.role)
      case Some(p) => Redirect(p)
      case None => Redirect(LoginPath)
  }

  datatype Page = Landing | LoginPage | RegisterPage | Home | AdminHome | DoctorHome | PatientHome

  /**
   * A wrapper on the way to a page. The outer `ProtectedRoute` has no
   * children and renders the nested routes; the role guards wrap their page.
   */
  datatype Gate = PublicGate | ProtectedGate(allowedRoles: Option<seq<string>>, hasChildren: bool)

  datatype AppRoute = AppRoute(path: string, gates: seq<Gate>, page: Page)

  const SignedIn: Gate := ProtectedGate(None, false)

  const AppRoutes: seq<AppRoute> := [
    AppRoute(RootPath, [PublicGate], Landing),
    AppRoute(LoginPath, [PublicGate], LoginPage),
    AppRoute("/register", [PublicGate], RegisterPage),
    AppRoute(DashboardPath, [SignedIn], Home),
    AppRoute(AdminDashboardPath, [SignedIn, ProtectedGate(Some(["ADMIN"]), true)], AdminHome),
    AppRoute(DoctorDashboardPath, [SignedIn, ProtectedGate(Some(["DOCTOR"]), true)], DoctorHome),
    AppRoute(PatientDashboardPath, [SignedIn, ProtectedGate(Some(["PATIENT"]), true)], PatientHome)
  ]

  function Find(routes: seq<AppRoute>, path: string): (r: Option<AppRoute>)
    ensures r.Some? ==> r.value in routes && r.value.path == path
    ensures r.None? <==> forall i :: 0 <= i < |routes| ==> routes[i].path != path
  {
    if routes == [] then None
    else if routes[0].path == path then Some(routes[0])
    else Find(routes[1..], path)
  }

  /** No two routes of a table share a path, so a path names at most one of them. */
  predicate DistinctPaths(routes: seq<AppRoute>)
  {
    forall i, j :: 0 <= i < j < |routes| ==> routes[i].path != routes[j].path
  }

  lemma AppRoutesDistinct()
    ensures DistinctPaths(AppRoutes)
  {
    var lengths := [1, 6, 9, 10, 16, 17, 18];
    assert forall i :: 0 <= i < |AppRoutes| ==> |AppRoutes[i].path| == lengths[i];
  }

  /** In a table of distinct paths, each route is the one found for its own path. */
  lemma {:induction false} FindDistinct(routes: seq<AppRoute>, i: nat)
    requires DistinctPaths(routes) && i < |routes|
    ensures Find(routes, routes[i].path) == Some(routes[i])
  {
    if i > 0 {
      assert routes[0].path != routes[i].path;
      assert routes[1..][i - 1] == routes[i];
      FindDistinct(routes[1..], i - 1);
    }
  }

  lemma FindAppRoute(i: nat)
    requires i < |AppRoutes|
    ensures Find(AppRoutes, AppRoutes[i].path) == Some(AppRoutes[i])
  {
    AppRoutesDistinct();
    FindDistinct(AppRoutes, i);
  }

  /** What the browser ends up with for one navigation: waiting, a redirect, or a page. */
  datatype Rendered = Waiting | GoTo(path: string) | Shows(page: Page)

  /** The screen of a guard, with `page` standing for whatever it lets through. */
  function Follow(s: Screen, page: Page): Rendered
  {
    match s
    case Loading => Waiting
    case Redirect(p) => GoTo(p)
    case Children => Shows(page)
    case Outlet => Shows(page)
  }

  /** What one gate renders for the view `v`. */
  function GateScreen(g: Gate, v: Snapshot): Screen
  {
    match g
    case PublicGate => PublicRoute(v)
    case ProtectedGate(roles, hasChildren) => Guard(v, roles, hasChildren)
  }

  /** The gates in order: the first that does not let the visitor through decides. */
  function Through(gates: seq<Gate>, v: Snapshot, page: Page): (r: Rendered)
    ensures r.Shows? ==> r.page == page
    ensures r.Shows? <==> forall i :: 0 <= i < |gates| ==> Admitted(GateScreen(gates[i], v))
  {
    if gates == [] then Shows(page)
    else
      var s := GateScreen(gates[0], v);
      assert forall i :: 1 <= i < |gates| ==> gates[i] == gates[1..][i - 1];
      if Admitted(s) then Through(gates[1..], v, page) else Follow(s, page)
  }

  /** What one route of the table renders for the view `v`. */
  function RenderRoute(rt: AppRoute, v: Snapshot): (r: Rendered)
    ensures r.Shows? ==> r.page == rt.page && r.page != Home
  {
    var r := Through(rt.gates, v, rt.page);
    if r.Shows? && rt.page == Home then Follow(DashboardRedirect(v), Home) else r
  }

  /** Navigating to `path`; `/dashboard` shows no page of its own but forwards by role. */
  function Render(path: string, v: Snapshot): (r: Rendered)
    ensures Find(AppRoutes, path).None? ==> r == GoTo(RootPath)
    ensures r.Shows? ==> exists i :: 0 <= i < |AppRoutes| && AppRoutes[i].path == path && AppRoutes[i].page == r.page
    ensures r.Shows? ==> r.page != Home
  {
    match Find(AppRoutes, path)
    case None => GoTo(RootPath)
    case Some(rt) => RenderRoute(rt, v)
  }

  lemma RenderAt(i: nat, v: Snapshot)
    requires i < |AppRoutes|
    ensures Render(AppRoutes[i].path, v) == RenderRoute(AppRoutes[i], v)
  {
    FindAppRoute(i);
  }

  /** Behind the signed-in guard, a single-role guard shows its page to that role and sends the rest to the dashboard. */
  lemma ThroughRoleGuard(v: Snapshot, role: string, page: Page)
    requires SettledView(v) && v.isAuthenticated
    ensures Through([SignedIn, ProtectedGate(Some([role]), true)], v, page) ==
      if v.user.value.role == role then Shows(page) else GoTo(DashboardPath)
  {
    var g := ProtectedGate(Some([role]), true);
    var gs := [SignedIn, g];
    assert Guard(v, None, false) == Outlet;
    assert gs[1..] == [g];
    assert Through(gs, v, page) == Through([g], v, page);
    assert [g][1..] == [];
    assert Through([g], v, page) ==
      if Admitted(GateScreen(g, v)) then Through([], v, page) else Follow(GateScreen(g, v), page);
    SingleRoleGuard(v, role, true);
  }

  /** The dashboard a role is sent to is guarded so that it shows to that role and to no other. */
  lemma DashboardAdmitsExactlyItsRole(role: string, v: Snapshot)
    requires DashboardFor(role).Some?
    requires SettledView(v) && v.isAuthenticated
    ensures Render(DashboardFor(role).value, v).Shows? <==> v.user.value.role == role
    ensures !Render(DashboardFor(role).value, v).Shows? ==> Render(DashboardFor(role).value, v) == GoTo(DashboardPath)
  {
    var i := if role == "ADMIN" then 4 else if role == "DOCTOR" then 5 else 6;
    var rt := AppRoutes[i];
    assert rt.path == DashboardFor(role).value;
    assert rt.gates == [SignedIn, ProtectedGate(Some([role]), true)];
    RenderAt(i, v);
    ThroughRoleGuard(v, role, rt.page);
  }

  /** Signed in, `/dashboard` passes its guard and forwards by role. */
  lemma HomeForwards(v: Snapshot)
    requires !v.isLoading && v.isAuthenticated
    ensures Render(DashboardPath, v) == Follow(DashboardRedirect(v), Home)
  {
    RenderAt(3, v);
    assert AppRoutes[3].gates == [SignedIn];
    assert Guard(v, None, false) == Outlet;
    assert [SignedIn][1..] == [];
    assert Through([SignedIn], v, Home) == Shows(Home);
  }

  /** A signed-in user with a known role goes from `/dashboard` to a page that shows. */
  lemma DashboardLands(v: Snapshot)
    requires SettledView(v) && v.isAuthenticated
    requires DashboardFor(v.user.value.role).Some?
    ensures Render(DashboardPath, v) == GoTo(DashboardFor(v.user.value.role).value)
    ensures Render(DashboardFor(v.user.value.role).value, v).Shows?
  {
    HomeForwards(v);
    DashboardAdmitsExactlyItsRole(v.user.value.role, v);
  }

  /**
   * A signed-in user whose role has no dashboard (a role outside the
   * server's enum) is bounced for ever: `/dashboard` sends them to
   * `/login`, which sends them back.
   */
  lemma UnknownRoleBounces(v: Snapshot)
    requires SettledView(v) && v.isAuthenticated
    requires DashboardFor(v.user.value.role).None?
    ensures Render(DashboardPath, v) == GoTo(LoginPath)
    ensures Render(LoginPath, v) == GoTo(DashboardPath)
  {
    HomeForwards(v);
    RenderAt(1, v);
    assert AppRoutes[1].gates == [PublicGate];
  }

  /** For a signed-out visitor the three public routes show their page. */
  lemma SignedOutPublicRoute(i: nat, v: Snapshot)
    requires i < 3
    requires !v.isLoading && !v.isAuthenticated
    ensures Render(AppRoutes[i].path, v) == Shows(AppRoutes[i].page)
  {
    RenderAt(i, v);
    var rt := AppRoutes[i];
    assert rt.gates == [PublicGate];
    assert PublicRoute(v) == Children;
    assert Through(rt.gates, v, rt.page) == Through([], v, rt.page);
  }

  /** For a signed-out visitor every other route redirects to the login page. */
  lemma SignedOutProtectedRoute(i: nat, v: Snapshot)
    requires 3 <= i < |AppRoutes|
    requires !v.isLoading && !v.isAuthenticated
    ensures Render(AppRoutes[i].path, v) == GoTo(LoginPath)
  {
    RenderAt(i, v);
    var rt := AppRoutes[i];
    assert rt.gates[0] == SignedIn;
    SignedInGateStops(rt.gates, v, rt.page);
  }

  lemma SignedInGateStops(gates: seq<Gate>, v: Snapshot, page: Page)
    requires gates != [] && gates[0] == SignedIn
    requires !v.isLoading && !v.isAuthenticated
    ensures Through(gates, v, page) == GoTo(LoginPath)
  {
    assert Guard(v, None, false) == Redirect(LoginPath);
  }

  /** A signed-out visitor can only be shown the landing, login and registration pages. */
  lemma SignedOutSeesOnlyPublicPages(path: string, v: Snapshot)
    requires !v.isLoading && !v.isAuthenticated
    ensures Render(path, v).Shows? ==> Render(path, v).page in {Landing, LoginPage, RegisterPage}
    ensures Render(path, v).Shows? <==> path in {RootPath, LoginPath, "/register"}
  {
    var f := Find(AppRoutes, path);
    if f.Some? {
      var i :| 0 <= i < |AppRoutes| && AppRoutes[i] == f.value;
      if i < 3 {
        SignedOutPublicRoute(i, v);
      } else {
        SignedOutProtectedRoute(i, v);
      }
    } else {
      assert AppRoutes[0].path != path && AppRoutes[1].path != path && AppRoutes[2].path != path;
    }
  }
}
