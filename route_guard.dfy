/**
 * `ProtectedRoute`: the guard wrapped around every signed-in page. It
 * waits while the session loads, sends signed-out visitors to the login
 * page and, when given a role allow-list, sends other roles back to the
 * dashboard.
 */
module RouteGuard {
  import opened Wrappers
  import opened AuthStore

  const LoginPath: string := "/login"
  const DashboardPath: string := "/dashboard"

  /** What a guard renders: the loading view, a redirect, its children or the nested route's outlet. */
  datatype Screen = Loading | Redirect(to: string) | Children | Outlet

  /** `allowedRoles.includes(user?.role)`: a missing user has no role to find. */
  predicate Includes(roles: seq<string>, user: Option<Account>)
  {
    user.Some? && user.value.role in roles
  }

  predicate Admitted(s: Screen)
  {
    s.Children? || s.Outlet?
  }

  /**
   * The guard's decision. Any JavaScript array, even an empty one, is a
   * truthy `allowedRoles`, so only an absent list admits every role.
   */
  function Guard(v: Snapshot, allowedRoles: Option<seq<string>>, hasChildren: bool): (s: Screen)
    ensures s == Loading <==> v.isLoading
    ensures s == Redirect(LoginPath) <==> !v.isLoading && !v.isAuthenticated
    ensures s == Redirect(DashboardPath) <==>
      !v.isLoading && v.isAuthenticated && allowedRoles.Some? && !Includes(allowedRoles.value, v.user)
    ensures Admitted(s) <==>
      !v.isLoading && v.isAuthenticated && (allowedRoles.None? || Includes(allowedRoles.value, v.user))
    ensures s.Children? <==> Admitted(s) && hasChildren
  {
    if v.isLoading then Loading
    else if !v.isAuthenticated then Redirect(LoginPath)
    else if allowedRoles.Some? && !Includes(allowedRoles.value, v.user) then Redirect(DashboardPath)
    else if hasChildren then Children
    else Outlet
  }

  /** Once the session has settled, a guard for the single role `role` admits exactly the users with that role. */
  lemma SingleRoleGuard(v: Snapshot, role: string, hasChildren: bool)
    requires SettledView(v)
    ensures Admitted(Guard(v, Some([role]), hasChildren)) <==> v.user.Some? && v.user.value.role == role
  {
  }
}
