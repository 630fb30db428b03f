/** The route guard: where it redirects, and whether it shows its children. */
module ProtectedRoute {
  import opened Wrappers
  import opened UserTypes
  import opened Navigation

  /** `allowedRoles = ["admin", "user"]` */
  const DefaultRoles: seq<Role> := [Admin, User]

  /** The effect's navigation, or `None` when it stays. `userRole` is the session's role, `None` without a session. */
  function Redirect(isLoading: bool, isAuthenticated: bool, userRole: Option<Role>, allowedRoles: seq<Role>): (r: Option<Route>)
    ensures r == Some(ToLogin) <==> !isLoading && !isAuthenticated
    ensures r == Some(ToAdmin) <==>
      !isLoading && isAuthenticated && userRole == Some(Role.Admin) && Role.Admin !in allowedRoles
    ensures r == Some(ToDashboard) <==>
      !isLoading && isAuthenticated && userRole == Some(Role.User) && Role.User !in allowedRoles
    ensures r.None? <==> isLoading || (isAuthenticated && (userRole.None? || userRole.value in allowedRoles))
  {
    if !isLoading && !isAuthenticated then Some(ToLogin)
    else if !isLoading && isAuthenticated && userRole.Some? then
      var role := userRole.value;
      if role in allowedRoles then None
      else if role == Role.Admin then Some(ToAdmin)
      else assert role == Role.User; Some(ToDashboard)
    else None
  }

  datatype View = Placeholder | Children

  /** The render decision: it looks at neither the role nor the allowed roles. */
  function Render(isLoading: bool, isAuthenticated: bool): (v: View)
    ensures v == Children <==> !isLoading && isAuthenticated
  {
    if isLoading || !isAuthenticated then Placeholder else Children
  }

  /** With the default roles every authenticated user stays. */
  lemma DefaultRolesAdmitEveryone(role: Role)
    ensures Redirect(false, true, Some(role), DefaultRoles).None?
  {
  }

  /** A user whose role is not allowed is shown the children while the redirect is issued. */
  lemma WrongRoleStillRendered(role: Role, allowedRoles: seq<Role>)
    requires role !in allowedRoles
    ensures Redirect(false, true, Some(role), allowedRoles).Some?
    ensures Render(false, true) == Children
  {
  }
}
