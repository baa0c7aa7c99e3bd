/**
 * The route guard wrapped around every page behind the login
 * (src/components/PrivateRoute.jsx): no user goes to the login page, a user
 * whose role the route does not list goes to the start page, everyone else
 * sees the page.
 */
module PrivateRoute {
  import opened Options

  /** The logged-in user, as far as the guard looks at it. */
  datatype User = User(rol: string)

  /** The three things the guard renders. */
  datatype Decision = RedirectLogin | RedirectInicio | Render

  /**
   * The guard's decision for the current user and the route's `allowedRoles`;
   * a missing list admits every role, a given list (even an empty one) only
   * the roles it holds.
   */
  function Route(user: Option<User>, allowedRoles: Option<seq<string>>): (d: Decision)
    ensures d == RedirectLogin <==> user.None?
    ensures d == RedirectInicio <==> user.Some? && allowedRoles.Some? && user.value.rol !in allowedRoles.value
    ensures d == Render <==> user.Some? && (allowedRoles.None? || user.value.rol in allowedRoles.value)
  {
    if user.None? then RedirectLogin
    else if allowedRoles.Some? && user.value.rol !in allowedRoles.value then RedirectInicio
    else Render
  }

  /** An empty role list is still a list: it lets no logged-in user through. */
  lemma EmptyRoleListAdmitsNobody(user: User)
    ensures Route(Some(user), Some([])) == RedirectInicio
  {
  }

  /** Listing more roles never shuts out a user who was let in. */
  lemma MoreRolesAdmitMore(user: Option<User>, roles: seq<string>, more: seq<string>)
    requires Route(user, Some(roles)) == Render
    ensures Route(user, Some(roles + more)) == Render
  {
  }

  /** A route without a role list admits at least whoever a route with one does. */
  lemma NoListAdmitsMost(user: Option<User>, roles: seq<string>)
    ensures Route(user, Some(roles)) == Render ==> Route(user, None) == Render
    ensures Route(user, None) != RedirectInicio
  {
  }
}
