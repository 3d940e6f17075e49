/** The route guard of the application and the one route that uses it. */
module App {
  import opened Wrappers
  import opened Types

  /** What a guarded route shows. */
  datatype RouteOutcome =
    | LoadingAuthentication   // "Loading authentication..."
    | Redirect(to: string)    // <Navigate to=... />
    | RenderChildren

  /** `ProtectedRoute`: nothing is decided while the session is loading;
      then a route that needs a login sends a visitor without a user to
      /login, a route that needs a host sends a user who is missing or not a
      host to /, and otherwise the route's content is shown. A host-only route
      that does not ask for a login sends a visitor without a user to /, not
      to /login. */
  function ProtectedRoute(isLoading: bool, user: Option<User>,
                          requiresAuth: bool := true, requiresHost: bool := false): (r: RouteOutcome)
    ensures isLoading ==> r == LoadingAuthentication
    ensures r == Redirect("/login") <==> !isLoading && requiresAuth && user.None?
    ensures r == Redirect("/") <==>
              !isLoading && !(requiresAuth && user.None?) && requiresHost && (user.None? || !user.value.isHost)
    ensures r == RenderChildren <==>
              !isLoading && (!requiresAuth || user.Some?) && (!requiresHost || (user.Some? && user.value.isHost))
    ensures r.Redirect? ==> r.to == "/login" || r.to == "/"
  {
    if isLoading then LoadingAuthentication
    else if requiresAuth && user.None? then Redirect("/login")
    else if requiresHost && (user.None? || !user.value.isHost) then Redirect("/")
    else RenderChildren
  }

  /** With the default flags a route only needs a logged-in user. */
  lemma DefaultFlagsNeedLoginOnly(user: Option<User>)
    ensures ProtectedRoute(false, user) == if user.None? then Redirect("/login") else RenderChildren
  {
  }

  /** The host dashboard route, which asks for both a login and a host. */
  function HostDashboardRoute(isLoading: bool, user: Option<User>): (r: RouteOutcome)
    ensures isLoading ==> r == LoadingAuthentication
    ensures !isLoading && user.None? ==> r == Redirect("/login")
    ensures !isLoading && user.Some? && !user.value.isHost ==> r == Redirect("/")
    ensures !isLoading && user.Some? && user.value.isHost ==> r == RenderChildren
  {
    ProtectedRoute(isLoading, user, requiresAuth := true, requiresHost := true)
  }
}
