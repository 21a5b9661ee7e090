/** The route guard in front of the calculator page. */
module Routing {

  /** What the guard renders: a redirect, or the guarded children. */
  datatype RouteOutcome<T> = Redirect(to: string, replace: bool) | Render(children: T)

  const LoginPath: string := "/login"

  /** `ProtectedRoute`, evaluated afresh on every render from the current
      token alone: no token redirects to the login page, replacing the
      history entry; a token renders the children unchanged. */
  function Guard<T>(authToken: string, children: T): (r: RouteOutcome<T>)
    ensures r.Redirect? <==> authToken == ""
    ensures r.Redirect? ==> r.to == LoginPath && r.replace
    ensures r.Render? ==> r.children == children
  {
    if authToken == "" then Redirect(LoginPath, true) else Render(children)
  }
}
