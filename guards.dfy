/** The two route guards. Each reads only whether a user is authenticated and
    either renders its children or navigates away, replacing the history entry. */
module Guards {
  /** What a guard renders: its children, or a `Navigate` to a path. */
  datatype Decision<V> = Render(children: V) | Redirect(to: string, replace: bool)

  /** Where an unauthenticated visitor of a protected page is sent. */
  const LoginPath: string := "/login"

  /** `PublicRoute`'s default `redirectTo`. */
  const DefaultPublicRedirect: string := "/series"

  /** Protected pages render only for authenticated users; anyone else is
      redirected to the login page. */
  function ProtectedRoute<V>(isAuthenticated: bool, children: V): (d: Decision<V>)
    ensures d.Render? <==> isAuthenticated
    ensures d.Render? ==> d.children == children
    ensures d.Redirect? ==> d.to == LoginPath && d.replace
  {
    if !isAuthenticated then Redirect(LoginPath, true) else Render(children)
  }

  /** Public-only pages render only for visitors who are not authenticated;
      an authenticated user is redirected to `redirectTo`. */
  function PublicRoute<V>(isAuthenticated: bool, children: V, redirectTo: string := DefaultPublicRedirect): (d: Decision<V>)
    ensures d.Render? <==> !isAuthenticated
    ensures d.Render? ==> d.children == children
    ensures d.Redirect? ==> d.to == redirectTo && d.replace
  {
    if isAuthenticated then Redirect(redirectTo, true) else Render(children)
  }

  /** For any one visitor exactly one of the two guards lets the page through. */
  lemma GuardsComplementary<V>(isAuthenticated: bool, a: V, b: V)
    ensures ProtectedRoute(isAuthenticated, a).Render? != PublicRoute(isAuthenticated, b).Render?
  {
  }
}
