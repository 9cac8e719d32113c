/** `buildRoutes`: turns the route configuration into router objects, wrapping
    each element in the guard its own flags ask for, at every depth. */
module RouteBuilder {
  import opened Wrappers
  import opened Guards

  /** A configured route; absent `protected`/`publicOnly` flags are `false`.
      A route with a `children` array is a `Parent`. */
  datatype AppRoute<V> =
    | Leaf(path: string, element: V, isProtected: bool, publicOnly: bool, title: Option<string>)
    | Parent(path: string, element: V, isProtected: bool, publicOnly: bool, title: Option<string>,
             children: seq<AppRoute<V>>)

  /** The element a router object renders: the configured element, either
      inside one of the two guards or as it is. */
  datatype Element<V> = Protected(inner: V) | PublicOnly(inner: V) | Plain(inner: V)

  /** A router object: the rest of the configuration, the wrapped element and
      the processed children. */
  datatype RouteObject<V> =
    | LeafObject(path: string, title: Option<string>, element: Element<V>)
    | ParentObject(path: string, title: Option<string>, element: Element<V>,
                   children: seq<RouteObject<V>>)

  /** `protected` is tested first, so a route carrying both flags is protected. */
  function Wrap<V>(isProtected: bool, publicOnly: bool, element: V): (w: Element<V>)
    ensures w.inner == element
    ensures w.Protected? <==> isProtected
    ensures w.PublicOnly? <==> !isProtected && publicOnly
  {
    if isProtected then Protected(element)
    else if publicOnly then PublicOnly(element)
    else Plain(element)
  }

  /** One route and, recursively, its children. */
  function BuildRoute<V>(route: AppRoute<V>): (r: RouteObject<V>)
    decreases route, 1
    ensures r.path == route.path && r.title == route.title
    ensures r.element == Wrap(route.isProtected, route.publicOnly, route.element)
    ensures r.ParentObject? <==> route.Parent?
    ensures route.Parent? ==> |r.children| == |route.children|
  {
    var element := Wrap(route.isProtected, route.publicOnly, route.element);
    match route
    case Leaf(_, _, _, _, _) => LeafObject(route.path, route.title, element)
    case Parent(_, _, _, _, _, children) =>
      ParentObject(route.path, route.title, element, BuildRoutes(children))
  }

  /** `routes.map(...)`: one router object per route, in order. */
  function BuildRoutes<V>(routes: seq<AppRoute<V>>): (r: seq<RouteObject<V>>)
    ensures |r| == |routes|
    ensures forall i :: 0 <= i < |routes| ==> r[i] == BuildRoute(routes[i])
    decreases routes, 0
  {
    if routes == [] then []
    else [BuildRoute(routes[0])] + BuildRoutes(routes[1..])
  }

  /** `o` is the router object for `a`: same path and title, the element
      wrapped by `a`'s own flags, and children that correspond one to one. */
  predicate Mirrors<V(==)>(a: AppRoute<V>, o: RouteObject<V>)
    decreases a
  {
    a.path == o.path && a.title == o.title &&
    o.element.inner == a.element &&
    (o.element.Protected? <==> a.isProtected) &&
    (o.element.PublicOnly? <==> !a.isProtected && a.publicOnly) &&
    (a.Parent? <==> o.ParentObject?) &&
    (a.Parent? ==>
      |o.children| == |a.children| &&
      forall i :: 0 <= i < |a.children| ==> Mirrors(a.children[i], o.children[i]))
  }

  /** The builder keeps the tree's shape at every depth and wraps every
      element by its own route's flags, whatever its ancestors' flags are. */
  lemma {:induction false} BuildRouteMirrors<V>(a: AppRoute<V>)
    ensures Mirrors(a, BuildRoute(a))
    decreases a
  {
    if a.Parent? {
      var kids := a.children;
      forall i | 0 <= i < |kids| ensures Mirrors(kids[i], BuildRoutes(kids)[i]) {
        BuildRouteMirrors(kids[i]);
      }
    }
  }

  /** What a built element renders for a visitor. */
  function Resolve<V>(e: Element<V>, isAuthenticated: bool): Decision<V> {
    match e
    case Protected(v) => ProtectedRoute(isAuthenticated, v)
    case PublicOnly(v) => PublicRoute(isAuthenticated, v)
    case Plain(v) => Render(v)
  }

  /** The same rule, read off any route object that mirrors its route. */
  lemma MirroredAccess<V>(a: AppRoute<V>, o: RouteObject<V>, isAuthenticated: bool)
    requires Mirrors(a, o)
    ensures Resolve(o.element, isAuthenticated) ==
      if a.isProtected && !isAuthenticated then Redirect(LoginPath, true)
      else if !a.isProtected && a.publicOnly && isAuthenticated then Redirect(DefaultPublicRedirect, true)
      else Render(a.element)
  {
  }

  /** The access rule of a built route: protected routes send visitors who are
      not authenticated to the login page, public-only routes send
      authenticated users to the series list, all others render. */
  lemma BuiltAccess<V>(a: AppRoute<V>, isAuthenticated: bool)
    ensures Resolve(BuildRoute(a).element, isAuthenticated) ==
      if a.isProtected && !isAuthenticated then Redirect(LoginPath, true)
      else if !a.isProtected && a.publicOnly && isAuthenticated then Redirect(DefaultPublicRedirect, true)
      else Render(a.element)
  {
  }
}
