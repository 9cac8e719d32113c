/** The application's route configuration and what it grants to visitors. */
module RouteTable {
  import opened Wrappers
  import opened Guards
  import opened RouteBuilder

  /** The page components the configuration mounts. */
  datatype Page = Layout | Home | Login | Dashboard | SeriesList | AddSerie | EditSerie | SerieDetail

  function Child(path: string, page: Page, isProtected: bool, publicOnly: bool, title: string): AppRoute<Page> {
    Leaf(path, page, isProtected, publicOnly, Some(title))
  }

  /** `appRoutes`: one layout route at `/` whose children are the pages. */
  function AppRoutes(): (r: seq<AppRoute<Page>>)
    ensures |r| == 1 && r[0].Parent? && |r[0].children| == 7
    ensures forall c :: c in r[0].children ==> c.Leaf? && c.title.Some? && !(c.isProtected && c.publicOnly)
  {
    [Parent("/", Layout, false, false, None, [
      Child("/", Home, false, false, "Inicio"),
      Child("/login", Login, false, true, "Iniciar Sesión"),
      Child("/dashboard", Dashboard, true, false, "Dashboard"),
      Child("/series", SeriesList, true, false, "Series"),
      Child("/series/add", AddSerie, true, false, "Añadir Serie"),
      Child("/series/edit/:id", EditSerie, true, false, "Editar Serie"),
      Child("/series/:id", SerieDetail, true, false, "Detalles de Serie")
    ])]
  }

  /** The pages under the layout. */
  function Pages(): (r: seq<AppRoute<Page>>)
    ensures |r| == 7
    ensures forall c :: c in r ==> c.Leaf? && c.title.Some? && !(c.isProtected && c.publicOnly)
  {
    AppRoutes()[0].children
  }

  /** The layout is the single top-level route, at `/`, with neither flag and
      no title, and the pages sit directly under it. */
  lemma LayoutIsTheRoot()
    ensures |AppRoutes()| == 1
    ensures AppRoutes()[0].Parent? && AppRoutes()[0].path == "/" && AppRoutes()[0].element == Layout
    ensures !AppRoutes()[0].isProtected && !AppRoutes()[0].publicOnly && AppRoutes()[0].title.None?
    ensures AppRoutes()[0].children == Pages()
  {
  }

  /** Only the login page is public-only. */
  lemma OnlyLoginIsPublicOnly(c: AppRoute<Page>)
    requires c in Pages()
    ensures c.publicOnly <==> c.path == "/login"
  {
  }

  /** The protected pages are exactly the dashboard and the four series pages;
      the home page carries no flag. */
  lemma ProtectedPages(c: AppRoute<Page>)
    requires c in Pages()
    ensures c.isProtected <==>
      c.path in ["/dashboard", "/series", "/series/add", "/series/edit/:id", "/series/:id"]
    ensures c.path == "/" ==> !c.isProtected && !c.publicOnly && c.element == Home
  {
  }

  /** What each page shows, as built by the route builder. */
  function BuiltPages(): (r: seq<RouteObject<Page>>)
    ensures |r| == |Pages()|
    ensures forall i :: 0 <= i < |r| ==> Mirrors(Pages()[i], r[i])
  {
    BuildRouteMirrors(AppRoutes()[0]);
    BuildRoutes(AppRoutes())[0].children
  }

  /** A visitor who is not authenticated can open the home and login pages and
      is sent to `/login` (replacing the history entry) from every other page;
      an authenticated user can open every page but the login page, which
      sends them to `/series`. */
  lemma AccessTable(i: nat, isAuthenticated: bool)
    requires i < |BuiltPages()|
    ensures var p := Pages()[i];
      Resolve(BuiltPages()[i].element, isAuthenticated) ==
        if p.path == "/login" then
          (if isAuthenticated then Redirect("/series", true) else Render(Login))
        else if p.path == "/" || isAuthenticated then Render(p.element)
        else Redirect("/login", true)
  {
    MirroredAccess(Pages()[i], BuiltPages()[i], isAuthenticated);
    PageFlags(i);
  }

  /** The flags and paths of the pages, by position. */
  lemma PageFlags(i: nat)
    requires i < |Pages()|
    ensures i == 0 ==> Pages()[i] == Child("/", Home, false, false, "Inicio")
    ensures i == 1 ==> Pages()[i] == Child("/login", Login, false, true, "Iniciar Sesión")
    ensures i >= 2 ==>
      Pages()[i].isProtected && !Pages()[i].publicOnly &&
      Pages()[i].path != "/login" && Pages()[i].path != "/"
  {
  }
}
