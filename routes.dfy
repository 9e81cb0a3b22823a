/**
 * The route table and the two route guards of `src/App.tsx`. The guards
 * read only the authentication flags (`isAuthenticated`, `isLoading`), so
 * they are functions of those two booleans.
 */
module Routes {

  /** What a guard renders: nothing, its child routes, or a `<Navigate>`. */
  datatype Outlet = RenderNothing | RenderChildren | Redirect(to: string, replace: bool)

  /** `ProtectedRoute`: the dashboard pages, for a signed-in user only. */
  function ProtectedRoute(isAuthenticated: bool, isLoading: bool): (o: Outlet)
    ensures isLoading ==> o == RenderNothing
    ensures !isLoading ==> (o == RenderChildren <==> isAuthenticated)
    ensures !isLoading && !isAuthenticated ==> o == Redirect("/login", true)
  {
    if isLoading then RenderNothing
    else if isAuthenticated then RenderChildren
    else Redirect("/login", true)
  }

  /** `PublicRoute`: the login page, for a signed-out user only. */
  function PublicRoute(isAuthenticated: bool, isLoading: bool): (o: Outlet)
    ensures isLoading ==> o == RenderNothing
    ensures !isLoading ==> (o == RenderChildren <==> !isAuthenticated)
    ensures !isLoading && isAuthenticated ==> o == Redirect("/", true)
  {
    if isLoading then RenderNothing
    else if isAuthenticated then Redirect("/", true)
    else RenderChildren
  }

  /** Once loading is over, exactly one of the two guards lets its children through. */
  lemma GuardsExclusive(isAuthenticated: bool)
    ensures (ProtectedRoute(isAuthenticated, false) == RenderChildren)
            != (PublicRoute(isAuthenticated, false) == RenderChildren)
  {
  }

  datatype Screen =
    | Login | Dashboard | Products | Orders | OrderStatus
    | Parties | Ledger | Accounts | Reports | Settings | NotFound

  datatype Guard = PublicGuard | ProtectedGuard | Unguarded

  /** The route matched by a path, with the guard it sits under. */
  datatype Route = Route(guard: Guard, screen: Screen)

  /** The dashboard paths, all under the protected guard. */
  const DashboardPaths: map<string, Screen> := map[
    "/" := Dashboard, "/products" := Products, "/orders" := Orders,
    "/order-status" := OrderStatus, "/parties" := Parties, "/ledger" := Ledger,
    "/accounts" := Accounts, "/reports" := Reports, "/settings" := Settings]

  /** `<Routes>`: '/login' under the public guard, the dashboard under the protected one, '*' last. */
  function Match(path: string): (r: Route)
    ensures r.guard == PublicGuard <==> path == "/login"
    ensures r.guard == ProtectedGuard <==> path in DashboardPaths
    ensures r.screen == NotFound <==> r.guard == Unguarded
    ensures r.screen == Login <==> path == "/login"
  {
    if path == "/login" then Route(PublicGuard, Login)
    else if path in DashboardPaths then Route(ProtectedGuard, DashboardPaths[path])
    else Route(Unguarded, NotFound)
  }

  /** What the browser shows for a path. */
  datatype View = Blank | Show(screen: Screen) | Navigate(to: string)

  function Resolve(path: string, isAuthenticated: bool, isLoading: bool): View
  {
    var r := Match(path);
    var o := match r.guard
      case PublicGuard => PublicRoute(isAuthenticated, isLoading)
      case ProtectedGuard => ProtectedRoute(isAuthenticated, isLoading)
      case Unguarded => RenderChildren;
    match o
    case RenderNothing => Blank
    case RenderChildren => Show(r.screen)
    case Redirect(to, _) => Navigate(to)
  }

  /**
   * Every path resolves, once loading is over, to a screen or to a
   * redirect; a redirect's target then shows a screen without redirecting
   * again, so the guards never loop. A signed-in user sees every dashboard
   * screen and never the login page; a signed-out user the reverse.
   */
  lemma ResolveSettles(path: string, isAuthenticated: bool)
    ensures Resolve(path, isAuthenticated, false) != Blank
    ensures Resolve(path, isAuthenticated, false).Navigate? ==>
              Resolve(Resolve(path, isAuthenticated, false).to, isAuthenticated, false).Show?
    ensures Match(path).guard == ProtectedGuard ==>
              (Resolve(path, isAuthenticated, false) == Show(DashboardPaths[path]) <==> isAuthenticated)
    ensures Resolve(path, isAuthenticated, false) == Show(Login) <==> path == "/login" && !isAuthenticated
  {
    assert "/" in DashboardPaths;
    assert "/login" !in DashboardPaths;
  }

  /** Unmatched paths show the not-found page whatever the authentication state. */
  lemma UnknownPathNotFound(path: string, isAuthenticated: bool, isLoading: bool)
    requires path != "/login" && path !in DashboardPaths
    ensures Resolve(path, isAuthenticated, isLoading) == Show(NotFound)
  {
  }
}
