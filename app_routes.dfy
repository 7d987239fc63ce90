/**
  The application's routing (`src/App.jsx`): the two guards `ProtectedRoute` and
  `PublicRoute`, which decide from the session provider's `loading` and
  `isAuthenticated` flags, and the `AppRoutes` table that maps a path to a
  screen and the guard wrapped around it.
*/
module AppRoutes {

  /** What a guard renders: the loading view, its children, or a `<Navigate replace>`. */
  datatype Decision = Loading | Render | Redirect(to: string)

  /** `ProtectedRoute`: children only for a settled, authenticated session. */
  function ProtectedRoute(loading: bool, isAuthenticated: bool): (d: Decision)
    ensures d == Loading <==> loading
    ensures d == Render <==> !loading && isAuthenticated
    ensures d.Redirect? <==> !loading && !isAuthenticated
    ensures d.Redirect? ==> d.to == "/login"
  {
    if loading then Loading
    else if isAuthenticated then Render
    else Redirect("/login")
  }

  /** `PublicRoute`: children only for a settled, anonymous session. */
  function PublicRoute(loading: bool, isAuthenticated: bool): (d: Decision)
    ensures d == Loading <==> loading
    ensures d == Render <==> !loading && !isAuthenticated
    ensures d.Redirect? <==> !loading && isAuthenticated
    ensures d.Redirect? ==> d.to == "/chat"
  {
    if loading then Loading
    else if !isAuthenticated then Render
    else Redirect("/chat")
  }

  /** Once the session has settled, exactly one of the two guards redirects,
      whichever the authentication state; while loading neither does. */
  lemma ExactlyOneGuardRedirects(loading: bool, isAuthenticated: bool)
    ensures !loading ==> (ProtectedRoute(loading, isAuthenticated).Redirect?
                          != PublicRoute(loading, isAuthenticated).Redirect?)
    ensures loading ==> !ProtectedRoute(loading, isAuthenticated).Redirect?
                        && !PublicRoute(loading, isAuthenticated).Redirect?
  {
  }

  datatype Guard = Unguarded | Protected | Public

  datatype Screen =
    | HomePage | Login | Register | Chat
    | AdminDashboard | RBACRoles | RBACUsers | RBACPermissions | KBManagement
    | NotFound

  /** One entry of the route table: the guard and the screen it wraps, and whether
      the screen is rendered inside `AdminLayout`'s outlet. */
  datatype Route = Route(guard: Guard, screen: Screen, inAdminLayout: bool)

  /** The paths the table declares; the nested admin routes are written out in full. */
  const DeclaredPaths: set<string> :=
    {"/", "/login", "/register", "/chat",
     "/admin", "/admin/roles", "/admin/users", "/admin/permissions", "/admin/kb"}

  /** `AppRoutes`: the route a path selects; `*` catches every undeclared path. */
  function Resolve(path: string): (r: Route)
    ensures path !in DeclaredPaths <==> r.screen == NotFound
    ensures r.screen == NotFound ==> r == Route(Unguarded, NotFound, false)
    ensures r.guard == Public <==> path == "/login" || path == "/register"
    ensures r.inAdminLayout ==> r.guard == Protected
  {
    if path == "/" then Route(Unguarded, HomePage, false)
    else if path == "/login" then Route(Public, Login, false)
    else if path == "/register" then Route(Public, Register, false)
    else if path == "/chat" then Route(Protected, Chat, false)
    else if path == "/admin" then Route(Protected, AdminDashboard, true)
    else if path == "/admin/roles" then Route(Protected, RBACRoles, true)
    else if path == "/admin/users" then Route(Protected, RBACUsers, true)
    else if path == "/admin/permissions" then Route(Protected, RBACPermissions, true)
    else if path == "/admin/kb" then Route(Protected, KBManagement, true)
    else Route(Unguarded, NotFound, false)
  }

  /** What the user sees at a path. */
  datatype View = LoadingView | Show(screen: Screen, inAdminLayout: bool) | Navigate(to: string)

  function GuardDecision(g: Guard, loading: bool, isAuthenticated: bool): Decision {
    match g
    case Unguarded => Render
    case Protected => ProtectedRoute(loading, isAuthenticated)
    case Public => PublicRoute(loading, isAuthenticated)
  }

  /** The view at `path` for a given session state. */
  function Page(path: string, loading: bool, isAuthenticated: bool): (v: View)
    ensures v.LoadingView? ==> loading && Resolve(path).guard != Unguarded
    ensures v.Navigate? ==> !loading && (v.to == "/login" || v.to == "/chat")
  {
    var r := Resolve(path);
    match GuardDecision(r.guard, loading, isAuthenticated)
    case Loading => LoadingView
    case Render => Show(r.screen, r.inAdminLayout)
    case Redirect(to) => Navigate(to)
  }

  /** The home page has no guard: it shows in every session state, even while loading. */
  lemma HomeAlwaysReachable(loading: bool, isAuthenticated: bool)
    ensures Page("/", loading, isAuthenticated) == Show(HomePage, false)
  {
  }

  /** Every path under `/admin` that the table declares, and `/chat`, is shown
      only to a settled, authenticated session and otherwise sends it to `/login`. */
  lemma ProtectedPaths(path: string, loading: bool, isAuthenticated: bool)
    requires path in DeclaredPaths && (path == "/chat" || (|path| >= 6 && path[..6] == "/admin"))
    ensures Resolve(path).guard == Protected
    ensures Page(path, loading, isAuthenticated).Show? <==> !loading && isAuthenticated
    ensures !loading && !isAuthenticated ==> Page(path, loading, isAuthenticated) == Navigate("/login")
  {
    if path != "/chat" {
      assert path[1] == path[..6][1] == 'a';
    }
  }

  /** Any path the table does not declare shows the 404 screen, in every session state. */
  lemma UndeclaredPathsNotFound(path: string, loading: bool, isAuthenticated: bool)
    requires path !in DeclaredPaths
    ensures Page(path, loading, isAuthenticated) == Show(NotFound, false)
  {
  }

  /** A redirect never leads to another redirect: following it once, in the same
      settled session state, always ends on a screen. */
  lemma RedirectsSettleInOneStep(path: string, isAuthenticated: bool)
    requires Page(path, false, isAuthenticated).Navigate?
    ensures Page(Page(path, false, isAuthenticated).to, false, isAuthenticated).Show?
  {
  }
}
