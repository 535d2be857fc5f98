/**
 * The navigation gate: the two route guards, which read only `isAuthenticated`,
 * and the router table that wires them to paths. Rendering a redirect sends the
 * browser to a new path, where the table is consulted again; `Navigate` follows
 * those redirects.
 */
module App {

  const RootPath: string := "/"
  const LoginPath: string := "/login"
  const RegisterPath: string := "/register"
  const DashboardPath: string := "/dashboard"

  /** What a guard does: render the element it wraps, or redirect (replacing the history entry). */
  datatype Decision = Render | Redirect(path: string)

  /** The guard for pages that need a session: anonymous visitors are sent to the login page. */
  function ProtectedRoute(isAuthenticated: bool): (d: Decision)
    ensures d == Render <==> isAuthenticated
    ensures d != Render ==> d == Redirect(LoginPath)
  {
    if !isAuthenticated then Redirect(LoginPath) else Render
  }

  /** The guard for pages meant for anonymous visitors: signed-in users are sent to the dashboard. */
  function PublicRoute(isAuthenticated: bool): (d: Decision)
    ensures d == Render <==> !isAuthenticated
    ensures d != Render ==> d == Redirect(DashboardPath)
  {
    if isAuthenticated then Redirect(DashboardPath) else Render
  }

  /** For either value of `isAuthenticated`, exactly one of the two guards renders its element. */
  lemma ExactlyOneGuardRenders(isAuthenticated: bool)
    ensures (ProtectedRoute(isAuthenticated) == Render) != (PublicRoute(isAuthenticated) == Render)
  {
  }

  /** The pages the router table can show. */
  datatype Page = LoginPage | RegisterPage

  /** The outcome of matching one path against the router table. */
  datatype Screen = Show(page: Page) | GoTo(path: string) | NotFound

  /** The guard's decision applied to the page it wraps. */
  function Guarded(d: Decision, page: Page): Screen
  {
    match d
    case Render => Show(page)
    case Redirect(p) => GoTo(p)
  }

  /** The router table: the root always redirects to login; login and registration are public routes; nothing else matches. */
  function Route(path: string, isAuthenticated: bool): (r: Screen)
    ensures path == RootPath ==> r == GoTo(LoginPath)
    ensures path == LoginPath || path == RegisterPath ==>
              r == (if isAuthenticated then GoTo(DashboardPath) else Show(if path == LoginPath then LoginPage else RegisterPage))
    ensures path != RootPath && path != LoginPath && path != RegisterPath ==> r == NotFound
  {
    if path == RootPath then GoTo(LoginPath)
    else if path == LoginPath then Guarded(PublicRoute(isAuthenticated), LoginPage)
    else if path == RegisterPath then Guarded(PublicRoute(isAuthenticated), RegisterPage)
    else NotFound
  }

  /** Where a visit to `path` ends after following at most `hops` redirects: the final path and what is shown there. */
  function Navigate(path: string, isAuthenticated: bool, hops: nat): (string, Screen)
    decreases hops
  {
    match Route(path, isAuthenticated)
    case GoTo(next) => if hops == 0 then (path, GoTo(next)) else Navigate(next, isAuthenticated, hops - 1)
    case s => (path, s)
  }

  /** Every visit settles after at most two redirects, on a page or on an unmatched path. */
  lemma SettlesWithinTwoRedirects(path: string, isAuthenticated: bool)
    ensures !Navigate(path, isAuthenticated, 2).1.GoTo?
  {
  }

  /** A signed-in visitor to the root, login or registration path ends at the dashboard path, which the table does not match. */
  lemma SignedInEndsAtDashboard(path: string)
    requires path == RootPath || path == LoginPath || path == RegisterPath
    ensures Navigate(path, true, 2) == (DashboardPath, NotFound)
  {
  }

  /** An anonymous visitor to the root path is shown the login page at the login path. */
  lemma AnonymousRootShowsLogin()
    ensures Navigate(RootPath, false, 2) == (LoginPath, Show(LoginPage))
  {
  }
}
