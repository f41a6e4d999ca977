/**
 * The application's route table and its guard. A guarded route looks only at the
 * store's authentication flag: signed out, it redirects to the login page; signed in,
 * it renders the page whatever portal type the route names and whatever the user's is.
 */
module AppRoutes {
  import opened Wrappers

  datatype Page =
    | HomePage | LoginPage | SignupPage | AboutPage | JobListingsPage | ContactPage | CompanyShowcasePage
    | AdminDashboardPage | UsersListPage | AddJobPage | EmployeeDashboardPage

  /** A route's element: the page alone, or the page inside the guard with the portal type it names. */
  datatype Element = Plain(page: Page) | Guarded(page: Page, allowedPortalType: Option<string>)

  datatype Rendered = Children | RedirectTo(path: string)

  /** The guard: redirect when the store says signed out; the portal types play no part. */
  function ProtectedRoute(isAuthenticated: bool, allowedPortalType: Option<string>, portalType: Option<string>): (r: Rendered)
    ensures r == RedirectTo("/login") <==> !isAuthenticated
    ensures isAuthenticated ==> r == Children
  {
    if !isAuthenticated then RedirectTo("/login") else Children
  }

  /** Any signed-in user passes any guard, whichever portal the route is for and whichever portal the user chose. */
  lemma PortalTypeIgnored(allowed1: Option<string>, allowed2: Option<string>, portal1: Option<string>, portal2: Option<string>)
    ensures ProtectedRoute(true, allowed1, portal1) == ProtectedRoute(true, allowed2, portal2) == Children
  {
  }

  const GuardedPaths: set<string> :=
    {"/jobs", "/companies", "/admin-dashboard", "/admin/users", "/admin/add-job", "/employee-dashboard"}
  const PublicPaths: set<string> := {"/", "/login", "/signup", "/about", "/contact"}

  const Routes: map<string, Element> := map[
    "/" := Plain(HomePage),
    "/login" := Plain(LoginPage),
    "/signup" := Plain(SignupPage),
    "/about" := Plain(AboutPage),
    "/jobs" := Guarded(JobListingsPage, None),
    "/contact" := Plain(ContactPage),
    "/companies" := Guarded(CompanyShowcasePage, None),
    "/admin-dashboard" := Guarded(AdminDashboardPage, Some("admin")),
    "/admin/users" := Guarded(UsersListPage, Some("admin")),
    "/admin/add-job" := Guarded(AddJobPage, Some("admin")),
    "/employee-dashboard" := Guarded(EmployeeDashboardPage, Some("employee"))
  ]

  /** What a path shows, given only the store's authentication state. */
  datatype Screen = Shows(page: Page) | Redirected(path: string) | NoMatch

  function Render(path: string, storeAuthenticated: bool, storePortalType: Option<string>): Screen {
    if path !in Routes then NoMatch
    else match Routes[path]
      case Plain(page) => Shows(page)
      case Guarded(page, allowed) =>
        match ProtectedRoute(storeAuthenticated, allowed, storePortalType)
        case Children => Shows(page)
        case RedirectTo(to) => Redirected(to)
  }

  /** The table guards exactly the six listed paths and leaves the five public ones open. */
  lemma RouteTableShape()
    ensures Routes.Keys == GuardedPaths + PublicPaths
    ensures forall p :: p in Routes ==> (Routes[p].Guarded? <==> p in GuardedPaths)
  {
  }

  /** A known path redirects to the login page exactly when it is guarded and the store says signed out. */
  lemma RedirectsIffGuardedAndSignedOut(path: string, storeAuthenticated: bool, portal: Option<string>)
    requires path in Routes
    ensures Render(path, storeAuthenticated, portal) == Redirected("/login") <==> path in GuardedPaths && !storeAuthenticated
    ensures Render(path, storeAuthenticated, portal) != Redirected("/login") ==> Render(path, storeAuthenticated, portal) == Shows(Routes[path].page)
  {
    RouteTableShape();
  }

  /** A user who signed in through the employee portal still reaches the admin pages. */
  lemma EmployeeReachesAdminPages()
    ensures Render("/admin/add-job", true, Some("employee")) == Shows(AddJobPage)
    ensures Render("/admin/users", true, Some("employee")) == Shows(UsersListPage)
    ensures Render("/admin-dashboard", true, Some("employee")) == Shows(AdminDashboardPage)
  {
  }
}
