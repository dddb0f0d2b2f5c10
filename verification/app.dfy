/**
 * The route table of src/App.tsx: for each requested route and the current
 * auth state, the element the router mounts.
 */
module App {
  import opened Domain
  import opened Routes
  import opened Guards

  datatype Page =
    | HomePage
    | LoginForm
    | RegisterForm
    | UserDashboard
    | BookingHistoryPage
    | MovieDetailPage(id: string)
    | MovieEditPage(id: string)
    | AdminDashboard
    | NotFound

  /** The loading placeholder, a `<Navigate to=…/>`, or a page. */
  datatype Element = Spinner | Navigate(to: Route) | Show(page: Page)

  /** A page wrapped in a guard. */
  function Guarded(d: Decision, page: Page): Element
  {
    match d
    case Loading => Spinner
    case Redirect(to) => Navigate(to)
    case Render => Show(page)
  }

  /** Routes whose page is wrapped in ProtectedRoute only. */
  predicate SignedInOnly(r: Route)
  {
    r.Dashboard? || r.BookingHistory? || r.MovieDetail? || r.MovieEdit?
  }

  /** The element mounted for route `r`. `Other` stands for a path that no
      declared pattern matches. */
  function RouteElement(r: Route, s: AuthState): (e: Element)
    ensures e == Spinner ==> s.loading && (SignedInOnly(r) || r == Admin)
    ensures e.Navigate? ==> e.to in {Root, Login, Admin, Dashboard}
    ensures (SignedInOnly(r) || r == Admin) && e.Show? ==> s.isAuthenticated
    ensures r == Admin && e.Show? ==> UserIsAdmin(s.user)
    ensures (r == Login || r == Register) ==> (e == Navigate(Root) <==> s.isAuthenticated)
  {
    match r
    case Root =>
      if s.isAuthenticated then
        if UserIsAdmin(s.user) then Navigate(Admin) else Navigate(Dashboard)
      else Show(HomePage)
    case Login => if !s.isAuthenticated then Show(LoginForm) else Navigate(Root)
    case Register => if !s.isAuthenticated then Show(RegisterForm) else Navigate(Root)
    case Dashboard => Guarded(ProtectedRoute(s), UserDashboard)
    case BookingHistory => Guarded(ProtectedRoute(s), BookingHistoryPage)
    case MovieDetail(id) => Guarded(ProtectedRoute(s), MovieDetailPage(id))
    case MovieEdit(id) => Guarded(ProtectedRoute(s), MovieEditPage(id))
    case Admin => Guarded(AdminRoute(s), AdminDashboard)
    case Other(_) => Show(NotFound)
  }

  /** "/" sends a signed-in user to the dashboard of their role (a missing user
      record counts as not an administrator) and shows the home page otherwise. */
  lemma RootDispatch(s: AuthState)
    ensures s.isAuthenticated && UserIsAdmin(s.user) ==> RouteElement(Root, s) == Navigate(Admin)
    ensures s.isAuthenticated && !UserIsAdmin(s.user) ==> RouteElement(Root, s) == Navigate(Dashboard)
    ensures !s.isAuthenticated ==> RouteElement(Root, s) == Show(HomePage)
  {
  }

  /** The login and registration forms are for visitors only. */
  lemma FormsForVisitors(s: AuthState)
    ensures RouteElement(Login, s) == if s.isAuthenticated then Navigate(Root) else Show(LoginForm)
    ensures RouteElement(Register, s) == if s.isAuthenticated then Navigate(Root) else Show(RegisterForm)
  {
  }

  /** "/admin" is behind AdminRoute; the four other guarded paths, the movie
      edit page included, are behind ProtectedRoute alone. */
  lemma GuardOfEachRoute(s: AuthState, id: string)
    ensures RouteElement(Admin, s) == Guarded(AdminRoute(s), AdminDashboard)
    ensures RouteElement(Dashboard, s) == Guarded(ProtectedRoute(s), UserDashboard)
    ensures RouteElement(BookingHistory, s) == Guarded(ProtectedRoute(s), BookingHistoryPage)
    ensures RouteElement(MovieDetail(id), s) == Guarded(ProtectedRoute(s), MovieDetailPage(id))
    ensures RouteElement(MovieEdit(id), s) == Guarded(ProtectedRoute(s), MovieEditPage(id))
  {
  }

  /** A signed-in user who is not an administrator reaches the movie edit page. */
  lemma NonAdminReachesEditPage(s: AuthState, id: string)
    requires !s.loading && s.isAuthenticated && !UserIsAdmin(s.user)
    ensures RouteElement(MovieEdit(id), s) == Show(MovieEditPage(id))
    ensures RouteElement(Admin, s) == Navigate(Root)
  {
  }

  /** Every path the table does not declare shows the not-found page. */
  lemma UnmatchedIsNotFound(p: string, s: AuthState)
    ensures RouteElement(Other(p), s) == Show(NotFound)
  {
  }

  /** Where the router comes to rest after following at most `hops` redirects:
      a route that mounts no `<Navigate>` is where it stays, and two hops are
      always enough to reach such a route. */
  function Follow(r: Route, s: AuthState, hops: nat): (last: Route)
    ensures !RouteElement(r, s).Navigate? ==> last == r
    ensures hops == 0 ==> last == r
    ensures hops >= 2 ==> !RouteElement(last, s).Navigate?
    decreases hops
  {
    match RouteElement(r, s)
    case Navigate(to) => if hops == 0 then r else Follow(to, s, hops - 1)
    case _ => r
  }

  /** No redirect loop: two redirects always reach a route that mounts
      a page or the loading placeholder. */
  lemma RedirectsSettle(r: Route, s: AuthState)
    ensures !RouteElement(Follow(r, s, 2), s).Navigate?
  {
  }

  /** A signed-in user asking for "/login" or "/register" ends at "/admin" when
      their record says administrator and at "/dashboard" otherwise; once the
      session has loaded, that page is shown. */
  lemma SignedInUserLands(r: Route, s: AuthState)
    requires r == Login || r == Register
    requires s.isAuthenticated
    ensures Follow(r, s, 2) == if UserIsAdmin(s.user) then Admin else Dashboard
    ensures !s.loading ==>
              RouteElement(Follow(r, s, 2), s) ==
              Show(if UserIsAdmin(s.user) then AdminDashboard else UserDashboard)
  {
  }

  /** A visitor who is not signed in and asks for a guarded page is sent to
      the login form. */
  lemma VisitorLandsOnLogin(r: Route, s: AuthState)
    requires SignedInOnly(r) || r == Admin
    requires !s.loading && !s.isAuthenticated
    ensures Follow(r, s, 1) == Login
    ensures RouteElement(Login, s) == Show(LoginForm)
  {
  }
}
