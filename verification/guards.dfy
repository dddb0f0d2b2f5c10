/**
 * The paths of the application's router (src/App.tsx), as a datatype.
 */
module Routes {

  datatype Route =
    | Root
    | Login
    | Register
    | Dashboard
    | BookingHistory
    | MovieDetail(id: string)
    | MovieEdit(id: string)
    | Admin
    | Other(path: string)
}

/**
 * The two route guards (src/components/auth/ProtectedRoute.tsx and
 * src/components/auth/AdminRoute.tsx): pure decisions over the auth state
 * made on every render.
 */
module Guards {
  import opened Domain
  import opened Routes

  /** A loading placeholder, a `<Navigate to=…/>`, or the guarded children. */
  datatype Decision = Loading | Redirect(to: Route) | Render

  /** Signed-in users only: wait while the session loads, otherwise send
      anonymous visitors to the login page. */
  function ProtectedRoute(s: AuthState): (d: Decision)
    ensures d == Loading <==> s.loading
    ensures d == Render <==> !s.loading && s.isAuthenticated
    ensures d.Redirect? ==> d.to == Login
  {
    if s.loading then Loading
    else if !s.isAuthenticated then Redirect(Login)
    else Render
  }

  /** Administrators only: as ProtectedRoute, and then a signed-in user
      whose record is missing or not an administrator goes to "/". The test
      reads `user.is_admin`, not the slice's `isAdmin` flag. */
  function AdminRoute(s: AuthState): (d: Decision)
    ensures d == Loading <==> s.loading
    ensures d == Redirect(Login) <==> !s.loading && !s.isAuthenticated
    ensures d == Redirect(Root) <==> !s.loading && s.isAuthenticated && !UserIsAdmin(s.user)
    ensures d == Render <==> !s.loading && s.isAuthenticated && UserIsAdmin(s.user)
  {
    if s.loading then Loading
    else if !s.isAuthenticated then Redirect(Login)
    else if !UserIsAdmin(s.user) then Redirect(Root)
    else Render
  }

  /** ProtectedRoute looks at `loading` and `isAuthenticated` only. */
  lemma ProtectedRouteReadsTwoFlags(s: AuthState, t: AuthState)
    requires s.loading == t.loading && s.isAuthenticated == t.isAuthenticated
    ensures ProtectedRoute(s) == ProtectedRoute(t)
  {
  }

  /** Anything AdminRoute lets through, ProtectedRoute lets through too. */
  lemma AdminRenderImpliesProtectedRender(s: AuthState)
    ensures AdminRoute(s) == Render ==> ProtectedRoute(s) == Render
  {
  }

  /** A visitor who is not signed in is sent to the login page even when the
      stored user record claims administrator rights. */
  lemma AdminRouteNeedsSession(s: AuthState)
    requires !s.loading && !s.isAuthenticated && UserIsAdmin(s.user)
    ensures AdminRoute(s) == Redirect(Login)
  {
  }

  /** In every state the auth slice can reach (`SessionConsistent`), the
      `isAdmin` flag agrees with the user record, so reading either gives the
      same admin decision. */
  lemma AdminRouteOnConsistentState(s: AuthState)
    requires SessionConsistent(s)
    ensures AdminRoute(s) == Render <==> !s.loading && s.isAuthenticated && s.isAdmin
  {
  }

  /** The slice's `isAdmin` flag does not open the admin route: a signed-in
      session whose user record is not an administrator goes to "/", and one
      whose record is, passes, whatever the flag says. */
  lemma AdminRouteIgnoresFlag(s: AuthState)
    requires !s.loading && s.isAuthenticated
    ensures AdminRoute(s) == AdminRoute(s.(isAdmin := !s.isAdmin))
    ensures s.user == None ==> AdminRoute(s) == Redirect(Root)
  {
  }
}
