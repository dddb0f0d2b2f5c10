/**
 * What the router shows after the auth slice's handlers run: the state the
 * components select from the store (`useSelector(state => state.auth)`)
 * is passed to the guards of src/components/auth and to the route table of
 * src/App.tsx.
 */
module Session {
  import opened Domain
  import opened Routes
  import opened Guards
  import opened App
  import AuthSlice

  /** Right after a registration the token is held and persisted, yet the
      session is not authenticated, so every guarded page still sends the
      new user to the login form. */
  method RegisterThenOpenDashboard(store: AuthSlice.AuthStore, payload: AuthResponse,
                                   stringify: Option<User> -> string)
    modifies store
    ensures SessionConsistent(store.Selected())
    ensures store.accessToken.Some?
    ensures ProtectedRoute(store.Selected()) == Redirect(Login)
    ensures RouteElement(Dashboard, store.Selected()) == Navigate(Login)
    ensures RouteElement(Login, store.Selected()) == Show(LoginForm)
  {
    store.Pending(AuthSlice.Register);
    store.RegisterFulfilled(payload, stringify);
  }

  /** Right after a login, "/" sends the user to the dashboard of their role,
      and "/admin" opens exactly for a user whose record says administrator. */
  method LoginThenOpenRoot(store: AuthSlice.AuthStore, payload: AuthResponse,
                           stringify: Option<User> -> string)
    modifies store
    ensures SessionConsistent(store.Selected())
    ensures RouteElement(Root, store.Selected()) ==
              Navigate(if UserIsAdmin(payload.user) then Admin else Dashboard)
    ensures AdminRoute(store.Selected()) == Render <==> UserIsAdmin(payload.user)
    ensures ProtectedRoute(store.Selected()) == Render
  {
    AuthSlice.LoginSucceeds(store, payload, stringify);
  }

  /** A page load with a token and a user entry that does not parse: the
      session is authenticated, "/" goes to the user dashboard, the guarded
      user pages open, and "/admin" sends the user back to "/". */
  method BootWithCorruptUserThenOpenRoot(token: string, text: string,
                                         parse: string -> AuthSlice.Parsed)
    returns (store: AuthSlice.AuthStore)
    requires token != "" && text != "" && parse(text) == AuthSlice.SyntaxError
    ensures SessionConsistent(store.Selected())
    ensures RouteElement(Root, store.Selected()) == Navigate(Dashboard)
    ensures ProtectedRoute(store.Selected()) == Render
    ensures AdminRoute(store.Selected()) == Redirect(Root)
  {
    store := AuthSlice.BootWithCorruptUser(token, text, parse);
  }

  /** After a logout that was not interrupting a request, both guards send
      the visitor to the login form and "/" shows the home page. */
  method LogoutThenOpenAdmin(store: AuthSlice.AuthStore)
    requires !store.loading
    modifies store
    ensures SessionConsistent(store.Selected())
    ensures ProtectedRoute(store.Selected()) == Redirect(Login)
    ensures AdminRoute(store.Selected()) == Redirect(Login)
    ensures RouteElement(Root, store.Selected()) == Show(HomePage)
  {
    store.Logout();
  }
}
