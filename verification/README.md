# Movie ticket booking client: store slices and routing, in Dafny

This project models the client-side state layer of a movie-ticket booking web
client and the routing decisions built on it:

- the three Redux slices: movies (`movies`, `currentMovie`, `loading`,
  `error`), bookings (`bookings`, `allBookings`, `loading`, `error`,
  `success`) and auth (`user`, `access_token`, `isAuthenticated`, `isAdmin`,
  `loading`, `error`). Each slice is a class whose fields are the slice's
  fields. Each case reducer is a method that assigns those fields as the
  reducer assigns its draft. Every asynchronous operation has a pending, a
  fulfilled and a rejected handler;
- the browser storage the auth slice persists its session in. It is a
  `map<string, string>` field of the auth store. The bootstrap that seeds
  the auth state from storage when the page loads is the store's constructor;
- the two route guards, `ProtectedRoute` and `AdminRoute`. They are pure
  functions from the auth state to `Loading | Redirect(route) | Render`;
- the route table of `App.tsx`. It maps a requested route and the auth state
  to the element the router mounts: the loading placeholder, a redirect or a
  page. A function follows redirects to the route where navigation stops.

The list work of the reducers sits in a generic module `Seqs`, keyed by an
integer field: `findIndex` (a specification function and the scanning loop),
overwrite-at-first-match and `filter`. The movie reducers key on `movie.id`.
The cancel reducer keys on `booking.movie_id`.

Files: `domain.dfy` (records, the auth state value, the rejected-message
rule), `seqs.dfy`, `movie_slice.dfy`, `booking_slice.dfy`, `auth_slice.dfy`,
`guards.dfy` (routes and guards), `app.dfy` (route table), `session.dfy`
(what the guards and the route table show after the auth handlers run).

The model follows the code, including four places that differ from the
obvious reading:

- `register.fulfilled` stores the token in the state and in storage but sets
  `isAuthenticated` to false. So "authenticated exactly when a token is held"
  does not hold after a registration, and the next page load does
  authenticate the session (`AuthSlice.ReloadAfterRegister`).
- `updateMovie.fulfilled` makes the payload the current movie whether or not
  the current movie was the one updated.
- `cancelBooking.fulfilled` removes every booking whose `movie_id` equals its
  argument, not the booking with that id.
- At bootstrap, `isAuthenticated` depends on the stored token alone. A stored
  user that fails to parse is dropped, but next to a non-empty token the
  session still starts authenticated, with no user.

`AdminRoute` and "/" test the user record (`user?.is_admin`), not the slice's
`isAdmin` flag. Every auth handler, and the bootstrap, keeps the flag equal to
`user?.is_admin` and keeps "authenticated implies a token is held"
(`AuthSlice.AuthStore.Valid`, `Domain.SessionConsistent`). So in every state
the store can reach, reading the flag or the record gives the same decision
(`Guards.AdminRouteOnConsistentState`). `Guards.AdminRouteIgnoresFlag` is
about arbitrary states, and the difference it shows cannot be observed
through the store.

## Model

| member | source | states |
|---|---|---|
| `Lifecycle.ErrorMessage` | src/store/slices/movieSlice.ts:103 | `payload?.message \|\| fallback`: the result is the payload's message when it is present and non-empty, otherwise the fallback; it is never empty when the fallback is not |
| `Domain.UserIsAdmin` | src/store/slices/authSlice.ts:21 | `user?.is_admin \|\| false` (also authSlice.ts:82 and 103, AdminRoute.tsx:20, App.tsx:34): false without a user record, otherwise the record's `is_admin` |
| `Seqs.FirstIndex` | src/store/slices/movieSlice.ts:143 | the index `findIndex` returns: -1 exactly when no element has the key, otherwise an element with the key and no earlier element with it |
| `Seqs.FindIndex` | src/store/slices/movieSlice.ts:143 | the scanning loop returns exactly that first index, or -1 |
| `Seqs.ReplaceFirst` | src/store/slices/movieSlice.ts:143-146 | same length; unchanged when no element has the payload's key; otherwise the first element with that key, and only it, is replaced by the payload |
| `Seqs.RemoveAll` | src/store/slices/movieSlice.ts:162 | `filter(x => key(x) !== k)`: no survivor has key `k`, every survivor was in the input, and every input element with another key survives |
| `Seqs.RemoveAllAppend` | src/store/slices/movieSlice.ts:162 | filtering distributes over concatenation, so the survivors keep their relative order |
| `Seqs.RemoveAllSingleton` | src/store/slices/movieSlice.ts:162 | a single element survives exactly when its key differs |
| `Seqs.RemoveAllIdempotent` | src/store/slices/bookingSlice.ts:138 | filtering twice with the same key equals filtering once |
| `Seqs.RemoveAllNoMatch` | src/store/slices/movieSlice.ts:162 | when no element has the key, the filter returns its input unchanged |
| `Seqs.RemoveAllLength` | src/store/slices/movieSlice.ts:162 | the length drops by exactly the number of elements that have the key |
| `MovieSlice.Fallback` | src/store/slices/movieSlice.ts:103 | each of the five operations has its own rejection message (also 117, 132, 151, 169), none of them empty |
| `MovieSlice.MovieStore.constructor` | src/store/slices/movieSlice.ts:12-17 | `initialState`: no movies, no current movie, not loading, no error |
| `MovieSlice.MovieStore.ClearMovieError` | src/store/slices/movieSlice.ts:84-86 | `error` becomes null; every other field is unchanged |
| `MovieSlice.MovieStore.ClearCurrentMovie` | src/store/slices/movieSlice.ts:87-89 | `currentMovie` becomes null; every other field is unchanged |
| `MovieSlice.MovieStore.Pending` | src/store/slices/movieSlice.ts:93-96 | for each of the five operations (the same case at 107-110, 122-125, 137-140 and 156-159): `loading` true, `error` null, `movies` and `currentMovie` unchanged |
| `MovieSlice.MovieStore.Rejected` | src/store/slices/movieSlice.ts:101-104 | for each of the five operations (also 115-118, 130-133, 149-152, 167-170): `loading` false, `error` the payload message or that operation's fallback, so never empty; `movies` and `currentMovie` unchanged |
| `MovieSlice.MovieStore.FetchMoviesFulfilled` | src/store/slices/movieSlice.ts:97-100 | `movies` is exactly the payload, in its order and without dedup; `loading` false; `currentMovie` and `error` unchanged |
| `MovieSlice.MovieStore.FetchMovieFulfilled` | src/store/slices/movieSlice.ts:111-114 | only `currentMovie` (to the payload) and `loading` (to false) change |
| `MovieSlice.MovieStore.AddMovieFulfilled` | src/store/slices/movieSlice.ts:126-129 | the payload is appended: the old list followed by the payload |
| `MovieSlice.MovieStore.UpdateMovieFulfilled` | src/store/slices/movieSlice.ts:141-148 | `movies` becomes `ReplaceFirst` of the old list, computed through the `findIndex` loop; `currentMovie` becomes the payload unconditionally |
| `MovieSlice.MovieStore.DeleteMovieFulfilled` | src/store/slices/movieSlice.ts:160-166 | `movies` becomes the old list without that id: no movie left has the id, every movie with another id is still there, and the length drops by the number of movies that had the id; `currentMovie` is cleared only when its id is the deleted id |
| `MovieSlice.UpdateReplacesFirstMatch` | src/store/slices/movieSlice.ts:143-146 | on a match at first index `i`, position `i` holds the payload and every other position and the length are unchanged |
| `BookingSlice.Fallback` | src/store/slices/bookingSlice.ts:94 | each of the four operations has its own rejection message (also 109, 126, 143), none of them empty |
| `BookingSlice.BookingStore.constructor` | src/store/slices/bookingSlice.ts:13-19 | `initialState`: both lists empty, not loading, no error, no success message |
| `BookingSlice.BookingStore.ClearBookingError` | src/store/slices/bookingSlice.ts:74-76 | only `error` changes, to null |
| `BookingSlice.BookingStore.ClearBookingSuccess` | src/store/slices/bookingSlice.ts:77-79 | only `success` changes, to null |
| `BookingSlice.BookingStore.Pending` | src/store/slices/bookingSlice.ts:114-118 | `loading` true and `error` null for all four operations; `success` becomes null for booking and cancelling and is kept by the two fetches (84-87, 99-102); lists unchanged |
| `BookingSlice.BookingStore.Rejected` | src/store/slices/bookingSlice.ts:124-127 | for each operation (also 92-95, 107-110, 141-144): `loading` false, `error` message or fallback; both lists and `success` unchanged |
| `BookingSlice.BookingStore.FetchUserBookingsFulfilled` | src/store/slices/bookingSlice.ts:88-91 | `bookings` becomes the payload; `allBookings`, `error` and `success` unchanged |
| `BookingSlice.BookingStore.FetchAllBookingsFulfilled` | src/store/slices/bookingSlice.ts:103-106 | `allBookings` becomes the payload; `bookings`, `error` and `success` unchanged |
| `BookingSlice.BookingStore.BookMovieFulfilled` | src/store/slices/bookingSlice.ts:119-123 | the payload is appended to `bookings`, not to `allBookings`; `success` is "Movie booked successfully!" |
| `BookingSlice.BookingStore.CancelBookingFulfilled` | src/store/slices/bookingSlice.ts:136-140 | `bookings` loses every booking whose `movie_id` is the argument: none of that movie is left, every booking of another movie remains in order, and the count drops by the number of bookings of that movie; `allBookings` unchanged; `success` is "Booking cancelled successfully!" |
| `BookingSlice.BookSoldOut` | src/store/slices/bookingSlice.ts:114-127 | booking pending then rejected with "Sold out": `error` "Sold out", `loading` false, `success` null, both lists unchanged |
| `BookingSlice.CancelTwice` | src/store/slices/bookingSlice.ts:138 | cancelling the same movie twice leaves the bookings the first cancellation left |
| `AuthSlice.GetItem` | src/store/slices/authSlice.ts:5-6 | `localStorage.getItem`: a value exactly when the key is stored, and then the stored value |
| `AuthSlice.Truthy` | src/store/slices/authSlice.ts:20 | `!!token` on a `string \| null`: true exactly when the value is present and not the empty string (the same test guards the user entry at line 9) |
| `AuthSlice.StoredUser` | src/store/slices/authSlice.ts:5-15 | the user bootstrap reads back: null when the entry is missing or empty, the parsed value when it parses, and only ever a value that the stored non-empty text parses to |
| `AuthSlice.Fallback` | src/store/slices/authSlice.ts:89 | "Registration failed" for register and "Authentication failed" for login (line 110), neither empty |
| `AuthSlice.AuthStore.Selected` | src/components/auth/AdminRoute.tsx:10 | the state the components select (also ProtectedRoute.tsx:10, App.tsx:25) is session-consistent (authenticated only with a token, `isAdmin` equal to `user?.is_admin`) exactly when the store satisfies its invariant |
| `AuthSlice.AuthStore.constructor` | src/store/slices/authSlice.ts:5-24 | bootstrap: `isAuthenticated` exactly when a non-empty token is stored, whatever the user entry holds; `access_token` is the stored token; the user is the parsed entry, or null when the entry is missing, empty or unparsable; an unparsable entry is removed from storage and raises nothing; `isAdmin` is `user?.is_admin`; `loading` false and `error` null; the store starts session-consistent (`Valid`), which every handler then keeps |
| `AuthSlice.AuthStore.ClearError` | src/store/slices/authSlice.ts:66-68 | only `error` changes, to null |
| `AuthSlice.AuthStore.Pending` | src/store/slices/authSlice.ts:73-76 | register and login pending (also 94-97): `loading` true, `error` null; session fields and storage unchanged |
| `AuthSlice.AuthStore.Rejected` | src/store/slices/authSlice.ts:87-90 | register and login rejected (also 108-111): `loading` false, `error` message or "Registration failed" / "Authentication failed"; `user`, `access_token`, `isAuthenticated`, `isAdmin` and storage unchanged |
| `AuthSlice.AuthStore.LoginFulfilled` | src/store/slices/authSlice.ts:98-106 | token and user from the response, `isAuthenticated` true, `isAdmin` the user's flag (false without a user), `loading` false; storage gains the token and the serialized user |
| `AuthSlice.AuthStore.RegisterFulfilled` | src/store/slices/authSlice.ts:77-86 | the same state and storage as login, except `isAuthenticated` false |
| `AuthSlice.AuthStore.RemoveSession` | src/services/authService.ts:20-23 | storage loses `access_token` and `user`; the slice's fields are unchanged |
| `AuthSlice.AuthStore.LogoutFulfilled` | src/store/slices/authSlice.ts:114-120 | `user` and `access_token` null, `isAuthenticated` and `isAdmin` false; `loading`, `error` and storage unchanged |
| `AuthSlice.AuthStore.Logout` | src/store/slices/authSlice.ts:50-60 | the thunk then its fulfilled case: the session is cleared and both storage entries are removed; `loading` and `error` unchanged |
| `AuthSlice.LoginSucceeds` | src/store/slices/authSlice.ts:94-106 | login pending then fulfilled: authenticated with the response's user, no error, not loading, the token persisted |
| `AuthSlice.ReloadAfterLogin` | src/store/slices/authSlice.ts:98-106 | with a non-empty token and a parse that inverts the serialization, reloading after a login restores the same user, token, authentication and admin flag |
| `AuthSlice.ReloadAfterRegister` | src/store/slices/authSlice.ts:77-86 | with a non-empty token, the session is unauthenticated after registering but authenticated after the next page load |
| `AuthSlice.BootWithCorruptUser` | src/store/slices/authSlice.ts:9-20 | a non-empty token next to an unparsable user entry: authenticated, no user, not admin, no error, and only the token is left in storage |
| `Guards.ProtectedRoute` | src/components/auth/ProtectedRoute.tsx:9-21 | Loading exactly when loading; Render exactly when not loading and authenticated; otherwise a redirect, and the only redirect target is "/login" |
| `Guards.ProtectedRouteReadsTwoFlags` | src/components/auth/ProtectedRoute.tsx:10-20 | two states that agree on `loading` and `isAuthenticated` get the same decision |
| `Guards.AdminRoute` | src/components/auth/AdminRoute.tsx:9-25 | Loading exactly when loading; Redirect("/login") exactly when not loading and not authenticated; Redirect("/") exactly when authenticated and the user is missing or not an administrator; Render exactly when authenticated with `user.is_admin` |
| `Guards.AdminRenderImpliesProtectedRender` | src/components/auth/AdminRoute.tsx:12-24 | whenever AdminRoute renders, ProtectedRoute renders for the same state |
| `Guards.AdminRouteNeedsSession` | src/components/auth/AdminRoute.tsx:16-18 | not authenticated goes to "/login" even when the user record says administrator |
| `Guards.AdminRouteOnConsistentState` | src/components/auth/AdminRoute.tsx:10-24 | on every session-consistent state, which is every state the auth store can reach, AdminRoute renders exactly when not loading, authenticated and the slice's `isAdmin` flag is set |
| `Guards.AdminRouteIgnoresFlag` | src/components/auth/AdminRoute.tsx:10-22 | flipping the slice's `isAdmin` flag never changes the decision; an authenticated session with no user goes to "/" |
| `App.RouteElement` | src/App.tsx:30-78 | a spinner only on a guarded route while loading; redirects only to "/", "/login", "/admin" or "/dashboard"; a guarded page is shown only when authenticated, and "/admin" only to an administrator; "/login" and "/register" redirect to "/" exactly when authenticated |
| `App.RootDispatch` | src/App.tsx:32-38 | "/": authenticated administrator to "/admin", any other authenticated session (null user included) to "/dashboard", otherwise the home page |
| `App.FormsForVisitors` | src/App.tsx:40-41 | "/login" and "/register" show their form when not authenticated and redirect to "/" when authenticated |
| `App.GuardOfEachRoute` | src/App.tsx:44-74 | "/admin" is behind AdminRoute; "/dashboard", "/booking-history", "/movies/:id" and "/admin/movies/edit/:id" are behind ProtectedRoute only |
| `App.NonAdminReachesEditPage` | src/App.tsx:63-74 | an authenticated non-administrator is shown the movie edit page but is redirected away from "/admin" |
| `App.UnmatchedIsNotFound` | src/App.tsx:77 | any undeclared path shows the not-found page |
| `App.Follow` | src/App.tsx:32-74 | a route that mounts no redirect is where navigation rests, and after two or more hops the route reached mounts no redirect |
| `App.RedirectsSettle` | src/App.tsx:32-74 | there is no redirect loop: after at most two redirects every route mounts a page or the placeholder |
| `App.SignedInUserLands` | src/App.tsx:32-41 | an authenticated user asking for "/login" or "/register" ends at "/admin" if the user record is an administrator, else at "/dashboard", and once loaded sees that dashboard |
| `App.VisitorLandsOnLogin` | src/App.tsx:40-67 | a visitor who is not authenticated and asks for a guarded page ends on the login form |
| `Session.RegisterThenOpenDashboard` | src/store/slices/authSlice.ts:77-86 | after a registration the token is held and the selected state is consistent, yet ProtectedRoute (ProtectedRoute.tsx:16-18) sends the new user to "/login" and "/login" shows its form |
| `Session.LoginThenOpenRoot` | src/store/slices/authSlice.ts:98-106 | after a login "/" redirects to "/admin" exactly for an administrator record and to "/dashboard" otherwise (App.tsx:32-38); AdminRoute renders exactly for an administrator record; ProtectedRoute renders |
| `Session.BootWithCorruptUserThenOpenRoot` | src/store/slices/authSlice.ts:9-21 | a page load with a token and an unparsable user entry: "/" redirects to "/dashboard", ProtectedRoute renders and AdminRoute redirects to "/" (AdminRoute.tsx:20-22) |
| `Session.LogoutThenOpenAdmin` | src/store/slices/authSlice.ts:114-120 | after a logout outside a request both guards redirect to "/login" and "/" shows the home page |

## Left out

- The thunk bodies and the services that call the backend over HTTP. A fulfilled or rejected payload is an input to its handler. The fallback strings the thunks put into rejection payloads are the same strings the reducers fall back to, so the model keeps one fallback per operation.
- Concurrency between requests in flight and the order in which they complete. Each handler is one atomic update, and any interleaving of handlers can be composed from the methods.
- The rejection payload as an arbitrary object: only its `message` field matters, as an optional string. A non-string truthy `message` is not modelled.
- `JSON.parse` and `JSON.stringify`: they are supplied functions. Parsing yields a user, `null`, or a syntax error. A stored text that parses to something other than a user record is not modelled.
- A login or registration response without `access_token`: the token is a string in the model.
- `logout` has no pending or rejected case in the slice, so those actions change nothing and have no method.
- The real `localStorage` shared by the whole page: only the auth store reads or writes it, so it is that store's field.
- Route matching on strings: routes are a datatype. `Other` stands for a path that matches none of the declared patterns. The model does not check that its text differs from the declared paths.
- Presentational components, toasts, timers, date and currency formatting, the seat availability percentage, `MovieEditForm.tsx`, and the inline page checks in the dashboards. These are UI.
- Callers that pass a booking id where the cancel operation expects a movie id, and the booking form's field-name mismatch. The model states the slice's own contract.
