/**
 * The records the client exchanges with the booking backend (the files under src/types)
 * and the value of the auth slice that components select.
 * Numbers are modelled as unbounded integers, except the price, which is a
 * decimal amount and is never computed with here.
 */
module Domain {

  /** `T | null` (and `undefined`) in the source. */
  datatype Option<+T> = None | Some(value: T)

  datatype Movie = Movie(
    id: int,
    title: string,
    description: string,
    duration: int,
    price: real,
    showtime: string,
    totalSeats: int,
    availableSeats: int)

  /** The source declares `movie_title` as a number; the model keeps that type. */
  datatype Booking = Booking(
    id: int,
    user: int,
    movieTitle: int,
    numSeats: int,
    userName: string,
    showtime: string,
    movieId: int)

  datatype User = User(id: int, username: string, isAdmin: bool)

  /** The body of a successful login or registration response. The user is
      optional because the reducers read it as `payload.user?.is_admin`. */
  datatype AuthResponse = AuthResponse(
    message: string,
    accessToken: string,
    tokenType: string,
    user: Option<User>)

  /** What `useSelector(state => state.auth)` hands to the guards and the router. */
  datatype AuthState = AuthState(
    user: Option<User>,
    accessToken: Option<string>,
    isAuthenticated: bool,
    isAdmin: bool,
    loading: bool,
    error: Option<string>)

  /** The key `movie.id` that the movie reducers match on. */
  function MovieKey(m: Movie): int { m.id }

  /** The key `booking.movie_id` that the cancel reducer matches on. */
  function BookingMovieKey(b: Booking): int { b.movieId }

  /** `user?.is_admin || false`: absent user reads as not an administrator. */
  function UserIsAdmin(u: Option<User>): (r: bool)
    ensures r ==> u != None
    ensures u != None ==> r == u.value.isAdmin
  {
    u.Some? && u.value.isAdmin
  }

  /** The part of "authenticated exactly when a token is held" that the auth
      slice keeps: an authenticated session holds a token, and the `isAdmin`
      flag agrees with the user record. The converse of the first conjunct
      fails after a registration. */
  predicate SessionConsistent(s: AuthState)
  {
    (s.isAuthenticated ==> s.accessToken.Some?) && s.isAdmin == UserIsAdmin(s.user)
  }
}

/**
 * The one rule every rejected handler of every slice applies to its payload:
 * `payload?.message || fallback`.
 */
module Lifecycle {
  import opened Domain

  /** The message a rejected handler stores in `error`. `payload` is the
      `message` field of the rejection payload, `None` when the payload or
      the field is missing. JavaScript's `||` also skips the empty string. */
  function ErrorMessage(payload: Option<string>, fallback: string): (r: string)
    ensures r == fallback || (payload == Some(r) && r != "")
    ensures fallback != "" ==> r != ""
    ensures payload.Some? && payload.value != "" ==> r == payload.value
  {
    if payload.Some? && payload.value != "" then payload.value else fallback
  }
}
