/**
 * The booking slice (src/store/slices/bookingSlice.ts): the signed-in user's
 * bookings, every booking (for administrators), and the request lifecycle of
 * its four operations, which also report a success message.
 */
module BookingSlice {
  import opened Domain
  import opened Lifecycle
  import Seqs

  /** The four asynchronous operations of the slice. */
  datatype BookingOp = FetchUserBookings | FetchAllBookings | BookMovie | CancelBooking

  /** The message a rejected handler falls back to when the payload has none. */
  function Fallback(op: BookingOp): (r: string)
    ensures r != ""
  {
    match op
    case FetchUserBookings => "Failed to fetch bookings"
    case FetchAllBookings => "Failed to fetch all bookings"
    case BookMovie => "Failed to book movie"
    case CancelBooking => "Failed to cancel booking"
  }

  /** Only the two operations that change bookings clear `success` when they start. */
  predicate ClearsSuccess(op: BookingOp)
  {
    op == BookMovie || op == CancelBooking
  }

  const BookedMessage: string := "Movie booked successfully!"
  const CancelledMessage: string := "Booking cancelled successfully!"

  class BookingStore {
    var bookings: seq<Booking>
    var allBookings: seq<Booking>
    var loading: bool
    var error: Option<string>
    var success: Option<string>

    /** `initialState`. */
    constructor ()
      ensures bookings == [] && allBookings == [] && !loading && error == None && success == None
    {
      bookings := [];
      allBookings := [];
      loading := false;
      error := None;
      success := None;
    }

    /** Reducer `clearBookingError`: only `error` changes. */
    method ClearBookingError()
      modifies this
      ensures error == None
      ensures bookings == old(bookings) && allBookings == old(allBookings)
      ensures loading == old(loading) && success == old(success)
    {
      error := None;
    }

    /** Reducer `clearBookingSuccess`: only `success` changes. */
    method ClearBookingSuccess()
      modifies this
      ensures success == None
      ensures bookings == old(bookings) && allBookings == old(allBookings)
      ensures loading == old(loading) && error == old(error)
    {
      success := None;
    }

    /** The pending handlers: the two fetches keep `success`, booking and
        cancelling clear it. */
    method Pending(op: BookingOp)
      modifies this
      ensures loading && error == None
      ensures success == if ClearsSuccess(op) then None else old(success)
      ensures bookings == old(bookings) && allBookings == old(allBookings)
    {
      loading := true;
      error := None;
      if ClearsSuccess(op) {
        success := None;
      }
    }

    /** The rejected handlers: message or fallback; lists and `success` untouched. */
    method Rejected(op: BookingOp, payload: Option<string>)
      modifies this
      ensures !loading && error == Some(ErrorMessage(payload, Fallback(op)))
      ensures error.Some? && error.value != ""
      ensures bookings == old(bookings) && allBookings == old(allBookings) && success == old(success)
    {
      loading := false;
      error := Some(ErrorMessage(payload, Fallback(op)));
    }

    /** `fetchUserBookings.fulfilled`: only `bookings` is replaced. */
    method FetchUserBookingsFulfilled(payload: seq<Booking>)
      modifies this
      ensures !loading && bookings == payload
      ensures allBookings == old(allBookings) && error == old(error) && success == old(success)
    {
      loading := false;
      bookings := payload;
    }

    /** `fetchAllBookings.fulfilled`: only `allBookings` is replaced. */
    method FetchAllBookingsFulfilled(payload: seq<Booking>)
      modifies this
      ensures !loading && allBookings == payload
      ensures bookings == old(bookings) && error == old(error) && success == old(success)
    {
      loading := false;
      allBookings := payload;
    }

    /** `bookMovie.fulfilled`: the new booking is pushed onto the user's list. */
    method BookMovieFulfilled(payload: Booking)
      modifies this
      ensures !loading && bookings == old(bookings) + [payload]
      ensures success == Some(BookedMessage)
      ensures allBookings == old(allBookings) && error == old(error)
    {
      loading := false;
      bookings := bookings + [payload];
      success := Some(BookedMessage);
    }

    /** `cancelBooking.fulfilled(movieId)`: every booking of that movie goes,
        matched on `movie_id` and not on the booking's own id. */
    method CancelBookingFulfilled(movieId: int)
      modifies this
      ensures !loading && bookings == Seqs.RemoveAll(old(bookings), BookingMovieKey, movieId)
      ensures success == Some(CancelledMessage)
      ensures allBookings == old(allBookings) && error == old(error)
      ensures forall i :: 0 <= i < |bookings| ==> bookings[i].movieId != movieId
      ensures forall j :: 0 <= j < |old(bookings)| && old(bookings)[j].movieId != movieId ==>
                old(bookings)[j] in bookings
      ensures |bookings| == |old(bookings)| - Seqs.CountKey(old(bookings), BookingMovieKey, movieId)
    {
      Seqs.RemoveAllLength(bookings, BookingMovieKey, movieId);
      loading := false;
      bookings := Seqs.RemoveAll(bookings, BookingMovieKey, movieId);
      success := Some(CancelledMessage);
    }
  }

  /** A booking that fails server-side with "Sold out": the error is the
      server's message and the user's bookings are as before. */
  method BookSoldOut(store: BookingStore)
    modifies store
    ensures store.error == Some("Sold out") && !store.loading && store.success == None
    ensures store.bookings == old(store.bookings) && store.allBookings == old(store.allBookings)
  {
    store.Pending(BookMovie);
    store.Rejected(BookMovie, Some("Sold out"));
  }

  /** A second cancellation of the same movie leaves the bookings as the first left them. */
  method CancelTwice(store: BookingStore, movieId: int)
    modifies store
    ensures store.bookings == Seqs.RemoveAll(old(store.bookings), BookingMovieKey, movieId)
    ensures store.success == Some(CancelledMessage)
  {
    store.CancelBookingFulfilled(movieId);
    store.CancelBookingFulfilled(movieId);
    Seqs.RemoveAllIdempotent(old(store.bookings), BookingMovieKey, movieId);
  }
}
