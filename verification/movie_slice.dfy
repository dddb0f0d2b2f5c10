/**
 * The movie slice (src/store/slices/movieSlice.ts): the movie list, the
 * movie being viewed, and the request lifecycle of its five operations.
 * Each case reducer is a method that assigns the fields of the store the
 * way the reducer assigns the fields of its draft.
 */
module MovieSlice {
  import opened Domain
  import opened Lifecycle
  import Seqs

  /** The five asynchronous operations of the slice. */
  datatype MovieOp = FetchMovies | FetchMovie | AddMovie | UpdateMovie | DeleteMovie

  /** The message a rejected handler falls back to when the payload has none. */
  function Fallback(op: MovieOp): (r: string)
    ensures r != ""
  {
    match op
    case FetchMovies => "Failed to fetch movies"
    case FetchMovie => "Failed to fetch movie"
    case AddMovie => "Failed to add movie"
    case UpdateMovie => "Failed to update movie"
    case DeleteMovie => "Failed to delete movie"
  }

  class MovieStore {
    var movies: seq<Movie>
    var currentMovie: Option<Movie>
    var loading: bool
    var error: Option<string>

    /** `initialState`. */
    constructor ()
      ensures movies == [] && currentMovie == None && !loading && error == None
    {
      movies := [];
      currentMovie := None;
      loading := false;
      error := None;
    }

    /** Reducer `clearMovieError`: only `error` changes. */
    method ClearMovieError()
      modifies this
      ensures error == None
      ensures movies == old(movies) && currentMovie == old(currentMovie) && loading == old(loading)
    {
      error := None;
    }

    /** Reducer `clearCurrentMovie`: only `currentMovie` changes. */
    method ClearCurrentMovie()
      modifies this
      ensures currentMovie == None
      ensures movies == old(movies) && loading == old(loading) && error == old(error)
    {
      currentMovie := None;
    }

    /** The pending handler, identical for all five operations. */
    method Pending(op: MovieOp)
      modifies this
      ensures loading && error == None
      ensures movies == old(movies) && currentMovie == old(currentMovie)
    {
      loading := true;
      error := None;
    }

    /** The rejected handler: the payload's message, or the operation's fallback. */
    method Rejected(op: MovieOp, payload: Option<string>)
      modifies this
      ensures !loading && error == Some(ErrorMessage(payload, Fallback(op)))
      ensures error.Some? && error.value != ""
      ensures movies == old(movies) && currentMovie == old(currentMovie)
    {
      loading := false;
      error := Some(ErrorMessage(payload, Fallback(op)));
    }

    /** `fetchMovies.fulfilled`: the list becomes the response, as it came. */
    method FetchMoviesFulfilled(payload: seq<Movie>)
      modifies this
      ensures !loading && movies == payload
      ensures currentMovie == old(currentMovie) && error == old(error)
    {
      loading := false;
      movies := payload;
    }

    /** `fetchMovie.fulfilled`: only the current movie is replaced. */
    method FetchMovieFulfilled(payload: Movie)
      modifies this
      ensures !loading && currentMovie == Some(payload)
      ensures movies == old(movies) && error == old(error)
    {
      loading := false;
      currentMovie := Some(payload);
    }

    /** `addMovie.fulfilled`: `movies.push(payload)`. */
    method AddMovieFulfilled(payload: Movie)
      modifies this
      ensures !loading && movies == old(movies) + [payload]
      ensures currentMovie == old(currentMovie) && error == old(error)
    {
      loading := false;
      movies := movies + [payload];
    }

    /** `updateMovie.fulfilled`: overwrite the first movie with the payload's
        id, if there is one; the current movie becomes the payload whether or
        not it was the one updated. */
    method UpdateMovieFulfilled(payload: Movie)
      modifies this
      ensures !loading && movies == Seqs.ReplaceFirst(old(movies), MovieKey, payload)
      ensures currentMovie == Some(payload) && error == old(error)
    {
      loading := false;
      var index := Seqs.FindIndex(movies, MovieKey, payload.id);
      if index != -1 {
        movies := movies[index := payload];
      }
      currentMovie := Some(payload);
    }

    /** `deleteMovie.fulfilled`: drop every movie with that id, and the
        current movie only when it is the one deleted. */
    method DeleteMovieFulfilled(id: int)
      modifies this
      ensures !loading && movies == Seqs.RemoveAll(old(movies), MovieKey, id)
      ensures currentMovie == (if old(currentMovie).Some? && old(currentMovie).value.id == id
                               then None else old(currentMovie))
      ensures error == old(error)
      ensures forall i :: 0 <= i < |movies| ==> movies[i].id != id
      ensures forall j :: 0 <= j < |old(movies)| && old(movies)[j].id != id ==> old(movies)[j] in movies
      ensures |movies| == |old(movies)| - Seqs.CountKey(old(movies), MovieKey, id)
    {
      Seqs.RemoveAllLength(movies, MovieKey, id);
      loading := false;
      movies := Seqs.RemoveAll(movies, MovieKey, id);
      if currentMovie.Some? && currentMovie.value.id == id {
        currentMovie := None;
      }
    }
  }

  /** An update that matches changes exactly one position, to the payload, and
      the length stays. The no-match case is part of `Seqs.ReplaceFirst`'s
      own contract. */
  lemma UpdateReplacesFirstMatch(before: seq<Movie>, payload: Movie, i: int)
    requires 0 <= i < |before| && before[i].id == payload.id
    requires forall j :: 0 <= j < i ==> before[j].id != payload.id
    ensures |Seqs.ReplaceFirst(before, MovieKey, payload)| == |before|
    ensures Seqs.ReplaceFirst(before, MovieKey, payload)[i] == payload
    ensures forall j :: 0 <= j < |before| && j != i ==>
              Seqs.ReplaceFirst(before, MovieKey, payload)[j] == before[j]
  {
  }
}
