/**
 * The boundary with the remote movie catalog: the title summaries the listing
 * and search endpoints return, the two listing endpoints, and the
 * bookkeeping of requests that have been issued and not yet answered.
 * The HTTP client itself is not modelled: a request either answers with a page
 * of results or fails.
 */
module Catalog {
  import opened Wrappers

  /** One entry of a listing or search response (`results[k]`). */
  datatype Movie = Movie(id: int, title: string, voteAverage: Option<real>)

  /**
   * `movie.vote_average > 0`: a missing rating compares false, a present one
   * passes exactly when it is above zero.
   */
  predicate HasRating(m: Movie)
    ensures m.voteAverage.None? ==> !HasRating(m)
    ensures m.voteAverage.Some? ==> (HasRating(m) <==> m.voteAverage.value > 0.0)
  {
    m.voteAverage.Some? && m.voteAverage.value > 0.0
  }

  /** The two paginated listing endpoints the home screen uses. */
  datatype ListEndpoint = PopularMovies | TopRatedMovies

  /** The requests still awaiting a response, with the `i`-th one answered. */
  function RemoveAt<T>(pending: seq<T>, i: nat): (r: seq<T>)
    requires i < |pending|
    ensures |r| == |pending| - 1
    ensures multiset(r) == multiset(pending) - multiset{pending[i]}
  {
    assert pending == pending[..i] + [pending[i]] + pending[i + 1..];
    pending[..i] + pending[i + 1..]
  }
}
