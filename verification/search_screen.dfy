/**
 * The search screen (src/screens/SearchScreen.js): every change of the text
 * field starts a search for the new text, unless the text is blank; the
 * results shown are the response's entries with a rating above zero.
 *
 * As for the home screen, the hooks are the fields of `SearchState`, the two
 * halves of the asynchronous `handleSearch` are step functions, and
 * `SearchController` is the object whose methods update the fields in place.
 * Searches issued and not yet answered are kept, in issue order, in `inFlight`.
 */
module SearchScreen {
  import opened JsText
  import opened Catalog

  /**
   * The entries a response keeps: those rated above zero, in their original
   * order; a rated entry is kept as often as it occurs, an unrated one never.
   */
  function FilterRated(results: seq<Movie>): (r: seq<Movie>)
    ensures |r| <= |results|
    ensures forall m :: m in r <==> m in results && HasRating(m)
    ensures forall m :: multiset(r)[m] == if HasRating(m) then multiset(results)[m] else 0
  {
    if results == [] then []
    else
      assert results == [results[0]] + results[1..];
      if HasRating(results[0]) then [results[0]] + FilterRated(results[1..])
      else FilterRated(results[1..])
  }

  /** Filtering a concatenation filters each part. */
  lemma {:induction false} FilterRatedAppend(a: seq<Movie>, b: seq<Movie>)
    ensures FilterRated(a + b) == FilterRated(a) + FilterRated(b)
    decreases |a|
  {
    if a == [] {
      assert a + b == b;
    } else {
      assert (a + b)[0] == a[0] && (a + b)[1..] == a[1..] + b;
      FilterRatedAppend(a[1..], b);
    }
  }

  /** `a` is `b` with some entries left out and the rest in the same order. */
  predicate IsSubsequence<T(==)>(a: seq<T>, b: seq<T>)
    decreases |b|
  {
    if a == [] then true
    else if b == [] then false
    else if a[0] == b[0] then IsSubsequence(a[1..], b[1..])
    else IsSubsequence(a, b[1..])
  }

  /** Filtering only drops entries: what is kept keeps its relative order. */
  lemma {:induction false} FilterRatedIsSubsequence(results: seq<Movie>)
    ensures IsSubsequence(FilterRated(results), results)
    decreases |results|
  {
    if results != [] {
      FilterRatedIsSubsequence(results[1..]);
      var r := FilterRated(results);
      if !HasRating(results[0]) && r != [] {
        assert r[0] in r;
      }
    }
  }

  /** A response whose entries all have a positive rating is kept whole. */
  lemma {:induction false} FilterRatedKeepsRatedResponse(results: seq<Movie>)
    requires forall k :: 0 <= k < |results| ==> HasRating(results[k])
    ensures FilterRated(results) == results
    decreases |results|
  {
    if results != [] {
      FilterRatedKeepsRatedResponse(results[1..]);
    }
  }

  /**
   * The screen's state: its four hooks and the queries sent and not yet
   * answered.
   */
  datatype SearchState = SearchState(
    searchQuery: string,
    movies: seq<Movie>,
    loading: bool,
    searched: bool,
    inFlight: seq<string>)

  /**
   * What every reachable state satisfies: `loading` is only raised while a
   * search awaits its answer, and no blank query is ever sent.
   */
  ghost predicate SearchInv(s: SearchState) {
    && (s.loading ==> s.inFlight != [])
    && (forall q :: q in s.inFlight ==> !IsBlank(q))
  }

  /** The state when the screen mounts. */
  function Initial(): (s: SearchState)
    ensures s.searchQuery == [] && s.movies == [] && !s.loading && !s.searched
    ensures s.inFlight == []
  {
    SearchState([], [], false, false, [])
  }

  /**
   * The synchronous half of `handleSearch(query)`. A blank query empties the
   * list and clears `searched`, sends nothing and leaves `loading` as it is;
   * any other query raises `loading` and is sent as typed, the list and
   * `searched` left for the answer to set.
   */
  function SearchStarted(s: SearchState, query: string): (t: SearchState)
    ensures t.searchQuery == s.searchQuery
    ensures IsBlank(query) ==>
      t.movies == [] && !t.searched && t.loading == s.loading && t.inFlight == s.inFlight
    ensures !IsBlank(query) ==>
      t.loading && t.inFlight == s.inFlight + [query]
      && t.movies == s.movies && t.searched == s.searched
  {
    TrimEmptyIffBlank(query);
    if Trim(query) == [] then s.(movies := [], searched := false)
    else s.(loading := true, inFlight := s.inFlight + [query])
  }

  /** The text field's `onChangeText`: the text is stored and searched for. */
  function TextChanged(s: SearchState, text: string): (t: SearchState)
    ensures t.searchQuery == text
    ensures t == SearchStarted(s, text).(searchQuery := text)
  {
    SearchStarted(s.(searchQuery := text), text)
  }

  /**
   * The `i`-th pending search answers: the list becomes the rated entries of
   * the response, `searched` is set and `loading` drops, whichever query the
   * answer belongs to.
   */
  function SearchSucceeded(s: SearchState, i: nat, results: seq<Movie>): (t: SearchState)
    requires i < |s.inFlight|
    ensures t.movies == FilterRated(results) && t.searched && !t.loading
    ensures t.searchQuery == s.searchQuery && t.inFlight == RemoveAt(s.inFlight, i)
  {
    s.(movies := FilterRated(results), searched := true, loading := false,
       inFlight := RemoveAt(s.inFlight, i))
  }

  /**
   * The `i`-th pending search fails: the list and `searched` are kept and
   * `loading` drops.
   */
  function SearchFailed(s: SearchState, i: nat): (t: SearchState)
    requires i < |s.inFlight|
    ensures t.movies == s.movies && t.searched == s.searched && !t.loading
    ensures t.searchQuery == s.searchQuery && t.inFlight == RemoveAt(s.inFlight, i)
  {
    s.(loading := false, inFlight := RemoveAt(s.inFlight, i))
  }

  /** What the screen renders below the text field. */
  datatype SearchView = Spinner | NotFound | Results(movies: seq<Movie>)

  /**
   * The render branch: the spinner while loading; otherwise "not found" when a
   * search has answered with nothing to show; otherwise the list.
   */
  function SearchViewOf(s: SearchState): (v: SearchView)
    ensures v == Spinner <==> s.loading
    ensures v == NotFound <==> !s.loading && s.searched && s.movies == []
    ensures v.Results? ==> v.movies == s.movies
  {
    if s.loading then Spinner
    else if s.searched && |s.movies| == 0 then NotFound
    else Results(s.movies)
  }

  /** The events that drive the screen. */
  datatype SearchEvent =
    | TextChange(text: string)
    | SearchOk(index: nat, results: seq<Movie>)
    | SearchError(index: nat)

  /** A response answers a pending search; the text field is always there. */
  predicate Enabled(s: SearchState, e: SearchEvent) {
    match e
    case TextChange(_) => true
    case SearchOk(i, _) => i < |s.inFlight|
    case SearchError(i) => i < |s.inFlight|
  }

  /** The state after one event. */
  function Next(s: SearchState, e: SearchEvent): SearchState
    requires Enabled(s, e)
  {
    match e
    case TextChange(text) => TextChanged(s, text)
    case SearchOk(i, results) => SearchSucceeded(s, i, results)
    case SearchError(i) => SearchFailed(s, i)
  }

  /** Each event keeps the invariant. */
  lemma NextPreservesInv(s: SearchState, e: SearchEvent)
    requires SearchInv(s) && Enabled(s, e)
    ensures SearchInv(Next(s, e))
  {
  }

  /**
   * After a search answers, "not found" is shown exactly when no entry of the
   * response has a positive rating; otherwise the rated entries are listed.
   */
  lemma AnsweredSearchView(s: SearchState, i: nat, results: seq<Movie>)
    requires i < |s.inFlight|
    ensures (forall m :: m in results ==> !HasRating(m)) ==>
      SearchViewOf(SearchSucceeded(s, i, results)) == NotFound
    ensures (exists m :: m in results && HasRating(m)) ==>
      SearchViewOf(SearchSucceeded(s, i, results)) == Results(FilterRated(results))
  {
  }

  /**
   * Clearing the field while a search is pending empties the list and sends
   * nothing, but the spinner stays up, and when the pending search answers its
   * results fill the list again under the empty field.
   */
  lemma ClearWhileSearching(s: SearchState, q: string, results: seq<Movie>)
    requires !IsBlank(q)
    ensures var t1 := TextChanged(s, q);
      var t2 := TextChanged(t1, "");
      && t2.movies == [] && !t2.searched && t2.inFlight == t1.inFlight
      && SearchViewOf(t2) == Spinner
      && var t3 := SearchSucceeded(t2, |t2.inFlight| - 1, results);
      && t3.searchQuery == "" && t3.movies == FilterRated(results) && t3.searched
  {
  }

  /**
   * Answers are not matched to the latest query: when an earlier search
   * answers after a later one, its results replace the later ones, and the
   * spinner already dropped at the first answer while the other search was
   * still pending.
   */
  lemma OutOfOrderAnswers(s: SearchState, q1: string, q2: string, r1: seq<Movie>, r2: seq<Movie>)
    requires !IsBlank(q1) && !IsBlank(q2)
    ensures var t := TextChanged(TextChanged(s, q1), q2);
      && t.inFlight == s.inFlight + [q1, q2]
      && var u := SearchSucceeded(t, |t.inFlight| - 1, r2);
      && u.inFlight == s.inFlight + [q1]
      && SearchViewOf(u) != Spinner
      && var w := SearchSucceeded(u, |s.inFlight|, r1);
      && w.searchQuery == q2 && w.movies == FilterRated(r1)
  {
    var t1 := TextChanged(s, q1);
    assert t1.inFlight == s.inFlight + [q1];
    var t := TextChanged(t1, q2);
    assert t.inFlight == s.inFlight + [q1, q2];
    var u := SearchSucceeded(t, |t.inFlight| - 1, r2);
    assert u.inFlight == t.inFlight[..|t.inFlight| - 1] + t.inFlight[|t.inFlight|..];
    assert u.inFlight == s.inFlight + [q1];
  }

  /**
   * The search screen as an object: the hooks are fields that the handlers
   * update in place, in the order the source sets them.
   */
  class SearchController {
    var searchQuery: string
    var movies: seq<Movie>
    var loading: bool
    var searched: bool
    var inFlight: seq<string>

    /** The fields as a state value. */
    function State(): SearchState
      reads this
    {
      SearchState(searchQuery, movies, loading, searched, inFlight)
    }

    ghost predicate Valid()
      reads this
    {
      SearchInv(State())
    }

    /** Mounting: the initial values of the four hooks. */
    constructor ()
      ensures Valid() && State() == Initial()
    {
      searchQuery := [];
      movies := [];
      loading := false;
      searched := false;
      inFlight := [];
    }

    /** The synchronous half of `handleSearch(query)`. */
    method HandleSearch(query: string)
      requires Valid()
      modifies this
      ensures Valid() && State() == SearchStarted(old(State()), query)
    {
      TrimEmptyIffBlank(query);
      if Trim(query) == [] {
        movies := [];
        searched := false;
        return;
      }
      loading := true;
      inFlight := inFlight + [query];
    }

    /** The text field's `onChangeText`. */
    method OnChangeText(text: string)
      requires Valid()
      modifies this
      ensures Valid() && State() == TextChanged(old(State()), text)
    {
      searchQuery := text;
      HandleSearch(text);
    }

    /** The `try` branch after the `await`, then `finally`. */
    method SearchResolved(i: nat, results: seq<Movie>)
      requires Valid() && i < |inFlight|
      modifies this
      ensures Valid() && State() == SearchSucceeded(old(State()), i, results)
    {
      ghost var s := State();
      movies := FilterRated(results);
      searched := true;
      loading := false;
      inFlight := RemoveAt(inFlight, i);
      NextPreservesInv(s, SearchOk(i, results));
    }

    /** The `catch` branch, then `finally`. */
    method SearchRejected(i: nat)
      requires Valid() && i < |inFlight|
      modifies this
      ensures Valid() && State() == SearchFailed(old(State()), i)
    {
      ghost var s := State();
      loading := false;
      inFlight := RemoveAt(inFlight, i);
      NextPreservesInv(s, SearchError(i));
    }
  }
}
