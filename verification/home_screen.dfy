/**
 * The home listing screen (src/screens/HomeScreen.js): a two-tab, paginated list
 * of titles with pull-to-refresh and load-more on scroll.
 *
 * The screen's state hooks become the fields of `HomeState`. Each handler, and
 * each half of the asynchronous `fetchMovies`, is a step function on that state;
 * `HomeController` is the same screen as an object whose methods update its
 * fields in place and are proved to follow the step functions. The `useEffect`
 * hook is the step `EffectRun`: it issues a fetch of (activeTab, currentPage)
 * exactly when that pair differs from the one it last ran with. Requests that
 * have been issued and not answered are kept, in issue order, in `inFlight`; a
 * response names the request it answers by its index there, and the screen
 * never looks at which request that was.
 */
module HomeScreen {
  import opened Wrappers
  import opened JsText
  import opened Catalog

  /** The two tabs ("popular" and "topRated"). */
  datatype Tab = Popular | TopRated

  /** The message stored when a listing request fails. */
  const LoadError: string := "Ошибка загрузки фильмов"

  /** The endpoint `fetchMovies` calls for a tab. */
  function EndpointFor(tab: Tab): (e: ListEndpoint)
    ensures (e == PopularMovies) <==> (tab == Popular)
    ensures (e == TopRatedMovies) <==> (tab == TopRated)
  {
    match tab
    case Popular => PopularMovies
    case TopRated => TopRatedMovies
  }

  /** A listing request: which endpoint, which page. */
  datatype Fetch = Fetch(endpoint: ListEndpoint, page: int)

  /**
   * The screen's state: its six hooks, the (tab, page) pair the effect last ran
   * with (None before the first render), and the requests awaiting a response.
   */
  datatype HomeState = HomeState(
    movies: seq<Movie>,
    loading: bool,
    refreshing: bool,
    error: Option<string>,
    activeTab: Tab,
    currentPage: int,
    effectDeps: Option<(Tab, int)>,
    inFlight: seq<Fetch>)

  /** The effect has already run for the current (activeTab, currentPage). */
  predicate EffectSynced(s: HomeState) {
    s.effectDeps == Some((s.activeTab, s.currentPage))
  }

  /**
   * What every reachable state satisfies: pages start at 1, the only error is
   * the fixed message and it never coexists with `loading`, and neither
   * `loading` (once the screen has rendered) nor `refreshing` is raised
   * without a request awaiting its answer.
   */
  ghost predicate HomeInv(s: HomeState) {
    && s.currentPage >= 1
    && (s.error == None || s.error == Some(LoadError))
    && (s.error.Some? ==> !s.loading)
    && (s.loading ==> s.inFlight != [] || s.effectDeps == None)
    && (s.refreshing ==> s.inFlight != [])
    && (s.effectDeps.Some? ==> s.effectDeps.value.1 >= 1)
    && (forall f :: f in s.inFlight ==> f.page >= 1)
  }

  /** The state when the screen mounts. */
  function Initial(): (s: HomeState)
    ensures s.movies == [] && s.loading && !s.refreshing && s.error == None
    ensures s.activeTab == Popular && s.currentPage == 1
    ensures s.effectDeps == None && s.inFlight == []
  {
    HomeState([], true, false, None, Popular, 1, None, [])
  }

  /**
   * The synchronous half of `fetchMovies(tab, page)`: the error is cleared,
   * `loading` raised and the request for (tab, page) issued; the list is not
   * touched.
   */
  function Begun(s: HomeState, tab: Tab, page: int): (t: HomeState)
    ensures t.error == None && t.loading
    ensures t.inFlight == s.inFlight + [Fetch(EndpointFor(tab), page)]
    ensures t.(error := s.error, loading := s.loading, inFlight := s.inFlight) == s
  {
    s.(error := None, loading := true, inFlight := s.inFlight + [Fetch(EndpointFor(tab), page)])
  }

  /**
   * The `i`-th pending request answers with a page of results: the results are
   * appended after the current list whichever tab and page they were fetched
   * for, and both `loading` and `refreshing` drop.
   */
  function Succeeded(s: HomeState, i: nat, results: seq<Movie>): (t: HomeState)
    requires i < |s.inFlight|
    ensures |t.movies| == |s.movies| + |results|
    ensures t.movies[..|s.movies|] == s.movies && t.movies[|s.movies|..] == results
    ensures !t.loading && !t.refreshing
    ensures t.inFlight == RemoveAt(s.inFlight, i)
    ensures t.error == s.error && t.activeTab == s.activeTab && t.currentPage == s.currentPage
    ensures t.effectDeps == s.effectDeps
  {
    s.(movies := s.movies + results, loading := false, refreshing := false,
       inFlight := RemoveAt(s.inFlight, i))
  }

  /**
   * The `i`-th pending request fails: the fixed error message is stored, the
   * list is kept, and both `loading` and `refreshing` drop.
   */
  function Failed(s: HomeState, i: nat): (t: HomeState)
    requires i < |s.inFlight|
    ensures t.error == Some(LoadError) && t.movies == s.movies
    ensures !t.loading && !t.refreshing
    ensures t.inFlight == RemoveAt(s.inFlight, i)
    ensures t.activeTab == s.activeTab && t.currentPage == s.currentPage
    ensures t.effectDeps == s.effectDeps
  {
    s.(error := Some(LoadError), loading := false, refreshing := false,
       inFlight := RemoveAt(s.inFlight, i))
  }

  /**
   * A tab is pressed (whether or not it is already active): it becomes the
   * active tab, the page goes back to 1 and the list is emptied. The handler
   * issues no request itself.
   */
  function TabPressed(s: HomeState, tab: Tab): (t: HomeState)
    ensures t.activeTab == tab && t.currentPage == 1 && t.movies == []
    ensures t.(activeTab := s.activeTab, currentPage := s.currentPage, movies := s.movies) == s
  {
    s.(activeTab := tab, currentPage := 1, movies := [])
  }

  /**
   * `handleRefresh`: raises `refreshing`, empties the list, resets the page to 1
   * and fetches page 1 of the active tab directly.
   */
  function Refreshed(s: HomeState): (t: HomeState)
    ensures t.refreshing && t.movies == [] && t.currentPage == 1
    ensures t.activeTab == s.activeTab && t.effectDeps == s.effectDeps
    ensures t.loading && t.error == None
    ensures t.inFlight == s.inFlight + [Fetch(EndpointFor(s.activeTab), 1)]
  {
    Begun(s.(refreshing := true, movies := [], currentPage := 1), s.activeTab, 1)
  }

  /**
   * `handleLoadMore`: the page advances by exactly one when no fetch is
   * loading and stays put while one is; nothing else changes.
   */
  function LoadedMore(s: HomeState): (t: HomeState)
    ensures !s.loading ==> t.currentPage == s.currentPage + 1
    ensures s.loading ==> t == s
    ensures t.(currentPage := s.currentPage) == s
  {
    if !s.loading then s.(currentPage := s.currentPage + 1) else s
  }

  /**
   * The effect on [activeTab, currentPage]: after it the pair is recorded; a
   * request for the pair is issued exactly when the pair differs from the one
   * recorded before, and otherwise nothing changes.
   */
  function EffectRun(s: HomeState): (t: HomeState)
    ensures EffectSynced(t)
    ensures EffectSynced(s) ==> t == s
    ensures !EffectSynced(s) ==>
      t.inFlight == s.inFlight + [Fetch(EndpointFor(s.activeTab), s.currentPage)]
      && t.loading && t.error == None
      && t.movies == s.movies && t.refreshing == s.refreshing
      && t.activeTab == s.activeTab && t.currentPage == s.currentPage
  {
    if EffectSynced(s) then s
    else Begun(s.(effectDeps := Some((s.activeTab, s.currentPage))), s.activeTab, s.currentPage)
  }

  /** What the screen renders. Only `Listing` shows the tabs and the list. */
  datatype HomeView =
    | Spinner
    | ErrorView(message: string)
    | Listing(tab: Tab, movies: seq<Movie>, refreshing: bool)

  /**
   * The render branch: the full-screen spinner exactly while page 1 is
   * loading; otherwise the error text whenever an error is set (on any page);
   * otherwise the tabs and the list.
   */
  function HomeViewOf(s: HomeState): (v: HomeView)
    ensures v == Spinner <==> s.loading && s.currentPage == 1
    ensures v.ErrorView? <==> !(s.loading && s.currentPage == 1) && TruthyText(s.error)
    ensures v.ErrorView? ==> Some(v.message) == s.error
    ensures v.Listing? ==> v == Listing(s.activeTab, s.movies, s.refreshing)
  {
    if s.loading && s.currentPage == 1 then Spinner
    else if TruthyText(s.error) then ErrorView(s.error.value)
    else Listing(s.activeTab, s.movies, s.refreshing)
  }

  /** The events that drive the screen. */
  datatype HomeEvent =
    | EffectPass                                 // React runs the effect after a render
    | TabPress(tab: Tab)                         // a tab's onPress
    | PullToRefresh                              // RefreshControl's onRefresh
    | EndReached                                 // FlatList's onEndReached
    | FetchOk(index: nat, results: seq<Movie>)   // a pending request answers
    | FetchError(index: nat)                     // a pending request fails

  /**
   * Whether an event can occur: a response answers a pending request, and the
   * user events come from the tabs and the list, which exist only in the
   * listing view.
   */
  predicate Enabled(s: HomeState, e: HomeEvent) {
    match e
    case EffectPass => true
    case FetchOk(i, _) => i < |s.inFlight|
    case FetchError(i) => i < |s.inFlight|
    case _ => HomeViewOf(s).Listing?
  }

  /**
   * Under the spinner or the error message only the effect and the answers
   * of pending requests can occur; in the listing every user event can; an
   * answer is possible exactly for a request still pending. While a later
   * page loads the list stays up, so its events remain possible.
   */
  lemma EnabledEvents(s: HomeState, e: HomeEvent)
    ensures (e.FetchOk? || e.FetchError?) ==> (Enabled(s, e) <==> e.index < |s.inFlight|)
    ensures Enabled(s, e) && !HomeViewOf(s).Listing? ==> e.EffectPass? || e.FetchOk? || e.FetchError?
    ensures HomeViewOf(s).Listing? && !e.FetchOk? && !e.FetchError? ==> Enabled(s, e)
    ensures s.loading && s.currentPage > 1 && !TruthyText(s.error) && (e.TabPress? || e.PullToRefresh? || e.EndReached?)
      ==> Enabled(s, e)
  {
  }

  /** The state after one event. */
  function Next(s: HomeState, e: HomeEvent): HomeState
    requires Enabled(s, e)
  {
    match e
    case EffectPass => EffectRun(s)
    case TabPress(tab) => TabPressed(s, tab)
    case PullToRefresh => Refreshed(s)
    case EndReached => LoadedMore(s)
    case FetchOk(i, results) => Succeeded(s, i, results)
    case FetchError(i) => Failed(s, i)
  }

  /** Every event of `es` can occur in turn, starting from `s`. */
  predicate Admits(s: HomeState, es: seq<HomeEvent>)
    decreases |es|
  {
    es == [] || (Enabled(s, es[0]) && Admits(Next(s, es[0]), es[1..]))
  }

  /** The state after the events `es`, in order. */
  function Run(s: HomeState, es: seq<HomeEvent>): HomeState
    requires Admits(s, es)
    decreases |es|
  {
    if es == [] then s else Run(Next(s, es[0]), es[1..])
  }

  lemma InitialSatisfiesInv()
    ensures HomeInv(Initial()) && HomeViewOf(Initial()) == Spinner
  {
  }

  /** Each event keeps the invariant. */
  lemma NextPreservesInv(s: HomeState, e: HomeEvent)
    requires HomeInv(s) && Enabled(s, e)
    ensures HomeInv(Next(s, e))
  {
  }

  /** Every state reachable from the mounted screen satisfies the invariant. */
  lemma {:induction false} RunPreservesInv(s: HomeState, es: seq<HomeEvent>)
    requires HomeInv(s) && Admits(s, es)
    ensures HomeInv(Run(s, es))
    decreases |es|
  {
    if es != [] {
      NextPreservesInv(s, es[0]);
      RunPreservesInv(Next(s, es[0]), es[1..]);
    }
  }

  /**
   * Load-more on a settled screen advances exactly one page and fetches that
   * page of the same tab; further end-reached events are ignored while it
   * loads.
   */
  lemma LoadMoreFetchesNextPage(s: HomeState)
    requires !s.loading && EffectSynced(s)
    ensures var t := EffectRun(LoadedMore(s));
      && t.currentPage == s.currentPage + 1
      && t.inFlight == s.inFlight + [Fetch(EndpointFor(s.activeTab), s.currentPage + 1)]
      && t.movies == s.movies
      && LoadedMore(t) == t
  {
  }

  /**
   * The guard reads `loading`, which only rises once the effect has issued the
   * next page's request: two end-reached events handled before the effect
   * runs advance two pages, and only the later page is ever requested.
   */
  lemma LoadMoreTwiceBeforeEffect(s: HomeState)
    requires !s.loading && EffectSynced(s)
    ensures var t := EffectRun(LoadedMore(LoadedMore(s)));
      && t.currentPage == s.currentPage + 2
      && t.inFlight == s.inFlight + [Fetch(EndpointFor(s.activeTab), s.currentPage + 2)]
  {
  }

  /**
   * Refreshing from a page after the first requests page 1 twice: once
   * directly in the handler, and once more from the effect, because the page
   * number changed.
   */
  lemma RefreshFromLaterPageFetchesTwice(s: HomeState)
    requires EffectSynced(s) && s.currentPage > 1
    ensures var f := Fetch(EndpointFor(s.activeTab), 1);
      var t := EffectRun(Refreshed(s));
      && t.inFlight == s.inFlight + [f, f]
      && t.movies == [] && t.currentPage == 1 && t.refreshing && t.activeTab == s.activeTab
  {
  }

  /** Refreshing on page 1 requests page 1 once: the effect sees no change. */
  lemma RefreshOnFirstPageFetchesOnce(s: HomeState)
    requires EffectSynced(s) && s.currentPage == 1
    ensures var t := EffectRun(Refreshed(s));
      && t.inFlight == s.inFlight + [Fetch(EndpointFor(s.activeTab), 1)]
      && t.movies == [] && t.refreshing
  {
  }

  /**
   * Pressing the other tab empties the list and, through the effect, requests
   * page 1 of that tab, once.
   */
  lemma OtherTabFetchesFirstPage(s: HomeState, tab: Tab)
    requires EffectSynced(s) && tab != s.activeTab
    ensures var t := EffectRun(TabPressed(s, tab));
      && t.activeTab == tab && t.currentPage == 1 && t.movies == []
      && t.inFlight == s.inFlight + [Fetch(EndpointFor(tab), 1)]
  {
  }

  /**
   * Pressing the tab that is already active, on page 1, empties the list but
   * leaves (tab, page) as it was, so no request is issued: on a settled screen
   * the list stays empty.
   */
  lemma SameTabOnFirstPageEmptiesWithoutFetch(s: HomeState)
    requires EffectSynced(s) && s.currentPage == 1 && !s.loading && s.error == None
    ensures var t := EffectRun(TabPressed(s, s.activeTab));
      && t.inFlight == s.inFlight
      && HomeViewOf(t) == Listing(s.activeTab, [], s.refreshing)
  {
  }

  /**
   * No staleness check: a request for the previous tab that answers after the
   * switch lands in the new tab's list, and the new tab's first page is then
   * appended after it.
   */
  lemma StaleResultsAreKept(s: HomeState, tab: Tab, i: nat, stale: seq<Movie>, next: seq<Movie>)
    requires EffectSynced(s) && tab != s.activeTab && i < |s.inFlight|
    requires s.inFlight[i].endpoint != EndpointFor(tab)
    ensures var u := EffectRun(TabPressed(s, tab));
      var v := Succeeded(u, i, stale);
      && |v.inFlight| > 0
      && v.inFlight[|v.inFlight| - 1] == Fetch(EndpointFor(tab), 1)
      && v.activeTab == tab && v.movies == stale
      && Succeeded(v, |v.inFlight| - 1, next).movies == stale + next
  {
  }

  /**
   * A failed request shows the error view on every page: a failing load-more
   * replaces the tabs and the list just as a failing first page does.
   */
  lemma FailureReplacesList(s: HomeState, i: nat)
    requires i < |s.inFlight|
    ensures HomeViewOf(Failed(s, i)) == ErrorView(LoadError)
  {
  }

  /**
   * The error view cannot be left: it offers no tab, list or refresh control,
   * the effect has nothing new to fetch, and later responses keep the error.
   */
  lemma {:induction false} ErrorViewIsFinal(s: HomeState, es: seq<HomeEvent>)
    requires HomeInv(s) && s.error.Some? && EffectSynced(s) && Admits(s, es)
    ensures HomeViewOf(Run(s, es)) == ErrorView(LoadError)
    decreases |es|
  {
    if es != [] {
      NextPreservesInv(s, es[0]);
      ErrorViewIsFinal(Next(s, es[0]), es[1..]);
    }
  }

  /** One more event after `es`. */
  lemma {:induction false} RunSnoc(s: HomeState, es: seq<HomeEvent>, e: HomeEvent)
    requires Admits(s, es) && Enabled(Run(s, es), e)
    ensures Admits(s, es + [e]) && Run(s, es + [e]) == Next(Run(s, es), e)
    decreases |es|
  {
    if es == [] {
      assert ([] + [e])[1..] == [];
    } else {
      RunSnoc(Next(s, es[0]), es[1..], e);
      assert (es + [e])[0] == es[0];
      assert (es + [e])[1..] == es[1..] + [e];
    }
  }

  /** Mount on the popular tab; its page 1 arrives and is listed. */
  lemma FirstPageListed(p1: seq<Movie>)
    ensures var es := [EffectPass, FetchOk(0, p1)];
      && Admits(Initial(), es)
      && Run(Initial(), es).movies == p1 && Run(Initial(), es).currentPage == 1
      && Run(Initial(), es).inFlight == [] && EffectSynced(Run(Initial(), es))
      && HomeViewOf(Run(Initial(), es)) == Listing(Popular, p1, false)
  {
    var s0 := Initial();
    RunSnoc(s0, [], EffectPass);
    assert [] + [EffectPass] == [EffectPass];
    var a := EffectRun(s0);
    assert a.inFlight == [Fetch(PopularMovies, 1)];
    RunSnoc(s0, [EffectPass], FetchOk(0, p1));
    assert [EffectPass] + [FetchOk(0, p1)] == [EffectPass, FetchOk(0, p1)];
  }

  /** Then load more: page 2 of the same tab is requested and appended. */
  lemma SecondPageAppended(p1: seq<Movie>, p2: seq<Movie>)
    ensures var es := [EffectPass, FetchOk(0, p1), EndReached, EffectPass, FetchOk(0, p2)];
      && Admits(Initial(), es)
      && Run(Initial(), es).movies == p1 + p2 && Run(Initial(), es).currentPage == 2
      && Run(Initial(), es).inFlight == [] && EffectSynced(Run(Initial(), es))
      && HomeViewOf(Run(Initial(), es)) == Listing(Popular, p1 + p2, false)
  {
    FirstPageListed(p1);
    var s0 := Initial();
    var es := [EffectPass, FetchOk(0, p1)];
    var s1 := Run(s0, es);
    RunSnoc(s0, es, EndReached);
    var es3 := es + [EndReached];
    var b := LoadedMore(s1);
    RunSnoc(s0, es3, EffectPass);
    var es4 := es3 + [EffectPass];
    var c := EffectRun(b);
    assert c.inFlight == [Fetch(PopularMovies, 2)];
    RunSnoc(s0, es4, FetchOk(0, p2));
    assert es4 + [FetchOk(0, p2)] == [EffectPass, FetchOk(0, p1), EndReached, EffectPass, FetchOk(0, p2)];
  }

  /**
   * Then switch to top rated: the list is emptied and restarts from the new
   * tab's page 1 alone.
   */
  lemma SwitchTabRestartsList(p1: seq<Movie>, p2: seq<Movie>, t1: seq<Movie>)
    ensures var es := [EffectPass, FetchOk(0, p1), EndReached, EffectPass, FetchOk(0, p2),
                       TabPress(TopRated), EffectPass, FetchOk(0, t1)];
      && Admits(Initial(), es)
      && Run(Initial(), es).movies == t1 && Run(Initial(), es).activeTab == TopRated
      && Run(Initial(), es).currentPage == 1
  {
    SecondPageAppended(p1, p2);
    var s0 := Initial();
    var es := [EffectPass, FetchOk(0, p1), EndReached, EffectPass, FetchOk(0, p2)];
    var s2 := Run(s0, es);
    RunSnoc(s0, es, TabPress(TopRated));
    var es6 := es + [TabPress(TopRated)];
    var d := TabPressed(s2, TopRated);
    RunSnoc(s0, es6, EffectPass);
    var es7 := es6 + [EffectPass];
    var e := EffectRun(d);
    assert e.inFlight == [Fetch(TopRatedMovies, 1)];
    RunSnoc(s0, es7, FetchOk(0, t1));
    assert es7 + [FetchOk(0, t1)] == [EffectPass, FetchOk(0, p1), EndReached, EffectPass, FetchOk(0, p2),
                                      TabPress(TopRated), EffectPass, FetchOk(0, t1)];
  }

  /**
   * The home screen as an object: the hooks are fields that the handlers
   * update in place, in the order the source sets them.
   */
  class HomeController {
    var movies: seq<Movie>
    var loading: bool
    var refreshing: bool
    var error: Option<string>
    var activeTab: Tab
    var currentPage: int
    var effectDeps: Option<(Tab, int)>
    var inFlight: seq<Fetch>

    /** The fields as a state value. */
    function State(): HomeState
      reads this
    {
      HomeState(movies, loading, refreshing, error, activeTab, currentPage, effectDeps, inFlight)
    }

    ghost predicate Valid()
      reads this
    {
      HomeInv(State())
    }

    /** Mounting: the initial values of the six hooks. */
    constructor ()
      ensures Valid() && State() == Initial()
    {
      movies := [];
      loading := true;
      refreshing := false;
      error := None;
      activeTab := Popular;
      currentPage := 1;
      effectDeps := None;
      inFlight := [];
    }

    /**
     * The synchronous half of `fetchMovies(tab, page)`; returns the request
     * issued. It is the internal step of `RunEffect` and `HandleRefresh`, which
     * call it part-way through their own updates, when `Valid()` need not hold;
     * every page they pass is at least 1.
     */
    method BeginFetch(tab: Tab, page: int) returns (f: Fetch)
      requires page >= 1
      modifies this
      ensures State() == Begun(old(State()), tab, page)
      ensures f == Fetch(EndpointFor(tab), page)
    {
      error := None;
      loading := true;
      f := Fetch(EndpointFor(tab), page);
      inFlight := inFlight + [f];
    }

    /** The `try` branch after the `await`: the page is appended; then `finally`. */
    method FetchSucceeded(i: nat, results: seq<Movie>)
      requires Valid() && i < |inFlight|
      modifies this
      ensures Valid() && State() == Succeeded(old(State()), i, results)
    {
      ghost var s := State();
      movies := movies + results;
      loading := false;
      refreshing := false;
      inFlight := RemoveAt(inFlight, i);
      NextPreservesInv(s, FetchOk(i, results));
    }

    /** The `catch` branch: the fixed message is stored; then `finally`. */
    method FetchFailed(i: nat)
      requires Valid() && i < |inFlight|
      modifies this
      ensures Valid() && State() == Failed(old(State()), i)
    {
      ghost var s := State();
      error := Some(LoadError);
      loading := false;
      refreshing := false;
      inFlight := RemoveAt(inFlight, i);
      NextPreservesInv(s, FetchError(i));
    }

    /** The effect on [activeTab, currentPage]. */
    method RunEffect()
      requires Valid()
      modifies this
      ensures Valid() && State() == EffectRun(old(State()))
    {
      if effectDeps != Some((activeTab, currentPage)) {
        effectDeps := Some((activeTab, currentPage));
        var _ := BeginFetch(activeTab, currentPage);
      }
    }

    /** A tab's `onPress`. */
    method PressTab(tab: Tab)
      requires Valid()
      modifies this
      ensures Valid() && State() == TabPressed(old(State()), tab)
    {
      activeTab := tab;
      currentPage := 1;
      movies := [];
    }

    /** `handleRefresh`. */
    method HandleRefresh()
      requires Valid()
      modifies this
      ensures Valid() && State() == Refreshed(old(State()))
    {
      refreshing := true;
      movies := [];
      currentPage := 1;
      var _ := BeginFetch(activeTab, 1);
    }

    /** `handleLoadMore`. */
    method HandleLoadMore()
      requires Valid()
      modifies this
      ensures Valid() && State() == LoadedMore(old(State()))
    {
      if !loading {
        currentPage := currentPage + 1;
      }
    }
  }
}
