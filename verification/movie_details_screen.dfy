/**
 * The detail screen (src/screens/MovieDetailsScreen.js): one request for the
 * title's extended record when the screen mounts, a spinner until it answers,
 * then either an error text or the detail view, whose sections each appear
 * under a condition on the record.
 *
 * The image base URLs are configuration constants defined outside this model
 * (src/constants/config.js is not part of this model); they are parameters here.
 */
module MovieDetailsScreen {
  import opened Wrappers
  import opened JsText

  /** One genre of the record. */
  datatype Genre = Genre(id: int, name: string)

  /** One entry of `credits.cast`. */
  datatype CastMember = CastMember(id: int, name: string, character: string, profilePath: Option<string>)

  /** The `credits` part of the record, present when the request expanded it. */
  datatype Credits = Credits(cast: Option<seq<CastMember>>)

  /** The title's extended record, every optional field as the response may omit it. */
  datatype MovieDetail = MovieDetail(
    id: int,
    title: string,
    voteAverage: Option<real>,
    releaseDate: Option<string>,
    runtime: Option<int>,
    genres: Option<seq<Genre>>,
    overview: Option<string>,
    backdropPath: Option<string>,
    credits: Option<Credits>,
    budget: Option<int>,
    revenue: Option<int>)

  /** The message stored when the request fails. */
  const DetailsError: string := "Ошибка загрузки деталей фильма"

  /** The text shown when the record has no overview. */
  const OverviewPlaceholder: string := "Описание недоступно"

  /** How many cast members the cast row shows at most. */
  const CastLimit: nat := 10

  /**
   * The backdrop image: present exactly when the record has a non-empty
   * backdrop path, and then the backdrop base followed by that path.
   */
  function BackdropUrl(backdropBase: string, m: MovieDetail): (r: Option<string>)
    ensures r.Some? <==> TruthyText(m.backdropPath)
    ensures r.Some? ==>
      |r.value| == |backdropBase| + |m.backdropPath.value|
      && r.value[..|backdropBase|] == backdropBase
      && r.value[|backdropBase|..] == m.backdropPath.value
  {
    if TruthyText(m.backdropPath) then Some(backdropBase + m.backdropPath.value) else None
  }

  /**
   * A cast member's photo: present exactly when the member has a non-empty
   * profile path, and then the image base followed by that path.
   */
  function CastPhotoUrl(imageBase: string, c: CastMember): (r: Option<string>)
    ensures r.Some? <==> TruthyText(c.profilePath)
    ensures r.Some? ==>
      |r.value| == |imageBase| + |c.profilePath.value|
      && r.value[..|imageBase|] == imageBase && r.value[|imageBase|..] == c.profilePath.value
  {
    if TruthyText(c.profilePath) then Some(imageBase + c.profilePath.value) else None
  }

  /**
   * The cast row: shown exactly when the record has a non-empty cast, and then
   * its first entries, at most ten, in their original order.
   */
  function CastShown(m: MovieDetail): (r: Option<seq<CastMember>>)
    ensures r.Some? <==> m.credits.Some? && m.credits.value.cast.Some? && m.credits.value.cast.value != []
    ensures r.Some? ==>
      var cast := m.credits.value.cast.value;
      && 1 <= |r.value| <= CastLimit
      && |r.value| == (if |cast| < CastLimit then |cast| else CastLimit)
      && r.value == cast[..|r.value|]
  {
    if m.credits.Some? && m.credits.value.cast.Some? && |m.credits.value.cast.value| > 0 then
      var cast := m.credits.value.cast.value;
      Some(if |cast| < CastLimit then cast else cast[..CastLimit])
    else None
  }

  /** The genre row: shown exactly when the record has a non-empty genre list. */
  function GenresShown(m: MovieDetail): (r: Option<seq<Genre>>)
    ensures r.Some? <==> m.genres.Some? && m.genres.value != []
    ensures r.Some? ==> r.value == m.genres.value
  {
    if m.genres.Some? && |m.genres.value| > 0 then m.genres else None
  }

  /** The overview text: the record's own when non-empty, else the placeholder; never empty. */
  function OverviewText(m: MovieDetail): (r: string)
    ensures TruthyText(m.overview) ==> r == m.overview.value
    ensures !TruthyText(m.overview) ==> r == OverviewPlaceholder
    ensures r != []
  {
    if TruthyText(m.overview) then m.overview.value else OverviewPlaceholder
  }

  /**
   * What the runtime condition `runtime && <label>` puts into the row: nothing
   * for a missing runtime, the label for a non-zero one, and for a runtime of
   * zero the number 0 itself, as bare text outside any text element.
   */
  datatype RuntimeSlot = NoRuntime | Minutes(minutes: int) | BareZero

  /**
   * The runtime condition as written: a zero runtime is falsy, so the
   * condition's value is that zero, which reaches the row as bare text.
   */
  function RuntimeSlotAsWritten(m: MovieDetail): (r: RuntimeSlot)
    ensures r.BareZero? <==> m.runtime == Some(0)
    ensures r.NoRuntime? <==> m.runtime.None?
    ensures r.Minutes? <==> TruthyNumber(m.runtime)
    ensures r.Minutes? ==> r.minutes == m.runtime.value && r.minutes != 0
  {
    match m.runtime
    case None => NoRuntime
    case Some(n) => if n == 0 then BareZero else Minutes(n)
  }

  /** A record whose runtime is zero: the as-written row receives a bare zero. */
  lemma ZeroRuntimeLeaksBareText(m: MovieDetail)
    requires m.runtime == Some(0)
    ensures RuntimeSlotAsWritten(m) == BareZero
    ensures RuntimeShown(m) == None
  {
  }

  /**
   * The runtime label as evidently intended: shown exactly when the runtime
   * is present and not zero, and otherwise nothing at all.
   */
  function RuntimeShown(m: MovieDetail): (r: Option<int>)
    ensures r.Some? <==> TruthyNumber(m.runtime)
    ensures r.Some? ==> r.value == m.runtime.value && r.value != 0
  {
    if TruthyNumber(m.runtime) then m.runtime else None
  }

  /**
   * The intended label differs from the as-written condition only on a zero
   * runtime: everywhere else the label shown is the same.
   */
  lemma RuntimeShownMatchesAsWritten(m: MovieDetail)
    ensures RuntimeSlotAsWritten(m).BareZero? || RuntimeShown(m).Some? == RuntimeSlotAsWritten(m).Minutes?
    ensures RuntimeSlotAsWritten(m).Minutes? ==> RuntimeShown(m) == Some(RuntimeSlotAsWritten(m).minutes)
    ensures RuntimeShown(m).None? ==> !RuntimeSlotAsWritten(m).Minutes?
  {
  }

  /** The budget block, with revenue inside it when shown. */
  datatype Stats = NoStats | StatsBlock(budget: int, revenue: Option<int>)

  /**
   * The budget block appears exactly when the budget is positive; revenue
   * appears inside it exactly when the revenue is positive too, so never
   * without a positive budget.
   */
  function StatsShown(m: MovieDetail): (r: Stats)
    ensures r.StatsBlock? <==> IsPositive(m.budget)
    ensures r.StatsBlock? ==> r.budget == m.budget.value && r.budget > 0
    ensures r.StatsBlock? ==> (r.revenue.Some? <==> IsPositive(m.revenue))
    ensures r.StatsBlock? && r.revenue.Some? ==> r.revenue == m.revenue && r.revenue.value > 0
  {
    if IsPositive(m.budget) then
      StatsBlock(m.budget.value, if IsPositive(m.revenue) then m.revenue else None)
    else NoStats
  }

  /** Every section decision of the detail view. */
  datatype Layout = Layout(
    backdrop: Option<string>,
    title: string,
    runtime: Option<int>,
    genres: Option<seq<Genre>>,
    overview: string,
    cast: Option<seq<CastMember>>,
    stats: Stats)

  /**
   * The detail view of a record: the title always; the backdrop exactly when
   * the record has a backdrop path; the runtime label exactly for a non-zero
   * runtime; the genre row exactly for a non-empty genre list; an overview
   * text that is never empty, the placeholder when the record has none; the
   * first min(10, n) cast members exactly when the cast is non-empty; and the
   * budget block exactly for a positive budget, holding that budget and the
   * revenue exactly when the revenue is positive too.
   */
  function LayoutOf(backdropBase: string, m: MovieDetail): (l: Layout)
    ensures l.title == m.title
    ensures l.backdrop.Some? <==> TruthyText(m.backdropPath)
    ensures l.backdrop.Some? ==> l.backdrop.value == backdropBase + m.backdropPath.value
    ensures l.runtime.Some? <==> TruthyNumber(m.runtime)
    ensures l.runtime.Some? ==> l.runtime.value == m.runtime.value
    ensures l.genres.Some? <==> m.genres.Some? && m.genres.value != []
    ensures l.genres.Some? ==> l.genres.value == m.genres.value
    ensures l.overview != []
    ensures TruthyText(m.overview) ==> l.overview == m.overview.value
    ensures !TruthyText(m.overview) ==> l.overview == OverviewPlaceholder
    ensures l.cast.Some? <==> m.credits.Some? && m.credits.value.cast.Some? && m.credits.value.cast.value != []
    ensures l.cast.Some? ==>
      && 1 <= |l.cast.value| <= CastLimit && |l.cast.value| <= |m.credits.value.cast.value|
      && l.cast.value == m.credits.value.cast.value[..|l.cast.value|]
    ensures l.cast.Some? ==>
      var cast := m.credits.value.cast.value;
      |l.cast.value| == (if |cast| < CastLimit then |cast| else CastLimit)
    ensures l.stats.StatsBlock? <==> IsPositive(m.budget)
    ensures l.stats.StatsBlock? ==>
      && l.stats.budget == m.budget.value
      && (l.stats.revenue.Some? <==> IsPositive(m.revenue))
      && (l.stats.revenue.Some? ==> l.stats.revenue == m.revenue)
    ensures l.stats.StatsBlock? && l.stats.revenue.Some? ==> IsPositive(m.budget) && IsPositive(m.revenue)
  {
    var b := BackdropUrl(backdropBase, m);
    assert b.Some? ==> b.value == backdropBase + m.backdropPath.value;
    Layout(b, m.title, RuntimeShown(m), GenresShown(m),
           OverviewText(m), CastShown(m), StatsShown(m))
  }

  /**
   * The screen's state: the three hooks, whether the effect has run and
   * whether its request still awaits an answer.
   */
  datatype DetailState = DetailState(
    movieId: int,
    movie: Option<MovieDetail>,
    loading: bool,
    error: Option<string>,
    effectRan: bool,
    pending: bool)

  /**
   * What every reachable state satisfies: the request is pending only after
   * the effect ran; `loading` holds exactly until the request has answered;
   * the only error is the fixed message, never together with a record.
   */
  ghost predicate DetailInv(s: DetailState) {
    && (s.pending ==> s.effectRan)
    && (s.loading <==> !s.effectRan || s.pending)
    && (s.error == None || s.error == Some(DetailsError))
    && !(s.error.Some? && s.movie.Some?)
    && (s.loading ==> s.movie == None && s.error == None)
  }

  /** The state when the screen mounts for `movieId`. */
  function Initial(movieId: int): (s: DetailState)
    ensures s.movieId == movieId && s.movie == None && s.loading && s.error == None
    ensures !s.effectRan && !s.pending
  {
    DetailState(movieId, None, true, None, false, false)
  }

  /**
   * The effect on [movieId]: the first time, the request for the title is
   * sent; the identifier never changes on a mounted screen, so later passes do
   * nothing.
   */
  function EffectRun(s: DetailState): (t: DetailState)
    ensures t.effectRan
    ensures !s.effectRan ==> t.pending && t == s.(effectRan := true, pending := true)
    ensures s.effectRan ==> t == s
  {
    if s.effectRan then s else s.(effectRan := true, pending := true)
  }

  /**
   * The request answers with a body: it is stored as the record and `loading`
   * drops; the error is left as it was.
   */
  function DetailsLoaded(s: DetailState, data: Option<MovieDetail>): (t: DetailState)
    requires s.pending
    ensures t.movie == data && !t.loading && !t.pending && t.error == s.error
    ensures t.movieId == s.movieId && t.effectRan == s.effectRan
  {
    s.(movie := data, loading := false, pending := false)
  }

  /**
   * The request fails: the fixed message is stored and `loading` drops; the
   * record is left as it was.
   */
  function DetailsFailed(s: DetailState): (t: DetailState)
    requires s.pending
    ensures t.error == Some(DetailsError) && !t.loading && !t.pending && t.movie == s.movie
    ensures t.movieId == s.movieId && t.effectRan == s.effectRan
  {
    s.(error := Some(DetailsError), loading := false, pending := false)
  }

  /** What the screen renders: the spinner, an error text (possibly empty), or the record. */
  datatype DetailView = Spinner | ErrorText(error: Option<string>) | Detail(layout: Layout)

  /**
   * The render branch: the spinner while loading; otherwise the error text
   * when an error is set or there is no record; otherwise the detail view of
   * the record.
   */
  function DetailViewOf(backdropBase: string, s: DetailState): (v: DetailView)
    ensures v == Spinner <==> s.loading
    ensures v.ErrorText? <==> !s.loading && (TruthyText(s.error) || s.movie.None?)
    ensures v.ErrorText? ==> v.error == s.error
    ensures v.Detail? ==> s.movie.Some? && v.layout == LayoutOf(backdropBase, s.movie.value)
  {
    if s.loading then Spinner
    else if TruthyText(s.error) || s.movie.None? then ErrorText(s.error)
    else Detail(LayoutOf(backdropBase, s.movie.value))
  }

  /**
   * The whole life of the screen: the spinner shows from mount until the one
   * request answers; a record then shows the detail view, an answer without a
   * body shows an empty error text, and a failure shows the fixed message.
   */
  lemma Lifecycle(backdropBase: string, movieId: int, data: Option<MovieDetail>)
    ensures var s := EffectRun(Initial(movieId));
      && DetailViewOf(backdropBase, Initial(movieId)) == Spinner
      && DetailViewOf(backdropBase, s) == Spinner
      && EffectRun(s) == s
      && DetailViewOf(backdropBase, DetailsLoaded(s, data)) ==
           (if data.Some? then Detail(LayoutOf(backdropBase, data.value)) else ErrorText(None))
      && DetailViewOf(backdropBase, DetailsFailed(s)) == ErrorText(Some(DetailsError))
  {
  }

  /**
   * The detail screen as an object: the hooks are fields that the effect and
   * the request's completion update in place.
   */
  class DetailsController {
    const movieId: int
    var movie: Option<MovieDetail>
    var loading: bool
    var error: Option<string>
    var effectRan: bool
    var pending: bool

    /** The fields as a state value. */
    function State(): DetailState
      reads this
    {
      DetailState(movieId, movie, loading, error, effectRan, pending)
    }

    ghost predicate Valid()
      reads this
    {
      DetailInv(State())
    }

    /** Mounting for `id`: the initial values of the three hooks. */
    constructor (id: int)
      ensures Valid() && State() == Initial(id)
    {
      movieId := id;
      movie := None;
      loading := true;
      error := None;
      effectRan := false;
      pending := false;
    }

    /** The effect: `fetchDetails` sends its request. */
    method RunEffect()
      requires Valid()
      modifies this
      ensures Valid() && State() == EffectRun(old(State()))
    {
      if !effectRan {
        effectRan := true;
        pending := true;
      }
    }

    /** The `try` branch after the `await`, then `finally`. */
    method FetchSucceeded(data: Option<MovieDetail>)
      requires Valid() && pending
      modifies this
      ensures Valid() && State() == DetailsLoaded(old(State()), data)
    {
      movie := data;
      loading := false;
      pending := false;
    }

    /** The `catch` branch, then `finally`. */
    method FetchFailed()
      requires Valid() && pending
      modifies this
      ensures Valid() && State() == DetailsFailed(old(State()))
    {
      error := Some(DetailsError);
      loading := false;
      pending := false;
    }
  }
}
