# Movie browser screens: a Dafny model

This project models the screen-level state handling of a React Native client for a
remote movie catalog. Three screens hold all of the client's logic.

- **Home listing** (`home_screen.dfy`, module `HomeScreen`): two tabs, "popular" and
  "top rated". The list is paginated, with pull-to-refresh and load-more on scroll.
- **Search** (`search_screen.dfy`, module `SearchScreen`): every change of the text
  field searches for the new text, unless the text is blank. Only entries rated
  above zero are kept.
- **Title details** (`movie_details_screen.dfy`, module `MovieDetailsScreen`): one
  request when the screen mounts. The screen then shows either an error text or the
  record. Each section of the record appears only under its own condition.

Each screen's React state hooks become the fields of a state datatype. Each handler,
and each half of an asynchronous fetch, is a step function on that state:

- the begin step runs up to the `await`;
- a success step and a failure step cover the `try`/`catch`/`finally` after it.

A `useEffect` hook is a step of its own, `EffectRun`. It issues a request exactly
when its dependency values differ from those it last ran with.

Requests that have been sent and not answered are kept in issue order (`inFlight`).
A response names the request it answers by its index. Responses can therefore arrive
in any order, and the screens never look at which request a response belongs to.

The render branch of each screen is a function to a small view datatype. Sequences
of events are replayed by `Next`/`Run`. A class per screen (`HomeController`,
`SearchController`, `DetailsController`) holds the hooks as fields. Its methods update
those fields in place, in the source's order, and are proved to follow the step
functions and to keep the screen's invariant.

Shared pieces:

- `js_text.dfy` holds the JavaScript semantics the screens rely on: truthiness of
  optional strings and numbers, and `String.prototype.trim` with ECMAScript's
  whitespace set.
- `catalog.dfy` holds the catalog's title summaries, its listing endpoints and the
  bookkeeping of pending requests.

The code does not do several things one might expect of such a screen:

- No staleness check. A response for the previous tab that arrives after a tab
  switch is appended to the new tab's list (`StaleResultsAreKept`).
- No liveness flag and no swipe gesture.
- Page 1 is never "replaced": every successful response is appended (`Succeeded`).
- Pressing the tab that is already active is not a no-op. It resets the page and
  empties the list. On page 1 this issues no request, so the list stays empty until
  a pending response, a refresh or a load-more fills it
  (`SameTabOnFirstPageEmptiesWithoutFetch`).
- A failing load-more is not swallowed. Failure on any page shows the error view in
  place of the tabs and the list (`FailureReplacesList`). Nothing the user can do
  leaves that view (`ErrorViewIsFinal`).
- Refreshing from a page after the first requests page 1 twice: once from the
  handler and once from the effect (`RefreshFromLaterPageFetchesTwice`).
- Load-more advances exactly one page once the effect has started that page's fetch
  (`LoadMoreFetchesNextPage`). Two end-reached events handled before the effect runs
  advance two pages, and only the second page is ever requested
  (`LoadMoreTwiceBeforeEffect`).

## Model

| member | source | states |
|---|---|---|
| `JsText.TrimStart` | src/screens/SearchScreen.js:21 | removes exactly the leading whitespace: the result is a suffix of the input that does not start with whitespace, and everything cut is whitespace |
| `JsText.TrimEnd` | src/screens/SearchScreen.js:21 | removes exactly the trailing whitespace: the result is a prefix of the input that does not end with whitespace, and everything cut is whitespace |
| `JsText.Trim` | src/screens/SearchScreen.js:21 | the trimmed text is a front part of the text without its leading whitespace, with only whitespace after it; it neither starts nor ends with whitespace |
| `JsText.TrimEmptyIffBlank` | src/screens/SearchScreen.js:21 | `!query.trim()` holds exactly when every character of the query is whitespace |
| `Catalog.HasRating` | src/screens/SearchScreen.js:32 | `vote_average > 0`: a missing rating fails the comparison; a present one passes exactly when it is above zero |
| `HomeScreen.EndpointFor` | src/screens/HomeScreen.js:28-32 | the popular tab fetches the popular endpoint and the top-rated tab fetches the top-rated endpoint |
| `HomeScreen.Initial` | src/screens/HomeScreen.js:15-20 | on mount the list is empty, loading is on, refreshing is off, there is no error, the tab is popular, the page is 1 and nothing has been requested |
| `HomeScreen.Begun` | src/screens/HomeScreen.js:22-32 | beginning a fetch clears the error, raises `loading` and issues the request for (tab, page); the list, tab and page are untouched |
| `HomeScreen.Succeeded` | src/screens/HomeScreen.js:34-41 | a successful response keeps the old list as an unchanged prefix followed by the results, whichever tab or page it was fetched for; `loading` and `refreshing` both drop |
| `HomeScreen.Failed` | src/screens/HomeScreen.js:35-41 | a failed response stores the fixed message and keeps the list; `loading` and `refreshing` both drop |
| `HomeScreen.TabPressed` | src/screens/HomeScreen.js:87-106 | pressing a tab makes it active, resets the page to 1 and empties the list; nothing else changes and nothing is requested by the handler |
| `HomeScreen.Refreshed` | src/screens/HomeScreen.js:48-53 | refresh raises `refreshing`, empties the list, resets the page to 1 and requests page 1 of the unchanged tab |
| `HomeScreen.LoadedMore` | src/screens/HomeScreen.js:59-63 | load-more raises the page by exactly 1 when not loading, leaves the state unchanged while loading, and changes nothing but the page |
| `HomeScreen.EffectRun` | src/screens/HomeScreen.js:44-46 | the effect requests (activeTab, currentPage) exactly when that pair differs from the last one it ran with, and otherwise changes nothing |
| `HomeScreen.HomeViewOf` | src/screens/HomeScreen.js:65-79 | spinner iff loading on page 1; otherwise the error text iff an error is set; otherwise the tabs and the list |
| `HomeScreen.EnabledEvents` | src/screens/HomeScreen.js:65-131 | under the spinner or the error text only the effect and answers to pending requests can occur; in the list view every tab press, refresh and end-reached can, including while a later page loads; an answer is possible exactly for a pending request |
| `HomeScreen.InitialSatisfiesInv` | src/screens/HomeScreen.js:15-20 | the mounted screen satisfies the invariant and shows the spinner |
| `HomeScreen.NextPreservesInv` | src/screens/HomeScreen.js:22-106 | every event keeps the invariant: page at least 1, the only error is the fixed message and never together with `loading`, `refreshing` only while a request is pending, and `loading` too once the effect has first run |
| `HomeScreen.RunPreservesInv` | src/screens/HomeScreen.js:22-106 | every state reachable by a sequence of events satisfies the invariant |
| `HomeScreen.LoadMoreFetchesNextPage` | src/screens/HomeScreen.js:44-63 | on a settled screen, load-more plus the effect advances one page, requests that page of the same tab, keeps the list, and ignores further load-more while loading |
| `HomeScreen.LoadMoreTwiceBeforeEffect` | src/screens/HomeScreen.js:44-63 | two load-more events before the effect runs advance two pages and request only the later one |
| `HomeScreen.RefreshFromLaterPageFetchesTwice` | src/screens/HomeScreen.js:44-53 | refreshing from a page after the first issues two identical page-1 requests |
| `HomeScreen.RefreshOnFirstPageFetchesOnce` | src/screens/HomeScreen.js:44-53 | refreshing on page 1 issues one page-1 request |
| `HomeScreen.OtherTabFetchesFirstPage` | src/screens/HomeScreen.js:44-46 | pressing the other tab empties the list and, through the effect, requests page 1 of that tab once |
| `HomeScreen.SameTabOnFirstPageEmptiesWithoutFetch` | src/screens/HomeScreen.js:87-91 | pressing the active tab on page 1 of a settled screen empties the list and the effect issues no request, so the list view shows an empty list |
| `HomeScreen.StaleResultsAreKept` | src/screens/HomeScreen.js:22-46 | a response for the previous tab that arrives after a switch becomes the new tab's list, and the new tab's page 1 is appended after it |
| `HomeScreen.FailureReplacesList` | src/screens/HomeScreen.js:35-79 | after a failure, on any page, the error view is shown |
| `HomeScreen.ErrorViewIsFinal` | src/screens/HomeScreen.js:65-114 | once the error view shows on a settled screen, it shows after every possible sequence of further events |
| `HomeScreen.RunSnoc` | src/screens/HomeScreen.js:22-106 | replaying one more enabled event after a sequence is the same as applying it to the sequence's final state |
| `HomeScreen.FirstPageListed` | src/screens/HomeScreen.js:15-46 | after mounting and page 1 arriving, the popular list is exactly page 1's results, on page 1, shown in the list view |
| `HomeScreen.SecondPageAppended` | src/screens/HomeScreen.js:34-63 | after load-more and page 2 arriving, the list is page 1 followed by page 2, on page 2 |
| `HomeScreen.SwitchTabRestartsList` | src/screens/HomeScreen.js:87-106 | after switching to top rated and its page 1 arriving, the list is exactly that page, on page 1 |
| `HomeScreen.HomeController.constructor` | src/screens/HomeScreen.js:15-20 | the object starts in the mounted state with the invariant |
| `HomeScreen.HomeController.BeginFetch` | src/screens/HomeScreen.js:22-32 | for a page of at least 1, the fields are updated as `Begun` describes and the issued request is returned; an internal step of `RunEffect` and `HandleRefresh` |
| `HomeScreen.HomeController.FetchSucceeded` | src/screens/HomeScreen.js:34-41 | the fields are updated in place as `Succeeded` describes, keeping the invariant |
| `HomeScreen.HomeController.FetchFailed` | src/screens/HomeScreen.js:35-41 | the fields are updated in place as `Failed` describes, keeping the invariant |
| `HomeScreen.HomeController.RunEffect` | src/screens/HomeScreen.js:44-46 | the fields are updated in place as `EffectRun` describes, keeping the invariant |
| `HomeScreen.HomeController.PressTab` | src/screens/HomeScreen.js:87-106 | the fields are updated in place as `TabPressed` describes, keeping the invariant |
| `HomeScreen.HomeController.HandleRefresh` | src/screens/HomeScreen.js:48-53 | the fields are updated in place as `Refreshed` describes, keeping the invariant |
| `HomeScreen.HomeController.HandleLoadMore` | src/screens/HomeScreen.js:59-63 | the fields are updated in place as `LoadedMore` describes, keeping the invariant |
| `SearchScreen.FilterRated` | src/screens/SearchScreen.js:31-33 | an entry is kept exactly when it is in the response and has a rating above zero, as many times as it occurs there; an unrated entry is never kept; the result is never longer than the response |
| `SearchScreen.FilterRatedAppend` | src/screens/SearchScreen.js:31-33 | filtering two responses joined together gives the two filtered responses joined together |
| `SearchScreen.FilterRatedIsSubsequence` | src/screens/SearchScreen.js:31-33 | the kept entries are a subsequence of the response, so their order is preserved |
| `SearchScreen.FilterRatedKeepsRatedResponse` | src/screens/SearchScreen.js:31-33 | a response whose entries are all rated above zero is kept whole |
| `SearchScreen.Initial` | src/screens/SearchScreen.js:15-18 | on mount the query is empty, the list is empty, and `loading` and `searched` are both off |
| `SearchScreen.SearchStarted` | src/screens/SearchScreen.js:20-29 | a blank query empties the list, clears `searched`, sends nothing and leaves `loading`; any other query raises `loading` and is sent as typed |
| `SearchScreen.TextChanged` | src/screens/SearchScreen.js:55-58 | the text is stored and then searched for |
| `SearchScreen.SearchSucceeded` | src/screens/SearchScreen.js:28-40 | a response sets the list to its rated entries and sets `searched`, whichever query it answers; `loading` drops |
| `SearchScreen.SearchFailed` | src/screens/SearchScreen.js:36-40 | a failure keeps the list and `searched`; `loading` drops |
| `SearchScreen.SearchViewOf` | src/screens/SearchScreen.js:62-80 | spinner iff loading; otherwise "not found" iff a search has answered with an empty list; otherwise the list |
| `SearchScreen.NextPreservesInv` | src/screens/SearchScreen.js:20-58 | every event keeps the invariant: `loading` only while a search is pending, and no blank query is ever sent |
| `SearchScreen.AnsweredSearchView` | src/screens/SearchScreen.js:29-80 | after a response, "not found" shows exactly when no entry is rated above zero; otherwise the rated entries are listed |
| `SearchScreen.ClearWhileSearching` | src/screens/SearchScreen.js:20-40 | clearing the field while a search is pending empties the list and sends nothing, but the spinner stays, and the pending answer fills the list again under the empty field |
| `SearchScreen.OutOfOrderAnswers` | src/screens/SearchScreen.js:20-40 | an earlier search answering after a later one replaces the later results, and the spinner drops at the first answer |
| `SearchScreen.SearchController.constructor` | src/screens/SearchScreen.js:15-18 | the object starts in the mounted state with the invariant |
| `SearchScreen.SearchController.HandleSearch` | src/screens/SearchScreen.js:20-29 | the fields are updated in place as `SearchStarted` describes, keeping the invariant |
| `SearchScreen.SearchController.OnChangeText` | src/screens/SearchScreen.js:55-58 | the fields are updated in place as `TextChanged` describes, keeping the invariant |
| `SearchScreen.SearchController.SearchResolved` | src/screens/SearchScreen.js:28-40 | the fields are updated in place as `SearchSucceeded` describes, keeping the invariant |
| `SearchScreen.SearchController.SearchRejected` | src/screens/SearchScreen.js:36-40 | the fields are updated in place as `SearchFailed` describes, keeping the invariant |
| `MovieDetailsScreen.BackdropUrl` | src/screens/MovieDetailsScreen.js:54-56 | the backdrop URL exists iff the backdrop path is non-empty, and is then the backdrop base followed by the path |
| `MovieDetailsScreen.CastPhotoUrl` | src/screens/MovieDetailsScreen.js:102-108 | a cast photo exists iff the profile path is non-empty, and is then the image base followed by the path |
| `MovieDetailsScreen.CastShown` | src/screens/MovieDetailsScreen.js:94-98 | the cast row shows iff the cast is present and non-empty, and then holds its first min(10, length) entries in the original order |
| `MovieDetailsScreen.GenresShown` | src/screens/MovieDetailsScreen.js:79-87 | the genre row shows iff the genre list is present and non-empty, and then holds the whole list |
| `MovieDetailsScreen.OverviewText` | src/screens/MovieDetailsScreen.js:89-92 | the overview is the record's own when non-empty, else the placeholder; it is never empty |
| `MovieDetailsScreen.RuntimeSlotAsWritten` | src/screens/MovieDetailsScreen.js:76 | the runtime condition as written: nothing for a missing runtime, the label for a non-zero one, and a bare zero exactly when the runtime is 0 |
| `MovieDetailsScreen.ZeroRuntimeLeaksBareText` | src/screens/MovieDetailsScreen.js:76 | a record with runtime 0 puts a bare zero into the row as written, where the intended label shows nothing |
| `MovieDetailsScreen.RuntimeShown` | src/screens/MovieDetailsScreen.js:76 | the runtime label as intended: it shows iff the runtime is present and non-zero, with that value |
| `MovieDetailsScreen.RuntimeShownMatchesAsWritten` | src/screens/MovieDetailsScreen.js:76 | the intended label and the as-written condition agree on every record except one with runtime 0 |
| `MovieDetailsScreen.StatsShown` | src/screens/MovieDetailsScreen.js:126-143 | the budget block shows iff the budget is positive; revenue shows inside it iff the revenue is positive too, so never without a positive budget |
| `MovieDetailsScreen.LayoutOf` | src/screens/MovieDetailsScreen.js:58-146 | the detail view shows the title; the backdrop iff the backdrop path is non-empty (base followed by path); the runtime label iff the runtime is non-zero; the genre row iff the genres are non-empty, holding the whole list; a never-empty overview, the record's own when it has one and the placeholder otherwise; the first min(10, n) cast members iff the cast is non-empty; the budget block iff the budget is positive, holding that budget, with the revenue inside it iff the revenue is positive too |
| `MovieDetailsScreen.Initial` | src/screens/MovieDetailsScreen.js:16-20 | on mount there is no record, `loading` is on, there is no error and nothing has been requested |
| `MovieDetailsScreen.EffectRun` | src/screens/MovieDetailsScreen.js:22-36 | the effect sends the single request the first time and does nothing afterwards |
| `MovieDetailsScreen.DetailsLoaded` | src/screens/MovieDetailsScreen.js:25-32 | a response stores its body as the record and `loading` drops |
| `MovieDetailsScreen.DetailsFailed` | src/screens/MovieDetailsScreen.js:27-32 | a failure stores the fixed message, keeps the record and `loading` drops |
| `MovieDetailsScreen.DetailViewOf` | src/screens/MovieDetailsScreen.js:38-52 | spinner iff loading; otherwise the error text iff an error is set or there is no record; otherwise the detail view of the record |
| `MovieDetailsScreen.Lifecycle` | src/screens/MovieDetailsScreen.js:18-56 | the spinner shows from mount until the one request answers; then a record shows the detail view, an empty body shows an empty error text, and a failure shows the fixed message |
| `MovieDetailsScreen.DetailsController.constructor` | src/screens/MovieDetailsScreen.js:16-20 | the object starts in the mounted state with the invariant |
| `MovieDetailsScreen.DetailsController.RunEffect` | src/screens/MovieDetailsScreen.js:22-36 | the fields are updated in place as `EffectRun` describes, keeping the invariant |
| `MovieDetailsScreen.DetailsController.FetchSucceeded` | src/screens/MovieDetailsScreen.js:25-32 | the fields are updated in place as `DetailsLoaded` describes, keeping the invariant |
| `MovieDetailsScreen.DetailsController.FetchFailed` | src/screens/MovieDetailsScreen.js:27-32 | the fields are updated in place as `DetailsFailed` describes, keeping the invariant |

## Left out

- The HTTP client (src/services/tmdbService.js) and the remote catalog. A request
  either answers with a page of results, or a record, or it fails. Its parameters
  (API key, locale, query, page) are not modelled beyond the endpoint and page of a
  listing request and the query text of a search. The unused calls (now playing, upcoming, videos) are not modelled.
- The base URLs of the images. They come from a configuration module that is not
  part of this model (src/constants/config.js), so they are parameters.
- React's scheduling. Batching of state updates, render timing and the exact moment
  an effect runs are not modelled. The effect is a step that can run between any two
  events. No real concurrency is modelled: responses arrive one at a time, in any
  order.
- The `fetchMovies` branch for a tab other than "popular" and "topRated". The tab is
  a two-valued type here, so that branch cannot be reached.
- Malformed response bodies. A listing or search response is a page of results,
  and a detail response is a record or no body. On the home screen a body without
  `results` would throw inside the state updater, outside the `try`: no error would
  be stored and the render would fail; this is not modelled. On the search screen
  the same read happens inside the `try` and would count as a failed search
  (`SearchFailed`). On the detail screen a missing body is modelled: it is
  `DetailsLoaded` with no record, which shows an empty error text.
- Formatting: rating `toFixed`, the year parsed from the release date, budget and
  revenue in millions. Styling, images and list layout props, `console.error`
  logging and navigation to the detail screen are also left out. Ratings are reals,
  not IEEE floats.
- Navigation wiring (App.js) and card rendering (src/components/MovieCard.js).
- A change of the detail screen's movie identifier while it is mounted. The
  identifier is fixed per screen.
- MovieDetailsScreen.LayoutOf: lays the view out with the intended runtime label
  (`RuntimeShown`), not with the bare zero the code puts into the row for a runtime
  of 0. That bare zero is exhibited by `RuntimeSlotAsWritten`; the render error it
  raises is not modelled (see Findings).
- Text is a sequence of Unicode characters, not UTF-16 code units. `trim` only
  removes characters of the Basic Multilingual Plane, so the two agree.

## Findings

| source | as written | input that shows it | evidently intended | confidence | as-written member | corrected member |
|---|---|---|---|---|---|---|
| src/screens/MovieDetailsScreen.js:76 | `movie.runtime && <Text>…</Text>` evaluates to the number 0 when the runtime is 0, and React Native refuses text outside a `Text` element | a record whose `runtime` is 0 (`ZeroRuntimeLeaksBareText`) | no runtime label, as for a missing runtime | not executed; high, from the rules of `&&` and of React Native text | `MovieDetailsScreen.RuntimeSlotAsWritten` | `MovieDetailsScreen.RuntimeShown` |
