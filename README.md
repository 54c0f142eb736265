# movieapp — a Dafny model of the search views

This project models the three components that make up the movieapp home
screen. They all talk to the OMDb catalog.

- **Home page** (`src/app/page.tsx`) runs a title search with its own
  pagination. It also loads five fixed "trending" titles for the hero
  carousel.
- **MovieList** (`src/app/Components/MovieList.tsx`) is a filterable list. It
  builds a query string from a search text and a year filter, enriches each
  search hit with one detail lookup, and has its own "previous"/"next"
  controls. `MovieGrid` renders skeletons, a placeholder message or one card
  per movie.
- **SearchBar** (`src/app/Components/SearchBar.tsx`) holds a text input. A
  500 ms debounce drives an autocomplete request, and the answer is cut to
  ten suggestions. Submitting hands the raw input to the home page, and
  picking a suggestion opens its detail route.

Each component is a `class` whose fields are the component's `useState`
values. Each event handler and each effect body is a `method`. The home
page's and MovieList's `fetchMovies` and the search bar's suggestion fetch
are split in two at their `await`: a start method sets `loading`, and a
receive method applies the answer, so the loading interval is a state of its
own. Only MovieList's and the search bar's start methods return the request;
the home page's request URL is not modelled. `fetchTrendingMovies` runs only
at mount and is one method: its loading interval is the constructor's state,
and the method applies the answers. Every network answer is an input value:

- a `SearchResponse`: a body with `Response: "True"`, a body with any other
  `Response`, or a fetch that threw;
- a `Lookup` per imdb id: the parsed detail body, or a throw.

Each method is specified against a pure function of the old state and the
answers (`AfterFetch`, `AfterListFetch`, `TrendingAfter`, `Step`,
`Suggestions`, `QueryString`). The properties are proved as lemmas about
those functions.

Some JavaScript semantics are written out explicitly:

- `Number()` on the reported total (`ParseNumber`), with NaN as a value of
  its own, and comparisons with NaN being false.
- `||` falling back on both a missing and an empty string (`OrElse`).
- `${undefined}` printing `undefined` (`Interpolate`).
- `String.prototype.trim` over the ECMAScript whitespace set (`Trim`).
- `Promise.all` failing as soon as one lookup throws (`FetchAll`).
- `filter(Boolean).join('&')`. `Text.Split` is not part of the source:
  it is the `split('&')` of whoever reads the query string, used to state
  which parameters the string carries.

Time in the search bar is a sequence of discrete events: an edit of the
input, or the firing of the pending timer (`InputEvent`, `Run`).

Modules:

- `Omdb`: shared records, responses, Number, Promise.all and routes.
- `Text`: trim, join and split.
- `Pagination`: page arithmetic shared by both paginated views.
- `HomePage`, `MovieListComponent`, `SearchBarComponent`: one per component.

Source behaviours the model keeps as written:

- In MovieList, changing a filter fetches page 1 but leaves `currentPage`
  where it was.
- In MovieList, a throw empties the list but keeps the total, so the page
  controls can show over the "no films" message
  (`ControlsOverEmptyGridAfterThrow`).
- In MovieList, "next" is not clamped; only its disabled state keeps it in
  range.
- On the home page, "next" with no results computes page 0
  (`NextWithoutResults`).
- MovieList's search text is not URL-encoded, so a `&` in it splits the
  search parameter (`AmpersandInSearchSplitsParam`).
- On the home page, a trending lookup that throws leaves the previous
  trending list in place, while a body with `Response: "False"` is only
  filtered out.

## Model

| member | source | states |
|---|---|---|
| Omdb.OrElse | src/app/page.tsx:57 | `o` or, when falsy, fallback: the value when present and non-empty, else the fallback; never empty when the fallback is not |
| Omdb.ParseNumber | src/app/Components/MovieList.tsx:151 | Number(s) is a number exactly when s is all decimal digits; the empty string is 0 |
| Omdb.TotalOrZero | src/app/page.tsx:54 | `Number(total)` or, when NaN, 0: the parsed value, and 0 for anything Number() turns into NaN |
| Omdb.NatToString | src/app/Components/MovieList.tsx:132 | `${page}` is a non-empty digit string without a leading zero |
| Omdb.ParsePrinted | src/app/Components/MovieList.tsx:132 | a printed count parses back to itself, through Number() and through the `or 0` fallback |
| Omdb.FetchAll | src/app/page.tsx:72-77 | Promise.all over per-id lookups: succeeds iff every lookup returned, then one body per id in id order |
| Omdb.MovieRoute | src/app/Components/SearchBar.tsx:63 | the route starts with /movie/ and its id segment is the movie's imdbID as printed |
| Text.Trim | src/app/Components/SearchBar.tsx:37 | `s.trim()`: the result is a stretch of s with only whitespace before and after it, and it neither starts nor ends with whitespace |
| Text.TrimEmptyIffBlank | src/app/Components/SearchBar.tsx:37 | `!s.trim()` holds exactly when every character of s is whitespace |
| Text.TrimsToEmpty | src/app/Components/SearchBar.tsx:67 | the `!searchQuery.trim()` test is true iff the input is blank |
| Text.Join | src/app/Components/MovieList.tsx:135 | `join('&')`: the joined string starts with the first part and ends with the last |
| Pagination.TotalPages | src/app/page.tsx:134 | `Math.ceil(total / 10)`: the fewest ten-result pages holding total; zero iff there are no results |
| Pagination.PrevPage | src/app/page.tsx:97 | `Math.max(page - 1, 1)`: one back from any page above 1, else page 1 |
| Pagination.PrevDisabled | src/app/page.tsx:128 | `currentPage === 1`: from a page of at least 1, the previous button is disabled exactly when pressing it leaves the page unchanged |
| Pagination.NextDisabled | src/app/page.tsx:138 | `page >= Math.ceil(total / 10)`: disabled exactly when the current page already covers all results (page * 10 >= total) |
| Pagination.PrevEnabledIffStepBack | src/app/page.tsx:127-128 | the previous button is enabled iff pressing it moves exactly one page back |
| Pagination.PrevStaysInRange | src/app/Components/MovieList.tsx:242-243 | "previous" keeps a page within [1, last page] |
| HomePage.NewPage | src/app/page.tsx:93-100 | "next" moves one forward but never past the last page; "previous" one back but never below 1 |
| HomePage.NextEnabledIffStepForward | src/app/page.tsx:136-138 | the next button is enabled iff pressing it moves exactly one page forward |
| HomePage.PageChangeStaysInRange | src/app/page.tsx:93-100 | either button keeps a page within [1, last page] |
| HomePage.NextWithoutResults | src/app/page.tsx:96 | with no results "next" computes page 0, and the next button is disabled then |
| HomePage.TwentyFiveResults | src/app/page.tsx:134-138 | a total of "25" makes three pages: next is disabled on page 3 and enabled on page 2 |
| HomePage.PaginationVisible | src/app/page.tsx:124 | `query && !loading && movies.length > 0`, a definition; VisibleAfterFetch states when it holds after each fetch outcome |
| HomePage.AfterFetch | src/app/page.tsx:42-64 | after a search: the results and parsed total on success; no movies and the catalog's error or "No results found." on failure; the old results and the generic message on a throw; never loading; an error iff the search failed |
| HomePage.VisibleAfterFetch | src/app/page.tsx:124 | after a fetch the page controls show iff the query is non-empty and there are new results (success) or kept ones (throw) |
| HomePage.ErrorIsShown | src/app/page.tsx:117 | every error a fetch leaves is a non-empty string, so it is rendered |
| HomePage.Succeeded | src/app/page.tsx:78 | `movie.Response === 'True'`, a definition; KeepSucceeded and KeepSucceededAll are stated with it |
| HomePage.KeepSucceeded | src/app/page.tsx:78 | the filter keeps exactly the bodies with Response "True" |
| HomePage.KeepSucceededAppend | src/app/page.tsx:78 | the filter keeps order: filtering a concatenation filters each part |
| HomePage.KeepSucceededAll | src/app/page.tsx:78 | the filter drops nothing iff every body has Response "True" |
| HomePage.TrendingAfter | src/app/page.tsx:67-84 | the filtered bodies when every lookup returned; the previous list when one threw |
| HomePage.TrendingBounded | src/app/page.tsx:69-78 | the trending list has at most five entries, all successful lookups |
| HomePage.Home.constructor | src/app/page.tsx:19-26 | the initial state values |
| HomePage.Home.HandleSearchAction | src/app/page.tsx:87-90 | the query becomes the submitted text and the page returns to 1 |
| HomePage.Home.HandlePageChange | src/app/page.tsx:93-100 | the page becomes NewPage; an enabled button moves exactly one page |
| HomePage.Home.StartFetch | src/app/page.tsx:43-44 | loading starts and the error clears, so the page controls hide |
| HomePage.Home.ReceiveFetch | src/app/page.tsx:46-63 | the result fields become AfterFetch of the old ones; an error is shown iff the search failed; loading ends; the controls show iff the query is non-empty and there are movies; query and page are untouched |
| HomePage.Home.QueryOrPageChanged | src/app/page.tsx:35-39 | the effect starts a fetch iff the query is non-empty, and otherwise changes nothing |
| HomePage.Home.FetchTrendingMovies | src/app/page.tsx:67-84 | after the mount-time loading state the constructor sets, the trending list becomes TrendingAfter, loading ends, and the list keeps its invariant |
| HomePage.SubmitSearch | src/app/page.tsx:106 | returns the search-bar input when it is not blank, else nothing; a submitted input becomes the page's query verbatim at page 1 and closes the suggestions; a blank one changes neither the page nor the suggestions |
| SearchBarComponent.StepSettled | src/app/Components/SearchBar.tsx:27-32 | every edit or timer firing keeps the debouncer invariant: a pending timer carries the current input, and with none pending the debounced value equals the input |
| SearchBarComponent.Step | src/app/Components/SearchBar.tsx:27-32 | one event of the debouncer: an edit sets the input and never promotes, and an edit to a new value starts a timer for it; a firing clears the timer, keeps the input and promotes the pending value |
| SearchBarComponent.Run | src/app/Components/SearchBar.tsx:27-32 | a sequence of events keeps the debouncer settled, and edits alone never change the debounced value |
| SearchBarComponent.RunAppend | src/app/Components/SearchBar.tsx:27-32 | running two event sequences one after the other equals running their concatenation |
| SearchBarComponent.BurstPromotesNothing | src/app/Components/SearchBar.tsx:27-32 | during a burst of edits the debounced value does not change and the input ends at the last value typed |
| SearchBarComponent.BurstThenFire | src/app/Components/SearchBar.tsx:27-32 | a burst of edits then one timer firing promotes exactly the last value typed |
| SearchBarComponent.Suggestions | src/app/Components/SearchBar.tsx:48 | `data.Search?.slice(0, 10)` or `[]`: the first min(10, n) results in order; none when the body has no Search or the fetch threw |
| SearchBarComponent.SearchBar.constructor | src/app/Components/SearchBar.tsx:18-32 | the initial state, with the mount-time debounce timer pending for the empty input |
| SearchBarComponent.SearchBar.ChangeInput | src/app/Components/SearchBar.tsx:92 | the input's onChange is one Edit step of the debouncer |
| SearchBarComponent.SearchBar.FireTimer | src/app/Components/SearchBar.tsx:27-45 | one TimerFires step; a new blank value clears the suggestions without a request; a new non-blank value starts loading and requests it; an unchanged value does nothing |
| SearchBarComponent.SearchBar.ReceiveSuggestions | src/app/Components/SearchBar.tsx:47-54 | the suggestions become Suggestions(response) and loading ends |
| SearchBarComponent.SearchBar.HandleSearch | src/app/Components/SearchBar.tsx:66-71 | submits the untrimmed input iff it is not blank, closing the suggestions then |
| SearchBarComponent.SearchBar.HandleSelectMovie | src/app/Components/SearchBar.tsx:60-64 | clears input and suggestions (an Edit to "") and returns the movie's detail route |
| MovieListComponent.SearchParam | src/app/Components/MovieList.tsx:129 | the parameter is `s=` followed by the search text, or by `movie` for an empty one, and holds a '&' exactly when the search text does |
| MovieListComponent.QuerySegments | src/app/Components/MovieList.tsx:127-133 | five candidate segments, of which only the year segment can be empty, and it is empty exactly when the year filter is |
| MovieListComponent.QueryString | src/app/Components/MovieList.tsx:127-135 | the query string starts with the apikey parameter and ends with the page parameter |
| MovieListComponent.KeepNonEmpty | src/app/Components/MovieList.tsx:134 | `filter(Boolean)`: keeps exactly the non-empty segments |
| MovieListComponent.KeptSegments | src/app/Components/MovieList.tsx:127-134 | the filter drops exactly the year segment, and only when the year filter is empty |
| MovieListComponent.QueryParamsInOrder | src/app/Components/MovieList.tsx:127-135 | for filters without '&', splitting the query string gives apikey, s, [y], type=movie, page, in that order |
| MovieListComponent.QueryHasNoEmptyParam | src/app/Components/MovieList.tsx:127-135 | for filters without '&', the query string neither starts nor ends with '&' and never holds "&&" |
| MovieListComponent.AmpersandQueryJoin | src/app/Components/MovieList.tsx:127-135 | a search text a&b gives the same query string as separate s=a and b parameters |
| MovieListComponent.AmpersandInSearchSplitsParam | src/app/Components/MovieList.tsx:129 | the unencoded search text a&b reaches the catalog as two parameters, s=a and b |
| MovieListComponent.Ids | src/app/Components/MovieList.tsx:142-144 | one imdb id per search item, in order |
| MovieListComponent.AfterListFetch | src/app/Components/MovieList.tsx:124-162 | after a fetch: one detail body per search item in order, with the parsed total, when all lookups returned; an empty list and total 0 on a failed body; an empty list and the old total when any step threw; never loading |
| MovieListComponent.PaginationShown | src/app/Components/MovieList.tsx:239 | `!loading && totalResults > 10`, false for a NaN total, a definition; ShownMeansSeveralPages states what it implies |
| MovieListComponent.NextButtonDisabled | src/app/Components/MovieList.tsx:253 | never disabled for a NaN total; otherwise disabled exactly when the current page already covers all results |
| MovieListComponent.ShownMeansSeveralPages | src/app/Components/MovieList.tsx:239 | the page controls show only when there are at least two pages |
| MovieListComponent.EnabledNextStaysInRange | src/app/Components/MovieList.tsx:252-253 | an enabled next button leads to a page that exists |
| MovieListComponent.ControlsOverEmptyGridAfterThrow | src/app/Components/MovieList.tsx:156-158 | after a throw with 25 results known, the controls show while the grid shows the placeholder |
| MovieListComponent.PosterSrc | src/app/Components/MovieList.tsx:60 | the poster, or the stand-in image for "N/A"; never "N/A" |
| MovieListComponent.CardOf | src/app/Components/MovieList.tsx:51-86 | a card keys on the id and links to its detail route; the poster is PosterSrc of the movie's (the stand-in for "N/A", else unchanged); title and year are shown as given; a present, non-empty genre or rating is shown unchanged and a missing or empty one falls back |
| MovieListComponent.MovieGrid | src/app/Components/MovieList.tsx:31-94 | ten skeletons while loading, else the placeholder for no movies, else one card per movie in order |
| MovieListComponent.GridAfterFetch | src/app/Components/MovieList.tsx:140-150 | after a fetch whose lookups all returned, the grid shows one card per detail body in search order, or the placeholder when there were none |
| MovieListComponent.MovieList.constructor | src/app/Components/MovieList.tsx:97-103 | the initial state values |
| MovieListComponent.MovieList.StartFetch | src/app/Components/MovieList.tsx:125-137 | loading starts, so the grid shows the ten skeletons and the page controls hide; the request is QueryString of the filters and the page |
| MovieListComponent.MovieList.ReceiveFetch | src/app/Components/MovieList.tsx:138-161 | the list, total and loading become AfterListFetch of the old ones, and the grid shows the new list |
| MovieListComponent.MovieList.ChangeSearchQuery | src/app/Components/MovieList.tsx:164-167 | a changed search text starts a fetch of page 1 without resetting currentPage and returns its request; the same text starts nothing |
| MovieListComponent.MovieList.ChangeYear | src/app/Components/MovieList.tsx:164-167 | a changed year starts a fetch of page 1 without resetting currentPage and returns its request; the same year starts nothing |
| MovieListComponent.MovieList.Prev | src/app/Components/MovieList.tsx:242 | the page becomes PrevPage, one back when the button is enabled |
| MovieListComponent.MovieList.Next | src/app/Components/MovieList.tsx:252 | the page goes up by one, unclamped; within range when the controls show and the button is enabled |
| MovieListComponent.MovieList.PageChanged | src/app/Components/MovieList.tsx:170-172 | the page effect starts a fetch of the current page and returns its request |
| MovieListComponent.MovieList.HandleSearch | src/app/Components/MovieList.tsx:174-177 | back to page 1, and starts a fetch of page 1 |

## Left out

- HTTP, JSON parsing and the request URLs of the home page and the search bar: every response is an input value, and a `NotFound` body is taken to carry no `Search` array.
- URL encoding: the home page encodes its search text with `encodeURIComponent`, and that encoding is not modelled; MovieList's missing encoding is modelled by the '&' lemmas.
- Pairing each start method with exactly one receive method for the same request is left to the caller, as is the effect scheduling below.
- React's scheduling of effects: an effect runs once after each render in which any of its dependencies changed, and the methods leave that to their caller. To follow the source a caller must: call HomePage.Home.QueryOrPageChanged only when the query or the page actually changed, so re-submitting the same query on page 1 fetches nothing (page.tsx:35-39); follow MovieListComponent.MovieList.HandleSearch from a page other than 1 with a second fetch of page 1 through PageChanged (MovieList.tsx:170-177); call PageChanged after Prev or Next only when the page changed, so Prev on page 1 fetches nothing. The mount-time runs of both MovieList effects (two fetches of page 1) are not modelled as separate calls.
- Concurrency and stale answers: responses are applied in the order the methods are called. Late or overlapping answers, and the absence of any request tagging, are not modelled.
- `setTimeout` durations and timer teardown on unmount: the 500 ms debounce is the discrete `TimerFires` event.
- Omdb.ParseNumber: only the empty string and plain decimal digit strings parse. The surrounding whitespace, signs, decimals, exponents, `Infinity`, the `0x`/`0o`/`0b` prefixes and every other numeric form that JavaScript's `Number()` also accepts become NaN, and catalog totals are digit strings. An absent `totalResults` is represented by any non-digit string, which gives the same NaN.
- Movie records keep only the keys the three components read (imdbID, Title, Year, Poster, Genre, imdbRating, Response); Plot and Error of detail bodies are not kept.
- The API key is a constructor parameter of MovieList and is not part of the home page and search bar requests, which are not modelled.
- JSX layout, CSS classes, the hover icon and the year and genre option lists; the rendered text of a card is its `Card` value.
- HeroSection, Footer, the root layout, the movie detail page and next.config.js are not part of this model.
- `console.error` logging in the catch blocks.
- `router.push`: HandleSelectMovie returns the route instead of navigating.
- Omdb.FetchAll: a lookup is a function of its key, so two search items with the same imdbID always get the same outcome, while MovieList.tsx:141-149 fetches each one separately and the two answers could differ.
