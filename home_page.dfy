/** The home page (src/app/page.tsx): the search results with their own
    pagination, the trending movies for the hero carousel, and the wiring
    from the search bar's submit to a new search. */
module HomePage {
  import opened Omdb
  import opened Pagination
  import Text
  import SearchBarComponent

  const NoResultsMessage: string := "No results found."
  const FetchErrorMessage: string := "An error occurred while fetching data. Please try again later."

  /** The fixed ids whose details fill the hero carousel. */
  const TrendingIds: seq<string> := ["tt3896198", "tt4154796", "tt0111161", "tt1375666", "tt0109830"]

  datatype Direction = Next | Prev

  // ---------------------------------------------------------------------
  // Pagination

  /** handlePageChange's newPage: "next" is clamped to the last page,
      "previous" to the first. */
  function NewPage(direction: Direction, currentPage: int, totalResults: nat): (p: int)
    ensures direction == Prev ==> p >= 1
    ensures direction == Prev && currentPage > 1 ==> p == currentPage - 1
    ensures direction == Next ==> p <= TotalPages(totalResults)
    ensures direction == Next && currentPage < TotalPages(totalResults) ==> p == currentPage + 1
    ensures direction == Next && currentPage >= TotalPages(totalResults) ==> p == TotalPages(totalResults)
  {
    match direction
    case Next =>
      if currentPage + 1 <= TotalPages(totalResults) then currentPage + 1 else TotalPages(totalResults)
    case Prev => PrevPage(currentPage)
  }

  /** The next-page button is enabled exactly when pressing it moves one page
      forward. */
  lemma NextEnabledIffStepForward(currentPage: int, totalResults: nat)
    ensures !NextDisabled(currentPage, totalResults) <==> NewPage(Next, currentPage, totalResults) == currentPage + 1
  {
  }

  /** A page within [1, last page] stays there whichever button is pressed. */
  lemma PageChangeStaysInRange(direction: Direction, currentPage: int, totalResults: nat)
    requires 1 <= currentPage <= TotalPages(totalResults)
    ensures 1 <= NewPage(direction, currentPage, totalResults) <= TotalPages(totalResults)
  {
  }

  /** With no results "next" computes page 0, below the first page; its
      button is disabled in exactly that situation. */
  lemma NextWithoutResults(currentPage: int)
    requires currentPage >= 0
    ensures NextDisabled(currentPage, 0)
    ensures NewPage(Next, currentPage, 0) == 0
  {
  }

  /** `query && !loading && movies.length > 0`: the pagination controls are
      rendered. */
  predicate PaginationVisible(query: string, loading: bool, movies: seq<Movie>)
  {
    query != "" && !loading && |movies| > 0
  }

  /** A catalog total of "25" gives three pages: from page 3 "next" is
      disabled and from page 2 it is not. */
  lemma TwentyFiveResults()
    ensures TotalOrZero("25") == 25 && TotalPages(25) == 3
    ensures NextDisabled(3, TotalOrZero("25")) && !NextDisabled(2, TotalOrZero("25"))
  {
    assert "25"[..1] == "2" && "2"[..0] == "";
    assert DigitsValue("2") == 2;
  }

  // ---------------------------------------------------------------------
  // Search results

  /** The fields that fetchMovies writes. */
  datatype SearchState = SearchState(movies: seq<Movie>, totalResults: nat, error: Option<string>, loading: bool)

  /** The state fetchMovies leaves once the response is handled: the
      try block's branch on Response, the catch, and the finally. */
  function AfterFetch(s: SearchState, resp: SearchResponse): (t: SearchState)
    ensures !t.loading
    ensures t.error.None? <==> resp.Found?
    ensures resp.Found? ==> t.movies == OrEmpty(resp.search) && t.totalResults == TotalOrZero(resp.totalResults)
    ensures resp.NotFound? ==>
      t.movies == [] && t.totalResults == s.totalResults && t.error == Some(OrElse(resp.error, NoResultsMessage))
    ensures resp.Thrown? ==>
      t.movies == s.movies && t.totalResults == s.totalResults && t.error == Some(FetchErrorMessage)
  {
    match resp
    case Found(search, total) => SearchState(OrEmpty(search), TotalOrZero(total), None, false)
    case NotFound(err) => SearchState([], s.totalResults, Some(OrElse(err, NoResultsMessage)), false)
    case Thrown => SearchState(s.movies, s.totalResults, Some(FetchErrorMessage), false)
  }

  /** After a fetch the controls show exactly when the query is non-empty and
      there are movies: the new ones after a success, none after a catalog
      failure, the previous ones after a throw. */
  lemma VisibleAfterFetch(query: string, s: SearchState, resp: SearchResponse)
    ensures var t := AfterFetch(s, resp);
      PaginationVisible(query, t.loading, t.movies) <==>
        query != "" &&
        match resp
        case Found(search, _) => |OrEmpty(search)| > 0
        case NotFound(_) => false
        case Thrown => |s.movies| > 0
  {
  }

  /** Every error message the results area can show is non-empty, so
      `{error && ...}` renders it. */
  lemma ErrorIsShown(s: SearchState, resp: SearchResponse)
    ensures var t := AfterFetch(s, resp); t.error.Some? ==> t.error.value != ""
  {
  }

  // ---------------------------------------------------------------------
  // Trending movies

  /** `movie.Response === 'True'` */
  predicate Succeeded(m: Movie)
  {
    m.response == Some("True")
  }

  /** `filter((movie) => movie.Response === 'True')` */
  function KeepSucceeded(ms: seq<Movie>): (r: seq<Movie>)
    ensures |r| <= |ms|
    ensures forall i :: 0 <= i < |r| ==> Succeeded(r[i])
    ensures forall m :: m in r <==> m in ms && Succeeded(m)
  {
    if ms == [] then []
    else if Succeeded(ms[0]) then [ms[0]] + KeepSucceeded(ms[1..])
    else KeepSucceeded(ms[1..])
  }

  /** The filter keeps the original order: filtering a concatenation filters
      each part. */
  lemma {:induction false} KeepSucceededAppend(a: seq<Movie>, b: seq<Movie>)
    ensures KeepSucceeded(a + b) == KeepSucceeded(a) + KeepSucceeded(b)
  {
    if a != [] {
      var ab := a + b;
      assert ab[0] == a[0];
      assert ab[1..] == a[1..] + b;
      KeepSucceededAppend(a[1..], b);
      var t := KeepSucceeded(a[1..]) + KeepSucceeded(b);
      assert KeepSucceeded(ab[1..]) == t;
      if Succeeded(a[0]) {
        assert KeepSucceeded(ab) == [a[0]] + t;
        assert KeepSucceeded(a) == [a[0]] + KeepSucceeded(a[1..]);
      } else {
        assert KeepSucceeded(ab) == t;
        assert KeepSucceeded(a) == KeepSucceeded(a[1..]);
      }
    } else {
      assert a + b == b;
    }
  }

  /** The filter drops nothing exactly when every lookup succeeded. */
  lemma {:induction false} KeepSucceededAll(ms: seq<Movie>)
    ensures KeepSucceeded(ms) == ms <==> forall i :: 0 <= i < |ms| ==> Succeeded(ms[i])
  {
    if ms != [] {
      KeepSucceededAll(ms[1..]);
      if !Succeeded(ms[0]) {
        assert |KeepSucceeded(ms)| <= |ms[1..]| < |ms|;
      } else {
        var t := KeepSucceeded(ms[1..]);
        assert KeepSucceeded(ms) == [ms[0]] + t;
        if t == ms[1..] {
          assert KeepSucceeded(ms) == ms;
        } else {
          assert KeepSucceeded(ms)[1..] == t;
        }
        assert (forall i :: 0 <= i < |ms| ==> Succeeded(ms[i])) <==>
          (forall i :: 0 <= i < |ms[1..]| ==> Succeeded(ms[1..][i]));
      }
    }
  }

  /** fetchTrendingMovies: the filtered bodies when every lookup returned,
      the previous list when one threw (the catch only logs). */
  function TrendingAfter(before: seq<Movie>, fetched: Option<seq<Movie>>): (r: seq<Movie>)
    ensures fetched.Some? ==> r == KeepSucceeded(fetched.value)
    ensures fetched.None? ==> r == before
  {
    match fetched
    case Some(ms) => KeepSucceeded(ms)
    case None => before
  }

  /** The trending list holds only successful lookups, at most one per fixed
      id. */
  lemma {:induction false} TrendingBounded(before: seq<Movie>, lookup: string -> Lookup)
    requires |before| <= |TrendingIds|
    requires forall i :: 0 <= i < |before| ==> Succeeded(before[i])
    ensures var r := TrendingAfter(before, FetchAll(TrendingIds, lookup));
      |r| <= |TrendingIds| && forall i :: 0 <= i < |r| ==> Succeeded(r[i])
  {
    var fetched := FetchAll(TrendingIds, lookup);
    if fetched.Some? {
      assert |fetched.value| == |TrendingIds|;
    }
  }

  // ---------------------------------------------------------------------
  // The component

  /** The Home component's state. */
  class Home {
    var query: string
    var movies: seq<Movie>
    var trendingMovies: seq<Movie>
    var loadingTrending: bool
    var loading: bool
    var error: Option<string>
    var currentPage: int
    var totalResults: nat

    /** The trending list only ever holds successful lookups of the fixed ids. */
    predicate Valid()
      reads this
    {
      |trendingMovies| <= |TrendingIds| && forall i :: 0 <= i < |trendingMovies| ==> Succeeded(trendingMovies[i])
    }

    function Search(): SearchState
      reads this
    {
      SearchState(movies, totalResults, error, loading)
    }

    predicate ShowsPagination()
      reads this
    {
      PaginationVisible(query, loading, movies)
    }

    predicate PrevButtonDisabled()
      reads this
    {
      PrevDisabled(currentPage)
    }

    predicate NextButtonDisabled()
      reads this
    {
      NextDisabled(currentPage, totalResults)
    }

    /** The initial useState values. */
    constructor ()
      ensures Valid()
      ensures query == "" && movies == [] && trendingMovies == [] && loadingTrending
      ensures !loading && error == None && currentPage == 1 && totalResults == 0
    {
      query, movies, trendingMovies, loadingTrending := "", [], [], true;
      loading, error, currentPage, totalResults := false, None, 1, 0;
    }

    /** handleSearchAction: a new search starts at the first page. */
    method HandleSearchAction(searchQuery: string)
      requires Valid()
      modifies this`query, this`currentPage
      ensures Valid()
      ensures query == searchQuery && currentPage == 1
    {
      query := searchQuery;
      currentPage := 1;
    }

    /** handlePageChange */
    method HandlePageChange(direction: Direction)
      requires Valid()
      modifies this`currentPage
      ensures Valid()
      ensures currentPage == NewPage(direction, old(currentPage), totalResults)
      ensures direction == Prev ==> currentPage >= 1
      ensures direction == Next ==> currentPage <= TotalPages(totalResults)
      ensures direction == Next && !old(NextButtonDisabled()) ==> currentPage == old(currentPage) + 1
      ensures direction == Prev && !old(PrevButtonDisabled()) && old(currentPage) >= 1 ==> currentPage == old(currentPage) - 1
    {
      var newPage := NewPage(direction, currentPage, totalResults);
      currentPage := newPage;
    }

    /** fetchMovies up to its await: loading starts, the error clears and
        the page controls hide. The request itself is not modelled. */
    method StartFetch()
      requires Valid()
      modifies this`error, this`loading
      ensures Valid()
      ensures loading && error == None
      ensures !ShowsPagination()
    {
      loading := true;
      error := None;
    }

    /** fetchMovies after its await, given the response: the try block's
        branch on Response, the catch, and the finally. Only the result
        fields change; the query and the page do not. The answer arrives
        only after StartFetch, so the error is already cleared. */
    method ReceiveFetch(resp: SearchResponse)
      requires Valid() && error == None
      modifies this`movies, this`totalResults, this`error, this`loading
      ensures Valid()
      ensures Search() == AfterFetch(old(Search()), resp)
      ensures !loading && (error.None? <==> resp.Found?)
      ensures ShowsPagination() <==> query != "" && |movies| > 0
    {
      match resp {
        case Found(search, total) =>
          movies := OrEmpty(search);
          totalResults := TotalOrZero(total);
        case NotFound(err) =>
          movies := [];
          error := Some(OrElse(err, NoResultsMessage));
        case Thrown =>
          error := Some(FetchErrorMessage);
      }
      loading := false;
    }

    /** The effect on [query, currentPage]: it starts a fetch only for a
        non-empty query, so an empty query leaves the results as they are. */
    method QueryOrPageChanged() returns (fetched: bool)
      requires Valid()
      modifies this`error, this`loading
      ensures Valid()
      ensures fetched <==> query != ""
      ensures fetched ==> loading && error == None
      ensures !fetched ==> Search() == old(Search())
    {
      fetched := query != "";
      if fetched {
        StartFetch();
      }
    }

    /** fetchTrendingMovies, given the lookup outcome for each fixed id. It
        runs only at mount, so its loading interval is the constructor's
        state with loadingTrending set; this method applies the answers. */
    method FetchTrendingMovies(lookup: string -> Lookup)
      requires Valid()
      modifies this`trendingMovies, this`loadingTrending
      ensures Valid() && !loadingTrending
      ensures trendingMovies == TrendingAfter(old(trendingMovies), FetchAll(TrendingIds, lookup))
    {
      TrendingBounded(trendingMovies, lookup);
      var fetched := FetchAll(TrendingIds, lookup);
      match fetched {
        case Some(ms) => trendingMovies := KeepSucceeded(ms);
        case None =>
      }
      loadingTrending := false;
    }
  }

  /** The search bar's submit wired to handleSearchAction: a non-blank input
      becomes the query, verbatim, and the results go back to page 1; a
      blank one changes nothing on the page. */
  method SubmitSearch(bar: SearchBarComponent.SearchBar, home: Home) returns (submitted: Option<string>)
    requires bar.Valid() && home.Valid()
    modifies bar`suggestions, home`query, home`currentPage
    ensures bar.Valid() && home.Valid()
    ensures submitted == if Text.IsBlank(bar.searchQuery) then None else Some(bar.searchQuery)
    ensures submitted.None? ==> bar.suggestions == old(bar.suggestions)
    ensures submitted.Some? ==> home.query == bar.searchQuery && home.currentPage == 1 && bar.suggestions == []
    ensures submitted.None? ==> home.query == old(home.query) && home.currentPage == old(home.currentPage)
  {
    var q := bar.HandleSearch();
    match q {
      case Some(v) =>
        home.HandleSearchAction(v);
        submitted := Some(v);
      case None =>
        submitted := None;
    }
  }
}
