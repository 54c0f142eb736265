/** The filterable movie list (src/app/Components/MovieList.tsx): the
    catalog query string built from the filters, the search whose results
    are enriched by one detail lookup each, its own pagination, and the
    case selection of the MovieGrid render. */
module MovieListComponent {
  import opened Omdb
  import opened Pagination
  import opened Text

  /** The search text sent when the search filter is empty. */
  const DefaultSearch: string := "movie"
  const PlaceholderMessage: string := "Žádné filmy nebyly nalezeny."
  const NoImage: string := "/no-image.jpg"
  const UnknownGenre: string := "Neznámý žánr"
  const UnknownRating: string := "N/A"
  /** Placeholder tiles rendered while loading. */
  const SkeletonCount: nat := 10

  // ---------------------------------------------------------------------
  // The query string

  /** `searchQuery ? `s=${searchQuery}` : 's=movie'` */
  function SearchParam(searchQuery: string): (p: string)
    ensures |p| > 2 && p[..2] == "s="
    ensures searchQuery != "" ==> p[2..] == searchQuery
    ensures searchQuery == "" ==> p[2..] == DefaultSearch
    ensures '&' in p <==> '&' in searchQuery
  {
    if searchQuery != "" then "s=" + searchQuery else "s=" + DefaultSearch
  }

  /** The candidate segments, in order; an empty year filter leaves an
      empty string in the third place, and no other segment is ever empty. */
  function QuerySegments(apiKey: string, searchQuery: string, selectedYear: string, page: nat): (r: seq<string>)
    ensures |r| == 5
    ensures r[2] == "" <==> selectedYear == ""
    ensures r[0] != "" && r[1] != "" && r[3] != "" && r[4] != ""
  {
    [ "apikey=" + apiKey,
      SearchParam(searchQuery),
      if selectedYear != "" then "y=" + selectedYear else "",
      "type=movie",
      "page=" + NatToString(page) ]
  }

  /** `filter(Boolean)` on strings: drops the empty ones, keeps the order. */
  function KeepNonEmpty(parts: seq<string>): (r: seq<string>)
    ensures |r| <= |parts|
    ensures forall i :: 0 <= i < |r| ==> r[i] != ""
    ensures forall p :: p in r <==> p in parts && p != ""
  {
    if parts == [] then []
    else if parts[0] != "" then [parts[0]] + KeepNonEmpty(parts[1..])
    else KeepNonEmpty(parts[1..])
  }

  /** The query string of fetchMovies(page): the non-empty segments joined
      with '&'. It starts with the key and ends with the page. */
  function QueryString(apiKey: string, searchQuery: string, selectedYear: string, page: nat): (q: string)
    ensures ("apikey=" + apiKey) <= q
    ensures var last := "page=" + NatToString(page); |last| <= |q| && q[|q| - |last|..] == last
  {
    KeptSegments(apiKey, searchQuery, selectedYear, page);
    Join(KeepNonEmpty(QuerySegments(apiKey, searchQuery, selectedYear, page)), '&')
  }

  lemma DigitsHaveNoAmpersand(s: string)
    requires AllDigits(s)
    ensures '&' !in s
  {
    assert forall i :: 0 <= i < |s| ==> s[i] != '&';
  }

  /** The parameters the query string is meant to carry, in order. */
  function QueryParams(apiKey: string, searchQuery: string, selectedYear: string, page: nat): seq<string>
  {
    ["apikey=" + apiKey, SearchParam(searchQuery)]
    + (if selectedYear != "" then ["y=" + selectedYear] else [])
    + ["type=movie", "page=" + NatToString(page)]
  }

  lemma KeepCons(x: string, rest: seq<string>)
    ensures KeepNonEmpty([x] + rest) == (if x != "" then [x] else []) + KeepNonEmpty(rest)
  {
    assert ([x] + rest)[0] == x;
    assert ([x] + rest)[1..] == rest;
  }

  /** filter(Boolean) drops exactly the empty year segment. */
  lemma KeptSegments(apiKey: string, searchQuery: string, selectedYear: string, page: nat)
    ensures KeepNonEmpty(QuerySegments(apiKey, searchQuery, selectedYear, page)) ==
      QueryParams(apiKey, searchQuery, selectedYear, page)
  {
    var l := QuerySegments(apiKey, searchQuery, selectedYear, page);
    var y := if selectedYear != "" then [l[2]] else [];
    assert l[0] != "" && l[1] != "" && l[3] != "" && l[4] != "";
    var s4: seq<string> := [];
    var s3 := [l[4]] + s4;
    var s2 := [l[3]] + s3;
    var s1 := [l[2]] + s2;
    var s0 := [l[1]] + s1;
    assert l == [l[0]] + s0;
    KeepCons(l[4], s4);
    KeepCons(l[3], s3);
    KeepCons(l[2], s2);
    KeepCons(l[1], s1);
    KeepCons(l[0], s0);
    assert KeepNonEmpty(s1) == y + [l[3], l[4]];
  }

  /** The parameters arrive in the order apikey, s, [y], type, page, with
      the search defaulting to "movie" and no year parameter for an empty
      year filter, as long as the filters hold no '&' (they are not
      URL-encoded). */
  lemma QueryParamsInOrder(apiKey: string, searchQuery: string, selectedYear: string, page: nat)
    requires '&' !in apiKey && '&' !in searchQuery && '&' !in selectedYear
    ensures Split(QueryString(apiKey, searchQuery, selectedYear, page), '&') ==
      QueryParams(apiKey, searchQuery, selectedYear, page)
  {
    var params := QueryParams(apiKey, searchQuery, selectedYear, page);
    KeptSegments(apiKey, searchQuery, selectedYear, page);
    DigitsHaveNoAmpersand(NatToString(page));
    assert '&' !in SearchParam(searchQuery);
    assert forall i :: 0 <= i < |params| ==> '&' !in params[i];
    SplitJoin(params, '&');
  }

  /** No parameter is empty: the query string neither starts nor ends with
      '&' and never holds "&&". */
  lemma QueryHasNoEmptyParam(apiKey: string, searchQuery: string, selectedYear: string, page: nat)
    requires '&' !in apiKey && '&' !in searchQuery && '&' !in selectedYear
    ensures var q := QueryString(apiKey, searchQuery, selectedYear, page);
      q != "" && q[0] != '&' && q[|q| - 1] != '&' &&
      forall i :: 0 <= i < |q| - 1 ==> !DoubledAt(q, '&', i)
  {
    var params := QueryParams(apiKey, searchQuery, selectedYear, page);
    KeptSegments(apiKey, searchQuery, selectedYear, page);
    DigitsHaveNoAmpersand(NatToString(page));
    assert '&' !in SearchParam(searchQuery);
    assert forall i :: 0 <= i < |params| ==> params[i] != "" && '&' !in params[i];
    JoinNoEmptyPiece(params, '&');
  }

  /** The query string for a search text holding one '&', as a join. */
  lemma AmpersandQueryJoin(apiKey: string, a: string, b: string, selectedYear: string, page: nat)
    ensures QueryString(apiKey, a + "&" + b, selectedYear, page) ==
      Join(["apikey=" + apiKey, "s=" + a, b]
        + (if selectedYear != "" then ["y=" + selectedYear] else [])
        + ["type=movie", "page=" + NatToString(page)], '&')
  {
    var q := a + "&" + b;
    var head, sp := "apikey=" + apiKey, "s=" + a;
    var y := if selectedYear != "" then ["y=" + selectedYear] else [];
    var rest := y + ["type=movie", "page=" + NatToString(page)];
    var piece := sp + ['&'] + b;
    var joined := [piece] + rest;
    var split := [sp] + ([b] + rest);
    KeptSegments(apiKey, q, selectedYear, page);
    assert SearchParam(q) == piece;
    assert QueryParams(apiKey, q, selectedYear, page) == [head] + joined;
    JoinSplitPiece(sp, b, rest, '&');
    JoinCons(head, joined, '&');
    JoinCons(head, split, '&');
    assert [head] + split == [head, sp, b] + y + ["type=movie", "page=" + NatToString(page)];
  }

  /** The search text goes out unencoded: a '&' in it splits the search
      parameter in two, so "a&y=1999" sends s=a and a year filter of its
      own. */
  lemma AmpersandInSearchSplitsParam(apiKey: string, a: string, b: string, selectedYear: string, page: nat)
    requires '&' !in apiKey && '&' !in a && '&' !in b && '&' !in selectedYear
    ensures Split(QueryString(apiKey, a + "&" + b, selectedYear, page), '&') ==
      ["apikey=" + apiKey, "s=" + a, b]
      + (if selectedYear != "" then ["y=" + selectedYear] else [])
      + ["type=movie", "page=" + NatToString(page)]
  {
    var parts := ["apikey=" + apiKey, "s=" + a, b]
      + (if selectedYear != "" then ["y=" + selectedYear] else [])
      + ["type=movie", "page=" + NatToString(page)];
    AmpersandQueryJoin(apiKey, a, b, selectedYear, page);
    DigitsHaveNoAmpersand(NatToString(page));
    assert forall i :: 0 <= i < |parts| ==> '&' !in parts[i];
    SplitJoin(parts, '&');
  }

  // ---------------------------------------------------------------------
  // The search with per-item enrichment

  /** The ids of the search items, in order. */
  function Ids(items: seq<Movie>): (r: seq<Option<string>>)
    ensures |r| == |items|
    ensures forall i :: 0 <= i < |items| ==> r[i] == items[i].imdbID
  {
    if items == [] then [] else [items[0].imdbID] + Ids(items[1..])
  }

  /** The fields that fetchMovies writes. */
  datatype ListState = ListState(displayedMovies: seq<Movie>, totalResults: Number, loading: bool)

  /** The state fetchMovies leaves once the responses are handled. A
      success is enriched by one lookup per item, kept as the catalog
      returned it; a failed body empties the list and zeroes the total; a
      throw (of the search, of `data.Search.map` on a body without Search,
      or of any lookup) empties the list and keeps the total. */
  function AfterListFetch(s: ListState, resp: SearchResponse, lookup: Option<string> -> Lookup): (t: ListState)
    ensures !t.loading
    ensures resp.NotFound? ==> t.displayedMovies == [] && t.totalResults == Num(0)
    ensures resp.Thrown? ==> t.displayedMovies == [] && t.totalResults == s.totalResults
    ensures resp.Found? && resp.search.None? ==> t.displayedMovies == [] && t.totalResults == s.totalResults
    ensures resp.Found? && resp.search.Some? ==>
      var items := resp.search.value;
      if forall i :: 0 <= i < |items| ==> lookup(items[i].imdbID).Fetched? then
        |t.displayedMovies| == |items| &&
        (forall i :: 0 <= i < |items| ==> t.displayedMovies[i] == lookup(items[i].imdbID).body) &&
        t.totalResults == ParseNumber(resp.totalResults)
      else
        t.displayedMovies == [] && t.totalResults == s.totalResults
  {
    match resp
    case Found(Some(items), total) =>
      (match FetchAll(Ids(items), lookup)
       case Some(details) => ListState(details, ParseNumber(total), false)
       case None => ListState([], s.totalResults, false))
    case Found(None, _) => ListState([], s.totalResults, false)
    case NotFound(_) => ListState([], Num(0), false)
    case Thrown => ListState([], s.totalResults, false)
  }

  // ---------------------------------------------------------------------
  // Pagination

  /** `!loading && totalResults > 10`; a NaN total compares false. */
  predicate PaginationShown(loading: bool, totalResults: Number)
  {
    !loading && totalResults.Num? && totalResults.value > PageSize
  }

  /** `currentPage >= Math.ceil(totalResults / 10)`; every comparison with
      NaN is false. */
  predicate NextButtonDisabled(currentPage: int, totalResults: Number)
    ensures totalResults.NaN? ==> !NextButtonDisabled(currentPage, totalResults)
    ensures totalResults.Num? ==>
      (NextButtonDisabled(currentPage, totalResults) <==> currentPage * PageSize >= totalResults.value)
  {
    match totalResults
    case Num(n) => NextDisabled(currentPage, n)
    case NaN => false
  }

  /** The controls show only when there are at least two pages. */
  lemma ShownMeansSeveralPages(loading: bool, totalResults: Number)
    requires PaginationShown(loading, totalResults)
    ensures totalResults.Num? && TotalPages(totalResults.value) >= 2
  {
  }

  /** "next" is not clamped; it stays within the pages because its button
      is disabled on the last one. */
  lemma EnabledNextStaysInRange(currentPage: int, totalResults: Number)
    requires PaginationShown(false, totalResults)
    requires 1 <= currentPage <= TotalPages(totalResults.value)
    requires !NextButtonDisabled(currentPage, totalResults)
    ensures 2 <= currentPage + 1 <= TotalPages(totalResults.value)
  {
  }

  /** After a throw the total is kept while the list is emptied, so a list
      that had several pages shows the page controls over the empty-list
      message. */
  lemma ControlsOverEmptyGridAfterThrow(s: ListState, lookup: Option<string> -> Lookup)
    requires s.totalResults == Num(25)
    ensures var t := AfterListFetch(s, Thrown, lookup);
      PaginationShown(t.loading, t.totalResults) &&
      MovieGrid(t.displayedMovies, t.loading, PlaceholderMessage) == Message(PlaceholderMessage)
  {
  }

  // ---------------------------------------------------------------------
  // MovieGrid

  /** What one card shows and links to. */
  datatype Card = Card(
    key: Option<string>,
    href: string,
    posterSrc: Option<string>,
    alt: Option<string>,
    title: Option<string>,
    year: Option<string>,
    genre: string,
    rating: string)

  /** The three things MovieGrid can render. */
  datatype Grid = Skeletons(count: nat) | Message(text: string) | Cards(cards: seq<Card>)

  /** `movie.Poster !== 'N/A' ? movie.Poster : '/no-image.jpg'` */
  function PosterSrc(poster: Option<string>): (src: Option<string>)
    ensures src != Some("N/A")
    ensures poster == Some("N/A") ==> src == Some(NoImage)
    ensures poster != Some("N/A") ==> src == poster
  {
    if poster != Some("N/A") then poster else Some(NoImage)
  }

  /** One card: a link to the detail route, the poster or the stand-in
      image, and fallbacks for a missing or empty genre or rating. */
  function CardOf(m: Movie): (c: Card)
    ensures c.key == m.imdbID && c.title == m.title && c.alt == m.title && c.year == m.year
    ensures RouteId(c.href) == Some(Interpolate(m.imdbID))
    ensures c.posterSrc == PosterSrc(m.poster) && c.posterSrc != Some("N/A")
    ensures m.poster == Some("N/A") ==> c.posterSrc == Some(NoImage)
    ensures m.poster != Some("N/A") ==> c.posterSrc == m.poster
    ensures c.genre != "" && c.rating != ""
    ensures m.genre.Some? && m.genre.value != "" ==> c.genre == m.genre.value
    ensures m.imdbRating.Some? && m.imdbRating.value != "" ==> c.rating == m.imdbRating.value
    ensures (m.genre.None? || m.genre == Some("")) ==> c.genre == UnknownGenre
    ensures (m.imdbRating.None? || m.imdbRating == Some("")) ==> c.rating == UnknownRating
  {
    Card(m.imdbID, MovieRoute(m.imdbID), PosterSrc(m.poster), m.title, m.title, m.year,
         OrElse(m.genre, UnknownGenre), OrElse(m.imdbRating, UnknownRating))
  }

  /** MovieGrid's case selection: loading wins, then an empty list, then one
      card per movie in order. */
  function MovieGrid(movies: seq<Movie>, loading: bool, placeholderMessage: string): (g: Grid)
    ensures loading ==> g == Skeletons(SkeletonCount)
    ensures !loading && movies == [] ==> g == Message(placeholderMessage)
    ensures !loading && movies != [] ==>
      g.Cards? && |g.cards| == |movies| && forall i :: 0 <= i < |movies| ==> g.cards[i] == CardOf(movies[i])
  {
    if loading then Skeletons(SkeletonCount)
    else if movies == [] then Message(placeholderMessage)
    else Cards(seq(|movies|, i requires 0 <= i < |movies| => CardOf(movies[i])))
  }

  /** Once a fetch completes the grid shows one card per detail body, in the
      order of the search, or the placeholder message when there are none. */
  lemma GridAfterFetch(s: ListState, resp: SearchResponse, lookup: Option<string> -> Lookup)
    requires resp.Found? && resp.search.Some?
    requires forall i :: 0 <= i < |resp.search.value| ==> lookup(resp.search.value[i].imdbID).Fetched?
    ensures var t := AfterListFetch(s, resp, lookup);
      var g := MovieGrid(t.displayedMovies, t.loading, PlaceholderMessage);
      var items := resp.search.value;
      (items == [] ==> g == Message(PlaceholderMessage)) &&
      (items != [] ==>
        g.Cards? && |g.cards| == |items| &&
        forall i :: 0 <= i < |items| ==> g.cards[i] == CardOf(lookup(items[i].imdbID).body))
  {
  }

  // ---------------------------------------------------------------------
  // The component

  class MovieList {
    /** The catalog key, a configuration value. */
    const apiKey: string
    var displayedMovies: seq<Movie>
    var searchQuery: string
    var selectedYear: string
    var loading: bool
    var totalResults: Number
    var currentPage: int

    /** Pages are numbered from 1. */
    predicate Valid()
      reads this
    {
      currentPage >= 1
    }

    function State(): ListState
      reads this
    {
      ListState(displayedMovies, totalResults, loading)
    }

    function Render(): Grid
      reads this
    {
      MovieGrid(displayedMovies, loading, PlaceholderMessage)
    }

    /** The initial useState values. */
    constructor (apiKey: string)
      ensures Valid() && this.apiKey == apiKey
      ensures displayedMovies == [] && searchQuery == "" && selectedYear == ""
      ensures !loading && totalResults == Num(0) && currentPage == 1
    {
      this.apiKey := apiKey;
      displayedMovies, searchQuery, selectedYear := [], "", "";
      loading, totalResults, currentPage := false, Num(0), 1;
    }

    /** fetchMovies(page) up to its await: loading starts, so the grid shows
        skeletons and the page controls hide, and the query string for the
        filters and the page is requested. */
    method StartFetch(page: nat) returns (request: string)
      modifies this`loading
      ensures loading
      ensures request == QueryString(apiKey, searchQuery, selectedYear, page)
      ensures Render() == Skeletons(SkeletonCount)
      ensures !PaginationShown(loading, totalResults)
    {
      loading := true;
      request := QueryString(apiKey, searchQuery, selectedYear, page);
    }

    /** fetchMovies after its await, given the search response and the
        lookup outcome for each id: the try block, the catch and the finally.
        The grid then shows the new list. */
    method ReceiveFetch(resp: SearchResponse, lookup: Option<string> -> Lookup)
      modifies this`displayedMovies, this`totalResults, this`loading
      ensures State() == AfterListFetch(old(State()), resp, lookup)
      ensures Render() == MovieGrid(displayedMovies, false, PlaceholderMessage)
    {
      ghost var before := State();
      match resp {
        case Found(Some(items), total) =>
          var details := FetchAll(Ids(items), lookup);
          match details {
            case Some(ds) =>
              assert AfterListFetch(before, resp, lookup) == ListState(ds, ParseNumber(total), false);
              displayedMovies := ds;
              totalResults := ParseNumber(total);
            case None =>
              assert AfterListFetch(before, resp, lookup) == ListState([], before.totalResults, false);
              displayedMovies := [];
          }
        case Found(None, _) =>
          displayedMovies := [];
        case NotFound(_) =>
          displayedMovies := [];
          totalResults := Num(0);
        case Thrown =>
          displayedMovies := [];
      }
      loading := false;
    }

    /** The search input or the genre select changes searchQuery; the effect
        on [searchQuery, selectedYear] then starts a fetch of page 1, leaving
        currentPage where it was. */
    method ChangeSearchQuery(value: string) returns (request: Option<string>)
      modifies this`searchQuery, this`loading
      ensures searchQuery == value
      ensures value == old(searchQuery) ==> request == None && loading == old(loading)
      ensures value != old(searchQuery) ==> request == Some(QueryString(apiKey, value, selectedYear, 1)) && loading
    {
      request := None;
      if value != searchQuery {
        searchQuery := value;
        var q := StartFetch(1);
        request := Some(q);
      }
    }

    /** The year select changes selectedYear; the same effect starts a fetch
        of page 1. */
    method ChangeYear(value: string) returns (request: Option<string>)
      modifies this`selectedYear, this`loading
      ensures selectedYear == value
      ensures value == old(selectedYear) ==> request == None && loading == old(loading)
      ensures value != old(selectedYear) ==> request == Some(QueryString(apiKey, searchQuery, value, 1)) && loading
    {
      request := None;
      if value != selectedYear {
        selectedYear := value;
        var q := StartFetch(1);
        request := Some(q);
      }
    }

    /** The previous-page button: `Math.max(prev - 1, 1)`. */
    method Prev()
      requires Valid()
      modifies this`currentPage
      ensures Valid()
      ensures currentPage == PrevPage(old(currentPage))
      ensures !PrevDisabled(old(currentPage)) ==> currentPage == old(currentPage) - 1
    {
      currentPage := PrevPage(currentPage);
    }

    /** The next-page button: `prev + 1`, unclamped. */
    method Next()
      requires Valid()
      modifies this`currentPage
      ensures Valid()
      ensures currentPage == old(currentPage) + 1
      ensures PaginationShown(loading, totalResults) && old(currentPage) <= TotalPages(totalResults.value) &&
              !NextButtonDisabled(old(currentPage), totalResults) ==>
                currentPage <= TotalPages(totalResults.value)
    {
      currentPage := currentPage + 1;
    }

    /** The effect on [currentPage]: start a fetch of the current page. */
    method PageChanged() returns (request: string)
      requires Valid()
      modifies this`loading
      ensures loading
      ensures request == QueryString(apiKey, searchQuery, selectedYear, currentPage)
    {
      request := StartFetch(currentPage);
    }

    /** handleSearch: back to page 1, and start a fetch of page 1. */
    method HandleSearch() returns (request: string)
      modifies this`currentPage, this`loading
      ensures Valid() && currentPage == 1 && loading
      ensures request == QueryString(apiKey, searchQuery, selectedYear, 1)
    {
      currentPage := 1;
      request := StartFetch(1);
    }
  }
}
