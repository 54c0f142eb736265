/** The search bar (src/app/Components/SearchBar.tsx): the input is
    debounced before it drives an autocomplete request, the answer is cut to
    ten suggestions, a submit hands the raw input to the page, and picking a
    suggestion opens its detail view. Time is modelled as discrete events:
    an edit of the input, and the firing of the pending 500 ms timer. */
module SearchBarComponent {
  import opened Omdb
  import opened Text

  /** The most suggestions shown. */
  const MaxSuggestions: nat := 10

  // ---------------------------------------------------------------------
  // The debouncer

  /** The input, the value of the timer still pending (if any), and the
      debounced value it last promoted. */
  datatype Debouncer = Debouncer(searchQuery: string, pending: Option<string>, debouncedQuery: string)

  datatype InputEvent = Edit(value: string) | TimerFires

  /** One event. An edit to a new value clears the pending timer and starts
      one for that value (the effect on [searchQuery] and its cleanup); an
      edit to the same value re-runs nothing. A firing timer promotes its
      value. An edit never promotes, and a firing never changes the input. */
  function Step(d: Debouncer, e: InputEvent): (d': Debouncer)
    ensures e.Edit? ==> d'.searchQuery == e.value && d'.debouncedQuery == d.debouncedQuery
    ensures e.Edit? && e.value != d.searchQuery ==> d'.pending == Some(e.value)
    ensures e.TimerFires? ==> d'.searchQuery == d.searchQuery && d'.pending == None
    ensures e.TimerFires? && d.pending.Some? ==> d'.debouncedQuery == d.pending.value
  {
    match e
    case Edit(v) =>
      if v == d.searchQuery then d else Debouncer(v, Some(v), d.debouncedQuery)
    case TimerFires =>
      match d.pending
      case None => d
      case Some(v) => Debouncer(d.searchQuery, None, v)
  }

  /** The events in order. A settled debouncer stays settled, and edits
      alone promote nothing. */
  function Run(d: Debouncer, events: seq<InputEvent>): (d': Debouncer)
    ensures Settled(d) ==> Settled(d')
    ensures (forall i :: 0 <= i < |events| ==> events[i].Edit?) ==> d'.debouncedQuery == d.debouncedQuery
    decreases |events|
  {
    if events == [] then d else Run(Step(d, events[0]), events[1..])
  }

  function Edits(values: seq<string>): (r: seq<InputEvent>)
    ensures |r| == |values|
    ensures forall i :: 0 <= i < |values| ==> r[i] == Edit(values[i])
  {
    if values == [] then [] else [Edit(values[0])] + Edits(values[1..])
  }

  /** A pending timer always carries the current input, and with none
      pending the debounced value has caught up with the input. */
  predicate Settled(d: Debouncer)
  {
    match d.pending
    case Some(v) => v == d.searchQuery
    case None => d.debouncedQuery == d.searchQuery
  }

  lemma StepSettled(d: Debouncer, e: InputEvent)
    requires Settled(d)
    ensures Settled(Step(d, e))
  {
  }

  lemma {:induction false} RunAppend(d: Debouncer, a: seq<InputEvent>, b: seq<InputEvent>)
    ensures Run(d, a + b) == Run(Run(d, a), b)
    decreases |a|
  {
    if a != [] {
      RunAppend(Step(d, a[0]), a[1..], b);
      assert (a + b)[0] == a[0];
      assert (a + b)[1..] == a[1..] + b;
    } else {
      assert a + b == b;
    }
  }

  /** During a burst of edits nothing is promoted: the input ends at the last
      value typed and the debounced value stays what it was. */
  lemma {:induction false} BurstPromotesNothing(d: Debouncer, values: seq<string>)
    requires Settled(d)
    ensures var d' := Run(d, Edits(values));
      Settled(d') && d'.debouncedQuery == d.debouncedQuery &&
      (values != [] ==> d'.searchQuery == values[|values| - 1])
    decreases |values|
  {
    if values != [] {
      var d1 := Step(d, Edit(values[0]));
      BurstPromotesNothing(d1, values[1..]);
      assert Edits(values)[1..] == Edits(values[1..]);
    }
  }

  /** A burst of edits followed by the timer firing promotes the last value
      typed, and only that one. */
  lemma BurstThenFire(d: Debouncer, values: seq<string>)
    requires Settled(d)
    requires values != []
    ensures Run(d, Edits(values) + [TimerFires]).debouncedQuery == values[|values| - 1]
    ensures Settled(Run(d, Edits(values) + [TimerFires]))
  {
    RunAppend(d, Edits(values), [TimerFires]);
    BurstPromotesNothing(d, values);
  }

  // ---------------------------------------------------------------------
  // Suggestions

  /** `data.Search?.slice(0, 10) || []`: the first ten records of the
      search, in order; none when the body has no Search. */
  function Suggestions(resp: SearchResponse): (r: seq<Movie>)
    ensures |r| <= MaxSuggestions
    ensures resp.Found? && resp.search.Some? ==>
      |r| == (if |resp.search.value| < MaxSuggestions then |resp.search.value| else MaxSuggestions) &&
      r == resp.search.value[..|r|]
    ensures !(resp.Found? && resp.search.Some?) ==> r == []
  {
    match resp
    case Found(Some(items), _) =>
      if |items| < MaxSuggestions then items else items[..MaxSuggestions]
    case _ => []
  }

  // ---------------------------------------------------------------------
  // The component

  class SearchBar {
    var searchQuery: string
    var debouncedQuery: string
    /** The value of the 500 ms timer not yet fired or cleared. */
    var pendingTimer: Option<string>
    var suggestions: seq<Movie>
    var loading: bool

    function Debounce(): Debouncer
      reads this
    {
      Debouncer(searchQuery, pendingTimer, debouncedQuery)
    }

    predicate Valid()
      reads this
    {
      Settled(Debounce()) && |suggestions| <= MaxSuggestions
    }

    /** The state after mount: the debounce effect has started a timer for
        the empty input, and the suggestion effect has seen an empty query. */
    constructor ()
      ensures Valid()
      ensures searchQuery == "" && debouncedQuery == "" && pendingTimer == Some("")
      ensures suggestions == [] && !loading
    {
      searchQuery, debouncedQuery, pendingTimer := "", "", Some("");
      suggestions, loading := [], false;
    }

    /** The input's onChange. */
    method ChangeInput(value: string)
      requires Valid()
      modifies this`searchQuery, this`pendingTimer
      ensures Valid()
      ensures Debounce() == Step(old(Debounce()), Edit(value))
    {
      if value != searchQuery {
        searchQuery := value;
        pendingTimer := Some(value);
      }
    }

    /** The pending timer fires. When the debounced value changes, the
        suggestion effect runs fetchSuggestions up to its request: a blank
        query clears the suggestions and requests nothing; any other query
        sets loading and returns the query to request. */
    method FireTimer() returns (request: Option<string>)
      requires Valid()
      modifies this`debouncedQuery, this`pendingTimer, this`suggestions, this`loading
      ensures Valid()
      ensures Debounce() == Step(old(Debounce()), TimerFires)
      ensures debouncedQuery == old(debouncedQuery) ==>
        request == None && suggestions == old(suggestions) && loading == old(loading)
      ensures debouncedQuery != old(debouncedQuery) && IsBlank(debouncedQuery) ==>
        request == None && suggestions == [] && loading == old(loading)
      ensures debouncedQuery != old(debouncedQuery) && !IsBlank(debouncedQuery) ==>
        request == Some(debouncedQuery) && suggestions == old(suggestions) && loading
    {
      request := None;
      match pendingTimer {
        case None =>
        case Some(v) =>
          pendingTimer := None;
          if v != debouncedQuery {
            debouncedQuery := v;
            if TrimsToEmpty(v) {
              suggestions := [];
            } else {
              loading := true;
              request := Some(debouncedQuery);
            }
          }
      }
    }

    /** fetchSuggestions after its await: the response, or the throw the
        catch turns into no suggestions; loading ends either way. */
    method ReceiveSuggestions(resp: SearchResponse)
      requires Valid()
      modifies this`suggestions, this`loading
      ensures Valid()
      ensures suggestions == Suggestions(resp) && !loading
    {
      suggestions := Suggestions(resp);
      loading := false;
    }

    /** handleSearch: a non-blank input is handed on untrimmed and the
        suggestions close; a blank one does nothing. */
    method HandleSearch() returns (submitted: Option<string>)
      requires Valid()
      modifies this`suggestions
      ensures Valid()
      ensures submitted == if IsBlank(searchQuery) then None else Some(searchQuery)
      ensures submitted.Some? ==> suggestions == []
      ensures submitted.None? ==> suggestions == old(suggestions)
    {
      if !TrimsToEmpty(searchQuery) {
        submitted := Some(searchQuery);
        suggestions := [];
      } else {
        submitted := None;
      }
    }

    /** handleSelectMovie: the input and the suggestions clear, and the
        returned route is the movie's detail view. Clearing the input is an
        edit like any other, so it restarts the debounce timer when the input
        was not already empty. */
    method HandleSelectMovie(movie: Movie) returns (route: string)
      requires Valid()
      modifies this`searchQuery, this`pendingTimer, this`suggestions
      ensures Valid()
      ensures Debounce() == Step(old(Debounce()), Edit(""))
      ensures searchQuery == "" && suggestions == []
      ensures route == MovieRoute(movie.imdbID) && RouteId(route) == Some(Interpolate(movie.imdbID))
    {
      ChangeInput("");
      suggestions := [];
      route := MovieRoute(movie.imdbID);
    }
  }
}
