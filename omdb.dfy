/** Values exchanged with the OMDb catalog, shared by the three components:
    movie objects, search responses, per-id lookups, JavaScript's Number()
    on the reported total, Promise.all over lookups, and detail routes. */
module Omdb {

  datatype Option<T> = None | Some(value: T)

  /** A movie object as the catalog returns it. Every key of the JSON body
      may be absent, so every field is optional. Only the keys that the
      components read are kept. */
  datatype Movie = Movie(
    imdbID: Option<string>,
    title: Option<string>,
    year: Option<string>,
    poster: Option<string>,
    genre: Option<string>,
    imdbRating: Option<string>,
    response: Option<string>)

  /** The outcome of one title search: a body with Response "True", a body
      whose Response is anything else, or a fetch / res.json() that threw. */
  datatype SearchResponse =
    | Found(search: Option<seq<Movie>>, totalResults: string)
    | NotFound(error: Option<string>)
    | Thrown

  /** The outcome of one lookup by id: the parsed body, or a throw. */
  datatype Lookup = Fetched(body: Movie) | Threw

  /** `data.Search || []` */
  function OrEmpty(search: Option<seq<Movie>>): seq<Movie>
  {
    match search
    case Some(s) => s
    case None => []
  }

  /** `o || fallback` on an optional string: an absent or empty string is
      falsy, so the fallback is used for both. */
  function OrElse(o: Option<string>, fallback: string): (r: string)
    ensures o.Some? && o.value != "" ==> r == o.value
    ensures (o.None? || o.value == "") ==> r == fallback
    ensures fallback != "" ==> r != ""
  {
    if o.Some? && o.value != "" then o.value else fallback
  }

  /** A template literal `${o}`: an absent value prints as "undefined". */
  function Interpolate(o: Option<string>): string
  {
    match o
    case Some(v) => v
    case None => "undefined"
  }

  // ---------------------------------------------------------------------
  // JavaScript's Number() on the catalog's totalResults string

  /** A JavaScript number as far as the components see it. */
  datatype Number = Num(value: nat) | NaN

  predicate IsDigit(c: char) { '0' <= c <= '9' }

  predicate AllDigits(s: string) { forall i :: 0 <= i < |s| ==> IsDigit(s[i]) }

  function DigitValue(c: char): (d: nat)
    requires IsDigit(c)
    ensures d < 10
  {
    (c as int) - ('0' as int)
  }

  function DigitChar(d: nat): (c: char)
    requires d < 10
    ensures IsDigit(c) && DigitValue(c) == d
  {
    (('0' as int) + d) as char
  }

  /** The value of a string of decimal digits, most significant first. */
  function DigitsValue(s: string): nat
    requires AllDigits(s)
  {
    if s == [] then 0 else DigitsValue(s[..|s| - 1]) * 10 + DigitValue(s[|s| - 1])
  }

  /** Number(s): the empty string is 0, a decimal digit string is its value,
      anything else is NaN. */
  function ParseNumber(s: string): (n: Number)
    ensures n.Num? <==> AllDigits(s)
    ensures s == "" ==> n == Num(0)
  {
    if AllDigits(s) then Num(DigitsValue(s)) else NaN
  }

  /** `Number(s) || 0`: NaN is falsy and becomes 0. */
  function TotalOrZero(s: string): (n: nat)
    ensures !AllDigits(s) ==> n == 0
    ensures ParseNumber(s).Num? ==> n == ParseNumber(s).value
  {
    match ParseNumber(s)
    case Num(v) => v
    case NaN => 0
  }

  /** `${n}` for a natural number: decimal, no leading zeros. */
  function NatToString(n: nat): (s: string)
    ensures |s| >= 1 && AllDigits(s)
    ensures s[0] == '0' ==> n == 0
  {
    if n < 10 then [DigitChar(n)] else NatToString(n / 10) + [DigitChar(n % 10)]
  }

  /** Number(`${n}`) == n: printing a count and parsing it back round-trips. */
  lemma {:induction false} ParsePrinted(n: nat)
    ensures ParseNumber(NatToString(n)) == Num(n)
    ensures TotalOrZero(NatToString(n)) == n
  {
    var s := NatToString(n);
    if n >= 10 {
      var p := NatToString(n / 10);
      ParsePrinted(n / 10);
      assert s[..|s| - 1] == p;
      assert DigitsValue(s) == DigitsValue(p) * 10 + n % 10;
    }
  }

  // ---------------------------------------------------------------------
  // Promise.all over per-key lookups

  /** `Promise.all(keys.map(lookup))`, sequentially: the bodies in key
      order, or None as soon as one lookup threw. */
  function FetchAll<K>(keys: seq<K>, lookup: K -> Lookup): (r: Option<seq<Movie>>)
    ensures r.Some? <==> forall i :: 0 <= i < |keys| ==> lookup(keys[i]).Fetched?
    ensures r.Some? ==> |r.value| == |keys|
    ensures r.Some? ==> forall i :: 0 <= i < |keys| ==> r.value[i] == lookup(keys[i]).body
    decreases |keys|
  {
    if keys == [] then Some([])
    else
      match lookup(keys[0])
      case Threw => None
      case Fetched(m) =>
        match FetchAll(keys[1..], lookup)
        case None => None
        case Some(rest) => Some([m] + rest)
  }

  // ---------------------------------------------------------------------
  // Detail routes

  const MoviePrefix: string := "/movie/"

  /** `/movie/${imdbID}`: the route of a movie's detail view. */
  function MovieRoute(imdbID: Option<string>): (r: string)
    ensures |r| >= |MoviePrefix| && r[..|MoviePrefix|] == MoviePrefix
    ensures RouteId(r) == Some(Interpolate(imdbID))
  {
    MoviePrefix + Interpolate(imdbID)
  }

  /** The `[id]` segment of a detail route, if the path is one. */
  function RouteId(path: string): Option<string>
  {
    if |path| >= |MoviePrefix| && path[..|MoviePrefix|] == MoviePrefix
    then Some(path[|MoviePrefix|..])
    else None
  }
}
