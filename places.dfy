/** The query side of `get_places`: the comma-separated location, the
    truncation of the results to the bound, and the boundary to the
    nearby-search service. */
module Places {
  import opened Outcomes
  import opened Numbers
  import opened Validation

  /** The nearby-search service as the server sees it. `search(location,
      radius)` gives the results of the HTTP request, or `None` when the
      request or the decoding of its JSON reply raises; `dumps(results)` is
      the reply serialised by `json.dumps` with `results` in place. */
  datatype PlacesApi = PlacesApi(
    search: (string, string) -> Option<seq<string>>,
    dumps: seq<string> -> string)

  /** Python's `xs[0:b]`: a negative `b` counts from the end. */
  function PrefixSlice<T>(xs: seq<T>, b: int): (r: seq<T>)
    ensures |r| <= |xs| && r == xs[..|r|]
    ensures 0 <= b ==> |r| == if b <= |xs| then b else |xs|
    ensures b < 0 ==> |r| == if |xs| + b >= 0 then |xs| + b else 0
  {
    if b >= 0 then (if b <= |xs| then xs[..b] else xs)
    else if |xs| + b >= 0 then xs[..|xs| + b]
    else []
  }

  /** The truncation of server.py:151-152. The results kept are always a
      prefix; a non-negative bound keeps at most `bound` of them; a negative
      bound, which `isValidWHATSAT` lets through, drops that many from the end. */
  function Truncate<T>(xs: seq<T>, bound: int): (r: seq<T>)
    ensures |r| <= |xs| && r == xs[..|r|]
    ensures 0 <= bound ==> |r| <= bound && (|xs| <= bound ==> r == xs)
    ensures bound < 0 ==> |r| == if |xs| + bound >= 0 then |xs| + bound else 0
  {
    if |xs| > bound then PrefixSlice(xs, bound) else xs
  }

  /** A non-negative bound below the number of results keeps exactly the
      first `bound` of them, as `[0:int(bound)]` does. */
  lemma TruncateKeepsFirst<T>(xs: seq<T>, bound: int)
    requires 0 <= bound < |xs|
    ensures Truncate(xs, bound) == xs[..bound]
  {
  }

  /** `location` with a comma inserted at the split of server.py:141-142. */
  function QueryLocation(location: string): Outcome<string>
  {
    match SplitIndex(location)
    case None => Raises
    case Some(i) => Returns(location[..i] + "," + location[i..])
  }

  /** `get_places(location, radius, bound)`; it raises where the split, the
      service call or `int(bound)` raises. */
  function GetPlaces(api: PlacesApi, num: Numerals, location: string, radius: string, bound: string): Outcome<string>
  {
    match QueryLocation(location)
    case Raises => Raises
    case Returns(query) =>
      match api.search(query, radius)
      case None => Raises
      case Some(results) =>
        match num.parseInt(bound)
        case None => Raises
        case Some(b) => Returns(api.dumps(Truncate(results, b)))
  }

  /** The location sent to the service is the two halves of the stored
      coordinate with a comma between them. */
  lemma QueryLocationOfPair(lat: string, lon: string)
    requires IsSignedHalf(lat) && IsSignedHalf(lon)
    ensures QueryLocation(lat + lon) == Returns(lat + "," + lon)
  {
    SplitIndexOfPair(lat, lon);
    assert (lat + lon)[..|lat|] == lat;
    assert (lat + lon)[|lat|..] == lon;
  }
}
