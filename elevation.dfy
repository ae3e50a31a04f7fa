/**
 * Slope estimation of `ElevationFetcher`
 * (backend/api/src/data_fetch/elevation.py): three elevations give a slope
 * percentage, the percentage a category, and each elevation comes from a
 * chain of sources (Google when a key is configured, then OpenTopoData,
 * then a coordinate-based mock). The HTTP responses, the trigonometric part
 * of the mock and the random fallback slope are parameters.
 */
module Elevation {
  import opened Wrappers
  import opened Reals

  /** The value `GOOGLE_ELEVATION_API_KEY` takes when the environment does not set it. */
  const GooglePlaceholderKey := "YOUR_GOOGLE_ELEVATION_API_KEY"

  /** Metres covered by 0.001 degrees, as the code approximates it. */
  const Distance: real := 111.0

  /** The slope, in percent, from the centre elevation and its northern and eastern neighbours. */
  function SlopePercentage(center: real, north: real, east: real): (slope: real)
    ensures slope >= Abs(north - center) / Distance * 100.0
    ensures slope >= Abs(east - center) / Distance * 100.0
    ensures slope == Abs(north - center) / Distance * 100.0 || slope == Abs(east - center) / Distance * 100.0
  {
    var slopeNorth := Abs(north - center) / Distance;
    var slopeEast := Abs(east - center) / Distance;
    Max(slopeNorth, slopeEast) * 100.0
  }

  /** The slope is never negative, and it is zero exactly on flat ground. */
  lemma SlopeZeroIffFlat(center: real, north: real, east: real)
    ensures SlopePercentage(center, north, east) >= 0.0
    ensures SlopePercentage(center, north, east) == 0.0 <==> north == center && east == center
  {
    var slope := SlopePercentage(center, north, east);
    if slope == 0.0 {
      assert Abs(north - center) / Distance * 100.0 <= 0.0;
      assert Abs(east - center) / Distance * 100.0 <= 0.0;
    }
  }

  /** `np.random.uniform(0.5, 5.0)`, given the underlying uniform draw `u` in [0, 1). */
  function MockSlope(u: real): (slope: real)
    requires 0.0 <= u < 1.0
    ensures 0.5 <= slope < 5.0
  {
    0.5 + (5.0 - 0.5) * u
  }

  /**
   * `get_slope`: the slope from the three elevations, or the random mock
   * slope when any of them is unavailable.
   */
  function GetSlope(center: Option<real>, north: Option<real>, east: Option<real>, u: real): (slope: real)
    requires 0.0 <= u < 1.0
    ensures (center.None? || north.None? || east.None?) ==> 0.5 <= slope < 5.0
    ensures center.Some? && north.Some? && east.Some? ==>
              slope == SlopePercentage(center.value, north.value, east.value)
    ensures slope >= 0.0
  {
    if center.None? || north.None? || east.None? then MockSlope(u)
    else
      SlopeZeroIffFlat(center.value, north.value, east.value);
      SlopePercentage(center.value, north.value, east.value)
  }

  datatype SlopeCategory = VeryFlat | Gentle | Moderate | Steep | VerySteep {
    function Name(): string {
      match this
      case VeryFlat => "Very Flat"
      case Gentle => "Gentle"
      case Moderate => "Moderate"
      case Steep => "Steep"
      case VerySteep => "Very Steep"
    }

    /** Position from flattest to steepest. */
    function Rank(): nat {
      match this
      case VeryFlat => 0
      case Gentle => 1
      case Moderate => 2
      case Steep => 3
      case VerySteep => 4
    }
  }

  /** The category of a slope percentage: boundaries at 2, 5, 10 and 20, each belonging to the steeper side. */
  function Categorize(slope: real): (c: SlopeCategory)
    ensures c == VeryFlat <==> slope < 2.0
    ensures c == Gentle <==> 2.0 <= slope < 5.0
    ensures c == Moderate <==> 5.0 <= slope < 10.0
    ensures c == Steep <==> 10.0 <= slope < 20.0
    ensures c == VerySteep <==> 20.0 <= slope
  {
    if slope < 2.0 then VeryFlat
    else if slope < 5.0 then Gentle
    else if slope < 10.0 then Moderate
    else if slope < 20.0 then Steep
    else VerySteep
  }

  /** A steeper slope never gets a flatter category. */
  lemma CategorizeMonotone(a: real, b: real)
    requires a <= b
    ensures Categorize(a).Rank() <= Categorize(b).Rank()
  {
  }

  /**
   * `calculate_slope`: the slope `get_slope` finds, returned unchanged
   * together with its category.
   */
  function CalculateSlope(center: Option<real>, north: Option<real>, east: Option<real>, u: real): (r: (real, SlopeCategory))
    requires 0.0 <= u < 1.0
    ensures r.0 == GetSlope(center, north, east, u)
    ensures r.1 == Categorize(r.0)
    ensures (center.None? || north.None? || east.None?) ==> r.1 == VeryFlat || r.1 == Gentle
  {
    var slopePct := GetSlope(center, north, east, u);
    (slopePct, Categorize(slopePct))
  }

  // ---------------------------------------------------------------------------
  // The elevation source chain

  /**
   * A parsed elevation response: the request raised, or it answered with a
   * status and the `elevation` of each result (`None` for a JSON null).
   */
  datatype Response = RequestFailed | Answer(status: string, results: seq<Option<real>>)

  /** The first result's elevation when the response is OK and has results. */
  function FirstElevation(response: Response): (e: Option<real>)
    ensures e.Some? ==> response.Answer? && response.status == "OK" && response.results != []
                        && response.results[0] == e
    ensures response.Answer? && response.status == "OK" && response.results != [] ==> e == response.results[0]
  {
    match response
    case RequestFailed => None
    case Answer(status, results) => if status == "OK" && results != [] then results[0] else None
  }

  /** `_get_google_elevation`: the first elevation, or `None` on any failure. */
  function GoogleElevation(response: Response): (e: Option<real>)
    ensures response.RequestFailed? ==> e == None
    ensures e == FirstElevation(response)
  {
    match response
    case RequestFailed => None
    case Answer(_, _) => FirstElevation(response)
  }

  /**
   * `_get_mock_elevation`: `max(0, base + noise)` with the noise
   * `hash(...) % 100 - 50`; `base` stands for the trigonometric term and
   * `hashValue` for Python's string hash (Python's `%` by a positive number
   * is never negative, like Dafny's).
   */
  function MockElevation(base: real, hashValue: int): (e: real)
    ensures e >= 0.0
    ensures e >= base - 50.0 && (e == 0.0 || e <= base + 49.0)
  {
    var noise := hashValue % 100 - 50;
    Max(0.0, base + noise as real)
  }

  /** `_get_free_elevation`: the first elevation when there is one, the mock otherwise. */
  function FreeElevation(response: Response, mock: real): (e: real)
    ensures FirstElevation(response).Some? ==> e == FirstElevation(response).value
    ensures FirstElevation(response).None? ==> e == mock
  {
    match FirstElevation(response)
    case Some(elevation) => elevation
    case None => mock
  }

  /**
   * `_get_elevation`: Google first when a real key is configured, falling
   * back to the free service when Google has no value.
   */
  function ResolveElevation(apiKey: string, google: Response, free: Response, base: real, hashValue: int)
    : (e: Option<real>)
    ensures apiKey == GooglePlaceholderKey ==> e == Some(FreeElevation(free, MockElevation(base, hashValue)))
    ensures apiKey != GooglePlaceholderKey && GoogleElevation(google).Some? ==> e == GoogleElevation(google)
    ensures apiKey != GooglePlaceholderKey && GoogleElevation(google).None? ==>
              e == Some(FreeElevation(free, MockElevation(base, hashValue)))
  {
    var fromGoogle := if apiKey != GooglePlaceholderKey then GoogleElevation(google) else None;
    if fromGoogle.Some? then fromGoogle
    else Some(FreeElevation(free, MockElevation(base, hashValue)))
  }

  /** An elevation is always available: the chain ends in the mock, which never fails. */
  lemma ElevationAlwaysAvailable(apiKey: string, google: Response, free: Response, base: real, hashValue: int)
    ensures ResolveElevation(apiKey, google, free, base, hashValue).Some?
    ensures FirstElevation(free).None? && (apiKey == GooglePlaceholderKey || GoogleElevation(google).None?) ==>
              ResolveElevation(apiKey, google, free, base, hashValue).value >= 0.0
  {
  }

  /**
   * Since every elevation is available, `get_slope` always takes the
   * computed branch and never the random one.
   */
  lemma SlopeNeverMocked(
    apiKey: string,
    googleC: Response, freeC: Response, baseC: real, hashC: int,
    googleN: Response, freeN: Response, baseN: real, hashN: int,
    googleE: Response, freeE: Response, baseE: real, hashE: int,
    u: real)
    requires 0.0 <= u < 1.0
    ensures
      var c := ResolveElevation(apiKey, googleC, freeC, baseC, hashC);
      var n := ResolveElevation(apiKey, googleN, freeN, baseN, hashN);
      var e := ResolveElevation(apiKey, googleE, freeE, baseE, hashE);
      GetSlope(c, n, e, u) == SlopePercentage(c.value, n.value, e.value)
  {
    ElevationAlwaysAvailable(apiKey, googleC, freeC, baseC, hashC);
    ElevationAlwaysAvailable(apiKey, googleN, freeN, baseN, hashN);
    ElevationAlwaysAvailable(apiKey, googleE, freeE, baseE, hashE);
  }
}
