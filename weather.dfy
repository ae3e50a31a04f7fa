/**
 * Rainfall estimation of `WeatherFetcher`
 * (backend/api/src/data_fetch/weather.py), over the already parsed
 * OpenWeather responses: the 24-hour rainfall is the larger of the summed
 * 3-hour forecast values and the current hourly rate times 24, and a mock
 * value stands in when no key is configured or a request fails.
 */
module Weather {
  import opened Wrappers
  import opened Reals

  /** The value `OPENWEATHER_API_KEY` takes when the environment does not set it. */
  const WeatherPlaceholderKey := "YOUR_OPENWEATHER_API_KEY"

  /** A JSON object's optional `rain` member: a dictionary of amounts keyed "1h" or "3h". */
  type Rain = Option<map<string, real>>

  /** `data['rain'].get(key, 0)` when `'rain' in data`, and 0 otherwise. */
  function RainAmount(rain: Rain, key: string): (amount: real)
    ensures rain.None? ==> amount == 0.0
    ensures rain.Some? && key !in rain.value ==> amount == 0.0
    ensures rain.Some? && key in rain.value ==> amount == rain.value[key]
  {
    match rain
    case None => 0.0
    case Some(amounts) => if key in amounts then amounts[key] else 0.0
  }

  /** The parsed answers of the two requests, or the failure of either. */
  datatype Fetch = RequestFailed | Fetched(current: Rain, forecast: seq<Rain>)

  /** The sum of the forecast entries' 3-hour amounts. */
  function ForecastTotal(forecast: seq<Rain>): real {
    if forecast == [] then 0.0
    else ForecastTotal(forecast[..|forecast| - 1]) + RainAmount(forecast[|forecast| - 1], "3h")
  }

  /** An entry without rain, or without a 3-hour amount, adds nothing to the total. */
  lemma ForecastEntryWithoutAmount(forecast: seq<Rain>, entry: Rain)
    requires entry.None? || "3h" !in entry.value
    ensures ForecastTotal(forecast + [entry]) == ForecastTotal(forecast)
  {
    assert (forecast + [entry])[..|forecast|] == forecast;
  }

  /** Non-negative amounts give a non-negative total. */
  lemma {:induction false} ForecastTotalNonNegative(forecast: seq<Rain>)
    requires forall i :: 0 <= i < |forecast| ==> RainAmount(forecast[i], "3h") >= 0.0
    ensures ForecastTotal(forecast) >= 0.0
  {
    if forecast != [] {
      ForecastTotalNonNegative(forecast[..|forecast| - 1]);
    }
  }

  /**
   * `_get_mock_rainfall`: light (0-10 mm) with probability 0.7, moderate
   * (10-25 mm) with 0.2, heavy (25-50 mm) otherwise; `pick` and `u` are the
   * two `random.random()` draws.
   */
  function MockRainfall(pick: real, u: real): (rainfall: real)
    requires 0.0 <= pick < 1.0 && 0.0 <= u < 1.0
    ensures 0.0 <= rainfall < 50.0
    ensures pick < 0.7 ==> rainfall < 10.0
    ensures 0.7 <= pick < 0.9 ==> 10.0 <= rainfall < 25.0
    ensures 0.9 <= pick ==> 25.0 <= rainfall
  {
    if pick < 0.7 then 10.0 * u
    else if pick < 0.9 then 10.0 + 15.0 * u
    else 25.0 + 25.0 * u
  }

  /** The rainfall of a real answer: the forecast total or the extrapolated hourly rate, whichever is larger. */
  function MeasuredRainfall(current: Rain, forecast: seq<Rain>): (rainfall: real)
    ensures rainfall >= ForecastTotal(forecast)
    ensures rainfall >= RainAmount(current, "1h") * 24.0
    ensures rainfall == ForecastTotal(forecast) || rainfall == RainAmount(current, "1h") * 24.0
  {
    Max(ForecastTotal(forecast), RainAmount(current, "1h") * 24.0)
  }

  /**
   * `get_rainfall`: the mock for the placeholder key or a failed request,
   * the measured rainfall otherwise.
   */
  method GetRainfall(apiKey: string, fetch: Fetch, pick: real, u: real) returns (rainfall: real)
    requires 0.0 <= pick < 1.0 && 0.0 <= u < 1.0
    ensures apiKey == WeatherPlaceholderKey || fetch.RequestFailed? ==> rainfall == MockRainfall(pick, u)
    ensures apiKey != WeatherPlaceholderKey && fetch.Fetched? ==>
              rainfall == MeasuredRainfall(fetch.current, fetch.forecast)
  {
    if apiKey == WeatherPlaceholderKey {
      return MockRainfall(pick, u);
    }
    match fetch {
      case RequestFailed =>
        rainfall := MockRainfall(pick, u);
      case Fetched(current, forecast) =>
        var rainfall1h := RainAmount(current, "1h");
        var totalRainfall := 0.0;
        for i := 0 to |forecast|
          invariant totalRainfall == ForecastTotal(forecast[..i])
        {
          assert forecast[..i + 1][..i] == forecast[..i];
          totalRainfall := totalRainfall + RainAmount(forecast[i], "3h");
        }
        assert forecast[..|forecast|] == forecast;
        var extrapolated24h := rainfall1h * 24.0;
        rainfall := Max(totalRainfall, extrapolated24h);
    }
  }

  /** Non-negative readings give a non-negative rainfall, and so does the mock. */
  lemma RainfallNonNegative(apiKey: string, fetch: Fetch, pick: real, u: real)
    requires 0.0 <= pick < 1.0 && 0.0 <= u < 1.0
    requires fetch.Fetched? ==> RainAmount(fetch.current, "1h") >= 0.0
    requires fetch.Fetched? ==> forall i :: 0 <= i < |fetch.forecast| ==> RainAmount(fetch.forecast[i], "3h") >= 0.0
    ensures MockRainfall(pick, u) >= 0.0
    ensures fetch.Fetched? ==> MeasuredRainfall(fetch.current, fetch.forecast) >= 0.0
  {
    if fetch.Fetched? {
      ForecastTotalNonNegative(fetch.forecast);
    }
  }

  datatype RainLevel = Low | Medium | High | VeryHigh {
    function Name(): string {
      match this
      case Low => "LOW"
      case Medium => "MEDIUM"
      case High => "HIGH"
      case VeryHigh => "VERY_HIGH"
    }
  }

  /** The level of a 24-hour total: boundaries at 5, 15 and 30 mm, each belonging to the higher level. */
  function RainfallLevel(total: real): (level: RainLevel)
    ensures level == Low <==> total < 5.0
    ensures level == Medium <==> 5.0 <= total < 15.0
    ensures level == High <==> 15.0 <= total < 30.0
    ensures level == VeryHigh <==> 30.0 <= total
  {
    if total < 5.0 then Low
    else if total < 15.0 then Medium
    else if total < 30.0 then High
    else VeryHigh
  }

  /** The dictionary `get_rainfall_forecast` returns. */
  datatype RainfallForecast = RainfallForecast(
    totalRainfallMm: real,
    peakIntensityMmPerHour: real,
    forecastHours: int,
    riskLevel: RainLevel,
    confidence: string)

  /** The peak hourly intensity: a sixth of a positive total, zero otherwise. */
  function PeakIntensity(total: real): (peak: real)
    ensures total > 0.0 ==> peak * 6.0 == total && 0.0 < peak < total
    ensures total <= 0.0 ==> peak == 0.0
  {
    if total > 0.0 then total / 6.0 else 0.0
  }

  /**
   * `get_rainfall_forecast`: the rainfall `get_rainfall` finds, with its
   * peak intensity and level; `hours` is only echoed back.
   */
  method GetRainfallForecast(apiKey: string, fetch: Fetch, pick: real, u: real, hours: int)
    returns (forecast: RainfallForecast)
    requires 0.0 <= pick < 1.0 && 0.0 <= u < 1.0
    ensures apiKey == WeatherPlaceholderKey || fetch.RequestFailed? ==>
              forecast.totalRainfallMm == MockRainfall(pick, u)
    ensures apiKey != WeatherPlaceholderKey && fetch.Fetched? ==>
              forecast.totalRainfallMm == MeasuredRainfall(fetch.current, fetch.forecast)
    ensures forecast.peakIntensityMmPerHour == PeakIntensity(forecast.totalRainfallMm)
    ensures forecast.riskLevel == RainfallLevel(forecast.totalRainfallMm)
    ensures forecast.forecastHours == hours
    ensures forecast.confidence == "Medium"
  {
    var totalRainfall := GetRainfall(apiKey, fetch, pick, u);
    var peakIntensity := PeakIntensity(totalRainfall);
    var riskLevel := RainfallLevel(totalRainfall);
    forecast := RainfallForecast(totalRainfall, peakIntensity, hours, riskLevel, "Medium");
  }
}
