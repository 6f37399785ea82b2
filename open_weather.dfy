/**
 * The decoded shape of an OpenWeatherMap 5-day / 3-hour forecast response,
 * the request the app issues for it, and the calendar abstractions the
 * aggregators take as parameters.  Temperatures are `real` (Swift `Double`).
 */
module OpenWeather {
  import opened Wrappers

  /** One element of a sample's `weather` array. */
  datatype Condition = Condition(id: int, main: string, description: string, icon: string)

  /** One 3-hour forecast entry: `dt`, `main.temp`, `main.tempMax`, `weather`. */
  datatype Sample = Sample(dt: int, temp: real, tempMax: real, weather: seq<Condition>)

  datatype ForecastResponse = ForecastResponse(list: seq<Sample>, cityName: string)

  /** OpenWeatherMap's `units` query parameter. */
  datatype Units = Standard | Metric | Imperial

  datatype Query =
    | ByCity(city: string, countryCode: Option<string>)
    | ByCoordinate(latitude: real, longitude: real)

  datatype Request = Request(query: Query, units: Units)

  /** What the network call produced; every thrown error is `FetchFailed`. */
  datatype FetchOutcome = Fetched(response: ForecastResponse) | FetchFailed

  /** `Calendar.component(.weekday, …)`: 1 is Sunday, 7 is Saturday. */
  type Weekday = w: int | 1 <= w <= 7 witness 1

  /** `weather.first`: the first condition of a sample, if any. */
  function FirstCondition(s: Sample): (c: Option<Condition>)
    ensures c.Some? <==> |s.weather| > 0
    ensures c.Some? ==> c.value == s.weather[0]
  {
    if |s.weather| == 0 then None else Some(s.weather[0])
  }
}
