/** `GET /api/weather` (app/api/weather/route.ts): pick the query, build the
    OpenWeather URL, and reshape the vendor's answer. Vendor failures are
    answered with status 200 and an `error` field, so that the page branches
    on the body rather than on the status. */
module WeatherApi {
  import opened Wrappers

  const BaseUrl: string := "https://api.openweathermap.org/data/2.5/weather?"
  const NotConfigured: string := "Weather service not configured"
  const MissingQuery: string := "Please provide either city name or coordinates"
  const CityNotFound: string := "City not found. Please check the spelling and try again."
  const FetchFailed: string := "Failed to fetch weather data"

  /** The `city`, `lat` and `lon` search parameters, `None` when absent. */
  datatype Query = Query(city: Option<string>, lat: Option<string>, lon: Option<string>)

  datatype Coordinates = Coordinates(lat: real, lon: real)
  datatype Conditions = Conditions(main: string, description: string, icon: string)

  /** The parts of OpenWeather's current-weather document the handler reads. */
  datatype OwmMain = OwmMain(temp: real, feelsLike: real, tempMin: real, tempMax: real, humidity: real, pressure: real)
  datatype OwmSys = OwmSys(country: string, sunrise: int, sunset: int)
  datatype OwmWind = OwmWind(speed: real, deg: real)
  datatype OwmCurrent = OwmCurrent(
    name: string, coord: Coordinates, sys: OwmSys, weather: seq<Conditions>, main: OwmMain,
    wind: OwmWind, cloudsAll: real, visibility: real, timezone: int)

  /** A vendor body that parsed as JSON object: its `message` field, and
      the document read as current weather. `current` is `None` when reading
      it throws a `TypeError`: one of the nested objects `sys`, `coord`,
      `main`, `wind`, `clouds` or `weather[0]` is missing. */
  datatype OwmJson = OwmJson(message: Option<string>, current: Option<OwmCurrent>)

  /** What `fetch(url)` did: threw, or answered with a status and a body
      (`None` when the body is not JSON). */
  datatype OwmOutcome = OwmThrew | OwmReplied(status: int, body: Option<OwmJson>)

  /** The flattened document the handler returns. */
  datatype Place = Place(name: string, country: string, coordinates: Coordinates)
  datatype Temperature = Temperature(current: int, feelsLike: int, min: int, max: int)
  datatype WeatherData = WeatherData(
    location: Place, weather: Conditions, temperature: Temperature,
    humidity: real, pressure: real, wind: OwmWind, clouds: real, visibility: real,
    sunrise: int, sunset: int, timezone: int)

  datatype WeatherBody = ErrorBody(error: string) | ReportBody(report: WeatherData)
  datatype WeatherResponse = WeatherResponse(status: int, body: WeatherBody)

  /** `Math.round` on exact numbers: the nearest integer, halves upward. */
  function JsRound(x: real): (r: int)
    ensures x - 0.5 < r as real <= x + 0.5
  {
    (x + 0.5).Floor
  }

  /** Lines 19-32: with a key configured, a non-empty city wins over the
      coordinates, which are used only when both are non-empty. Without a
      key nothing else is looked at. `encodeURIComponent` is `encode`. */
  function Plan(q: Query, apiKey: Option<string>, encode: string -> string): (s: Step<string, WeatherResponse>)
    ensures !Truthy(apiKey) ==> s == Respond(WeatherResponse(500, ErrorBody(NotConfigured)))
    ensures Truthy(apiKey) && Truthy(q.city) ==>
      s == Call(BaseUrl + "q=" + encode(q.city.value) + "&appid=" + apiKey.value + "&units=metric")
    ensures Truthy(apiKey) && !Truthy(q.city) && Truthy(q.lat) && Truthy(q.lon) ==>
      s == Call(BaseUrl + "lat=" + q.lat.value + "&lon=" + q.lon.value + "&appid=" + apiKey.value + "&units=metric")
    ensures s.Respond? ==> s.response.body.ErrorBody? && s.response.status in {400, 500}
    ensures s.Respond? && s.response.status == 400 <==>
      Truthy(apiKey) && !Truthy(q.city) && !(Truthy(q.lat) && Truthy(q.lon))
    ensures s.Respond? && s.response.status == 400 ==> s.response == WeatherResponse(400, ErrorBody(MissingQuery))
  {
    if !Truthy(apiKey) then Respond(WeatherResponse(500, ErrorBody(NotConfigured)))
    else
      if Truthy(q.city) then
        Call(BaseUrl + "q=" + encode(q.city.value) + "&appid=" + apiKey.value + "&units=metric")
      else if Truthy(q.lat) && Truthy(q.lon) then
        Call(BaseUrl + "lat=" + q.lat.value + "&lon=" + q.lon.value + "&appid=" + apiKey.value + "&units=metric")
      else Respond(WeatherResponse(400, ErrorBody(MissingQuery)))
  }

  /** Lines 52-83: temperatures rounded, `clouds` from `clouds.all`, the
      weather fields from the first array element, everything else (the
      visibility in metres included) passed through. */
  function Reshape(c: OwmCurrent): (d: WeatherData)
    requires |c.weather| > 0
    ensures d.location == Place(c.name, c.sys.country, c.coord)
    ensures d.weather == c.weather[0]
    ensures d.temperature.current as real - 0.5 <= c.main.temp < d.temperature.current as real + 0.5
    ensures d.temperature.feelsLike as real - 0.5 <= c.main.feelsLike < d.temperature.feelsLike as real + 0.5
    ensures d.temperature.min as real - 0.5 <= c.main.tempMin < d.temperature.min as real + 0.5
    ensures d.temperature.max as real - 0.5 <= c.main.tempMax < d.temperature.max as real + 0.5
    ensures d.humidity == c.main.humidity && d.pressure == c.main.pressure && d.visibility == c.visibility
    ensures d.wind == c.wind && d.clouds == c.cloudsAll
    ensures d.sunrise == c.sys.sunrise && d.sunset == c.sys.sunset && d.timezone == c.timezone
  {
    WeatherData(
      Place(c.name, c.sys.country, c.coord),
      c.weather[0],
      Temperature(JsRound(c.main.temp), JsRound(c.main.feelsLike), JsRound(c.main.tempMin), JsRound(c.main.tempMax)),
      c.main.humidity, c.main.pressure, c.wind, c.cloudsAll, c.visibility,
      c.sys.sunrise, c.sys.sunset, c.timezone)
  }

  /** Lines 34-90 after the request: a non-ok answer becomes status 200 with
      the vendor's message, else the 404 text, else the generic text; an
      exception (including an unparsable or incomplete body) becomes 500. */
  function Finish(o: OwmOutcome): (r: WeatherResponse)
    ensures o.OwmThrew? ==> r == WeatherResponse(500, ErrorBody(FetchFailed))
    ensures o.OwmReplied? && !IsOk(o.status) ==> r.status == 200 && r.body.ErrorBody?
    ensures o.OwmReplied? && !IsOk(o.status) && o.body.Some? && Truthy(o.body.value.message) ==>
      r.body.error == o.body.value.message.value
    ensures o.OwmReplied? && !IsOk(o.status) && (o.body.None? || !Truthy(o.body.value.message)) ==>
      r.body.error == (if o.status == 404 then CityNotFound else FetchFailed)
    ensures r.body.ReportBody? <==>
      o.OwmReplied? && IsOk(o.status) && o.body.Some? && o.body.value.current.Some?
      && |o.body.value.current.value.weather| > 0
    ensures r.body.ReportBody? ==> r.status == 200
    ensures r.body.ReportBody? ==> r.body.report == Reshape(o.body.value.current.value)
    ensures o.OwmReplied? && IsOk(o.status) && !r.body.ReportBody? ==> r == WeatherResponse(500, ErrorBody(FetchFailed))
    ensures r.status != 200 ==> r == WeatherResponse(500, ErrorBody(FetchFailed))
  {
    match o
    case OwmThrew => WeatherResponse(500, ErrorBody(FetchFailed))
    case OwmReplied(status, body) =>
      if !IsOk(status) then
        var message := if body.Some? then body.value.message else None;
        WeatherResponse(200, ErrorBody(
          if Truthy(message) then message.value
          else if status == 404 then CityNotFound
          else FetchFailed))
      else if body.None? || body.value.current.None? || |body.value.current.value.weather| == 0 then
        WeatherResponse(500, ErrorBody(FetchFailed))
      else
        WeatherResponse(200, ReportBody(Reshape(body.value.current.value)))
  }

  /** The whole handler; `vendor` answers the one request it makes. */
  function Get(q: Query, apiKey: Option<string>, encode: string -> string, vendor: string -> OwmOutcome): (r: WeatherResponse)
    ensures !Truthy(apiKey) ==> r == WeatherResponse(500, ErrorBody(NotConfigured))
    ensures Truthy(apiKey) && Truthy(q.city) ==>
      r == Finish(vendor(BaseUrl + "q=" + encode(q.city.value) + "&appid=" + apiKey.value + "&units=metric"))
    ensures Truthy(apiKey) && !Truthy(q.city) && Truthy(q.lat) && Truthy(q.lon) ==>
      r == Finish(vendor(BaseUrl + "lat=" + q.lat.value + "&lon=" + q.lon.value + "&appid=" + apiKey.value + "&units=metric"))
    ensures Truthy(apiKey) && !Truthy(q.city) && !(Truthy(q.lat) && Truthy(q.lon)) ==>
      r == WeatherResponse(400, ErrorBody(MissingQuery))
    ensures r.body.ReportBody? ==> Truthy(apiKey) && (Truthy(q.city) || (Truthy(q.lat) && Truthy(q.lon)))
  {
    match Plan(q, apiKey, encode)
    case Respond(r) => r
    case Call(url) => Finish(vendor(url))
  }

  /** Every error the handler answers with has a non-empty message, which
      is what lets the page test `data.error` for truthiness. */
  lemma ErrorsAreNonEmpty(q: Query, apiKey: Option<string>, encode: string -> string, vendor: string -> OwmOutcome)
    ensures Get(q, apiKey, encode, vendor).body.ErrorBody? ==> Get(q, apiKey, encode, vendor).body.error != ""
  {
  }

  /** The status is 200, 400 or 500; 400 only for a missing query and 500
      only for missing configuration or an exception. */
  lemma StatusCodes(q: Query, apiKey: Option<string>, encode: string -> string, vendor: string -> OwmOutcome)
    ensures var r := Get(q, apiKey, encode, vendor);
      && r.status in {200, 400, 500}
      && (r.status == 400 ==> r.body == ErrorBody(MissingQuery))
      && (r.status == 500 ==> r.body == ErrorBody(NotConfigured) || r.body == ErrorBody(FetchFailed))
  {
  }
}
