/** The weather tool `lookup_weather`: the API-key check, the request URL,
    the status check and the four-key result record. */
module Weather {
  import opened Calls
  import opened Text

  /** One entry of the payload's `weather` list. */
  datatype Condition = Condition(main: string, description: string)

  /** The decoded weather payload: `name`, `main.temp` (in kelvin) and `weather`. */
  datatype WeatherData = WeatherData(name: string, temperatureKelvin: real, weather: seq<Condition>)

  /** The dictionary the tool returns: an error record, or the weather report. */
  datatype WeatherResult =
    | ErrorRecord(error: string)
    | Report(location: string, temperatureCelsius: real, weatherMain: string, weatherReport: string)

  /** A value of the returned dictionary. */
  datatype JsonValue = JsonText(text: string) | JsonNumber(number: real)

  /** What `lookup_weather` does: the URL it fetched, if any, and its outcome. */
  datatype WeatherCall = WeatherCall(request: Option<string>, outcome: Outcome<WeatherResult>)

  const Endpoint := "https://api.openweathermap.org/data/2.5/weather?q="
  const MissingKeyText := "Missing API key"
  const FetchFailedText := "Failed to fetch weather data"
  /** The text of Python's `IndexError` for `[][0]`. */
  const IndexErrorText := "list index out of range"

  /** The `q` parameter: the city, with the country code after a comma when one is given. */
  function LocationQuery(cityName: string, countryCode: string): (q: string)
    ensures |cityName| <= |q| && q[..|cityName|] == cityName
    ensures countryCode == "" ==> |q| == |cityName|
    ensures countryCode != "" ==> q[|cityName|..] == "," + countryCode
  {
    if countryCode != "" then cityName + "," + countryCode else cityName
  }

  /** The request URL: the endpoint, the location query, then the key as `appid`. */
  function WeatherUrl(cityName: string, countryCode: string, apiKey: string): (url: string)
    ensures var q := LocationQuery(cityName, countryCode);
            && |Endpoint| + |q| <= |url|
            && url[..|Endpoint|] == Endpoint
            && url[|Endpoint|..|Endpoint| + |q|] == q
            && url[|Endpoint| + |q|..] == "&appid=" + apiKey
  {
    var q := LocationQuery(cityName, countryCode);
    var url := Endpoint + q + "&appid=" + apiKey;
    assert url == Endpoint + (q + ("&appid=" + apiKey));
    url
  }

  /** Whether the environment provided a usable key (`if not api_key` rejects `None` and `""`). */
  predicate HasKey(apiKey: Option<string>)
  {
    apiKey.Some? && apiKey.value != ""
  }

  /** `lookup_weather`, given the `WEATHER_API_KEY` environment value and the
      outcome of the GET on the URL it builds. */
  function LookupWeather(apiKey: Option<string>, cityName: string,
                         response: Fetch<HttpResponse<WeatherData>>, countryCode: string := ""): (r: WeatherCall)
    // no key: an error record, and no request at all
    ensures r.request.None? <==> !HasKey(apiKey)
    ensures !HasKey(apiKey) ==> r.outcome == Returns(ErrorRecord(MissingKeyText))
    ensures HasKey(apiKey) ==> r.request == Some(WeatherUrl(cityName, countryCode, apiKey.value))
    // the fetch error record exactly when the request was answered with a status other than 200
    ensures r.outcome == Returns(ErrorRecord(FetchFailedText)) <==>
              HasKey(apiKey) && response.Fetched? && response.value.status != 200
    // exceptions of the request, of decoding, and of an empty `weather` list are not caught
    ensures r.outcome.Propagates? <==>
              HasKey(apiKey) && (response.Raised? ||
                (response.value.status == 200 &&
                 (response.value.body.Raised? || |response.value.body.value.weather| == 0)))
    // the exception of the request or of decoding escapes unchanged
    ensures HasKey(apiKey) && response.Raised? ==> r.outcome == Propagates(response.error)
    ensures HasKey(apiKey) && response.Fetched? && response.value.status == 200 &&
            response.value.body.Raised? ==>
              r.outcome == Propagates(response.value.body.error)
    // `data["weather"][0]` on an empty list raises `IndexError`
    ensures HasKey(apiKey) && response.Fetched? && response.value.status == 200 &&
            response.value.body.Fetched? && |response.value.body.value.weather| == 0 ==>
              r.outcome == Propagates(OtherError(IndexErrorText))
    // a decoded 200 answer with a `weather` entry always gives the report
    ensures HasKey(apiKey) && response.Fetched? && response.value.status == 200 &&
            response.value.body.Fetched? && |response.value.body.value.weather| > 0 ==>
              var data := response.value.body.value;
              r.outcome == Returns(Report(data.name, data.temperatureKelvin - 273.15,
                                          data.weather[0].main, data.weather[0].description))
    // a report is built from `name`, `main.temp` and the first `weather` entry
    ensures r.outcome.Returns? && r.outcome.value.Report? ==>
              var data := response.value.body.value;
              && HasKey(apiKey) && response.value.status == 200 && |data.weather| > 0
              && r.outcome.value == Report(data.name, data.temperatureKelvin - 273.15,
                                           data.weather[0].main, data.weather[0].description)
  {
    if !HasKey(apiKey) then WeatherCall(None, Returns(ErrorRecord(MissingKeyText)))
    else
      var url := WeatherUrl(cityName, countryCode, apiKey.value);
      var outcome :=
        match response
        case Raised(e) => Propagates(e)
        case Fetched(resp) =>
          if resp.status != 200 then Returns(ErrorRecord(FetchFailedText))
          else
            match resp.body
            case Raised(e) => Propagates(e)
            case Fetched(data) =>
              if |data.weather| == 0 then Propagates(OtherError(IndexErrorText))
              else Returns(Report(data.name, data.temperatureKelvin - 273.15,
                                  data.weather[0].main, data.weather[0].description));
      WeatherCall(Some(url), outcome)
  }

  /** The dictionary a result stands for: an error record has the one key
      `error`, a report exactly the four keys of the report. */
  function AsDict(result: WeatherResult): (d: map<string, JsonValue>)
    ensures result.ErrorRecord? ==> d.Keys == {"error"} && d["error"] == JsonText(result.error)
    ensures result.Report? ==>
              && d.Keys == {"location", "temperature_celsius", "weather_main", "weather_report"}
              && d["location"] == JsonText(result.location)
              && d["temperature_celsius"] == JsonNumber(result.temperatureCelsius)
              && d["weather_main"] == JsonText(result.weatherMain)
              && d["weather_report"] == JsonText(result.weatherReport)
  {
    match result
    case ErrorRecord(e) => map["error" := JsonText(e)]
    case Report(location, temperature, main, report) =>
      map["location" := JsonText(location), "temperature_celsius" := JsonNumber(temperature),
          "weather_main" := JsonText(main), "weather_report" := JsonText(report)]
  }

  /** With a country code, the query splits at its comma into the city and the
      code (for a city and a code without commas of their own). */
  lemma QueryWithCountry(cityName: string, countryCode: string)
    requires countryCode != ""
    requires ',' !in cityName && ',' !in countryCode
    ensures Split(LocationQuery(cityName, countryCode), ',') == [cityName, countryCode]
  {
    assert LocationQuery(cityName, countryCode) == Join([cityName, countryCode], [',']);
    SplitJoin([cityName, countryCode], ',');
  }

  /** Without a country code, the query is the city alone: no comma is added. */
  lemma QueryWithoutCountry(cityName: string)
    requires ',' !in cityName
    ensures LocationQuery(cityName, "") == cityName
    ensures ',' !in LocationQuery(cityName, "")
    ensures Split(LocationQuery(cityName, ""), ',') == [cityName]
  {
    SplitWithoutSeparator(cityName, ',');
  }
}
