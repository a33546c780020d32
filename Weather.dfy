/** The weather plugin's data model and its three providers
    (plugins/weather/weather.cpp): symbol and weather-code mapping, result
    shaping of each provider's decoded response, and the choice of request.
    The HTTP requests and the JSON decoding behind them are the functions of
    an Api value. */
module Weather {
  import opened Common

  /** Declared order OpenWeatherMap, OpenMeteo, MetNo (ordinals 0, 1, 2). */
  datatype Provider = OpenWeatherMap | OpenMeteo | MetNo

  /** static_cast<Provider> of an underlying value that names an enumerator. */
  function ProviderFromOrdinal(n: nat): (p: Provider)
    requires n < 3
    ensures ProviderOrdinal(p) == n
  {
    if n == 0 then OpenWeatherMap else if n == 1 then OpenMeteo else MetNo
  }

  function ProviderOrdinal(p: Provider): nat {
    match p
    case OpenWeatherMap => 0
    case OpenMeteo => 1
    case MetNo => 2
  }

  datatype UnitSystem = Metric | Imperial

  function UnitSystemFromOrdinal(n: nat): (u: UnitSystem)
    requires n < 2
    ensures (u == Metric) <==> n == 0
  {
    if n == 0 then Metric else Imperial
  }

  datatype Coords = Coords(lat: real, lon: real)

  datatype WeatherData = WeatherData(
    temperature: Option<real>,
    description: Option<string>,
    location: Option<string>,
    units: UnitSystem)

  const NoWeatherData := WeatherData(None, None, None, Metric)

  /** The runtime configuration; absent coordinates, city and key are None. */
  datatype WeatherConfig = WeatherConfig(
    enabled: bool,
    provider: Provider,
    units: UnitSystem,
    coords: Option<Coords>,
    city: Option<string>,
    apiKey: Option<string>)

  const DefaultWeatherConfig := WeatherConfig(false, OpenMeteo, Metric, None, None, None)

  // ---------------------------------------------------------------------
  // Met.no
  // ---------------------------------------------------------------------

  /** Time-of-day suffixes of Met.no symbol codes, in the order they are tried. */
  const SUFFIXES: seq<string> := ["_day", "_night", "_polartwilight"]

  /** The symbol with the first suffix of `suffixes` that applies removed; a
      suffix applies when the symbol ends with it and is strictly longer. */
  function StripFirst(symbol: string, suffixes: seq<string>): string
    decreases |suffixes|
  {
    if suffixes == [] then symbol
    else if |symbol| > |suffixes[0]| && EndsWith(symbol, suffixes[0]) then symbol[..|symbol| - |suffixes[0]|]
    else StripFirst(symbol, suffixes[1..])
  }

  predicate SuffixApplies(symbol: string, suffix: string) {
    |symbol| > |suffix| && EndsWith(symbol, suffix)
  }

  /** The loop over SUFFIXES with its early return. */
  method StripTimeOfDayFromSymbol(symbol: string) returns (r: string)
    ensures r == StripFirst(symbol, SUFFIXES)
  {
    var i := 0;
    while i < |SUFFIXES|
      invariant 0 <= i <= |SUFFIXES|
      invariant StripFirst(symbol, SUFFIXES[i..]) == StripFirst(symbol, SUFFIXES)
    {
      var suffix := SUFFIXES[i];
      if |symbol| > |suffix| && EndsWith(symbol, suffix) {
        return symbol[..|symbol| - |suffix|];
      }
      assert SUFFIXES[i..][1..] == SUFFIXES[i + 1..];
      i := i + 1;
    }
    r := symbol;
  }

  /** Stripping either leaves the symbol alone or removes exactly one suffix
      that applies, leaving a non-empty stem. */
  lemma {:induction false} StripFirstShape(symbol: string, suffixes: seq<string>)
    ensures var r := StripFirst(symbol, suffixes);
      || r == symbol
      || exists k :: 0 <= k < |suffixes| && SuffixApplies(symbol, suffixes[k]) && |r| > 0 && r + suffixes[k] == symbol
    decreases |suffixes|
  {
    var r := StripFirst(symbol, suffixes);
    if suffixes == [] {
    } else if SuffixApplies(symbol, suffixes[0]) {
      assert r + suffixes[0] == symbol;
    } else {
      StripFirstShape(symbol, suffixes[1..]);
      if r != symbol {
        var k :| 0 <= k < |suffixes[1..]| && SuffixApplies(symbol, suffixes[1..][k]) && |r| > 0 && r + suffixes[1..][k] == symbol;
        assert suffixes[k + 1] == suffixes[1..][k];
      }
    }
  }

  /** A symbol no suffix applies to is returned unchanged. */
  lemma {:induction false} StripFirstKeepsUnsuffixed(symbol: string, suffixes: seq<string>)
    requires forall k :: 0 <= k < |suffixes| ==> !SuffixApplies(symbol, suffixes[k])
    ensures StripFirst(symbol, suffixes) == symbol
    decreases |suffixes|
  {
    if suffixes != [] {
      assert !SuffixApplies(symbol, suffixes[0]);
      forall k | 0 <= k < |suffixes[1..]|
        ensures !SuffixApplies(symbol, suffixes[1..][k])
      {
        assert suffixes[1..][k] == suffixes[k + 1];
      }
      StripFirstKeepsUnsuffixed(symbol, suffixes[1..]);
    }
  }

  /** The stripped symbol is empty exactly when the symbol is. */
  lemma StrippedEmptyIffEmpty(symbol: string)
    ensures StripFirst(symbol, SUFFIXES) == "" <==> symbol == ""
  {
    StripFirstShape(symbol, SUFFIXES);
  }

  lemma StripDay(stem: string)
    requires stem != ""
    ensures StripFirst(stem + "_day", SUFFIXES) == stem
  {
    var s := stem + "_day";
    assert s[|s| - 4..] == "_day";
    assert s[..|s| - 4] == stem;
  }

  lemma StripNight(stem: string)
    requires stem != ""
    ensures StripFirst(stem + "_night", SUFFIXES) == stem
  {
    var s := stem + "_night";
    assert s[|s| - 1] == 't';
    assert !EndsWith(s, "_day");
    assert s[|s| - 6..] == "_night";
    assert s[..|s| - 6] == stem;
  }

  lemma StripPolarTwilight(stem: string)
    requires stem != ""
    ensures StripFirst(stem + "_polartwilight", SUFFIXES) == stem
  {
    var s := stem + "_polartwilight";
    assert s[|s| - 1] == 't';
    assert !EndsWith(s, "_day");
    assert s[|s| - 6] == 'i';
    assert !EndsWith(s, "_night");
    assert s[|s| - 14..] == "_polartwilight";
    assert s[..|s| - 14] == stem;
  }

  /** A bare suffix is not stripped: the symbol must be strictly longer. */
  lemma BareSuffixKept()
    ensures StripFirst("_day", SUFFIXES) == "_day"
    ensures StripFirst("_night", SUFFIXES) == "_night"
    ensures StripFirst("_polartwilight", SUFFIXES) == "_polartwilight"
  {
    assert "_night"[|"_night"| - 4..] != "_day";
    assert "_polartwilight"[|"_polartwilight"| - 4..] != "_day";
    assert "_polartwilight"[|"_polartwilight"| - 6..] != "_night";
  }

  /** Met.no symbol codes (time of day removed) and their descriptions. */
  const METNO_SYMBOLS: map<string, string> := map[
    "clearsky" := "clear sky",
    "fair" := "fair",
    "partlycloudy" := "partly cloudy",
    "cloudy" := "cloudy",
    "fog" := "fog",
    "lightrain" := "light rain",
    "lightrainshowers" := "light rain showers",
    "lightrainandthunder" := "light rain and thunder",
    "rain" := "rain",
    "rainshowers" := "rain showers",
    "rainandthunder" := "rain and thunder",
    "heavyrain" := "heavy rain",
    "heavyrainshowers" := "heavy rain showers",
    "heavyrainandthunder" := "heavy rain and thunder",
    "lightsleet" := "light sleet",
    "lightsleetshowers" := "light sleet showers",
    "lightsleetandthunder" := "light sleet and thunder",
    "sleet" := "sleet",
    "sleetshowers" := "sleet showers",
    "sleetandthunder" := "sleet and thunder",
    "heavysleet" := "heavy sleet",
    "heavysleetshowers" := "heavy sleet showers",
    "heavysleetandthunder" := "heavy sleet and thunder",
    "lightsnow" := "light snow",
    "lightsnowshowers" := "light snow showers",
    "lightsnowandthunder" := "light snow and thunder",
    "snow" := "snow",
    "snowshowers" := "snow showers",
    "snowandthunder" := "snow and thunder",
    "heavysnow" := "heavy snow",
    "heavysnowshowers" := "heavy snow showers",
    "heavysnowandthunder" := "heavy snow and thunder"
  ]

  lemma MetnoSymbolTextsNonEmpty()
    ensures forall k :: k in METNO_SYMBOLS ==> METNO_SYMBOLS[k] != ""
  {
  }

  /** The description for the next hour's symbol: the table's text for a known
      stripped symbol, the stripped symbol itself otherwise; empty becomes absent. */
  function MetnoDescription(next1Hours: Option<string>): Option<string> {
    var description :=
      match next1Hours
      case None => ""
      case Some(symbol) =>
        var stripped := StripFirst(symbol, SUFFIXES);
        if stripped in METNO_SYMBOLS then METNO_SYMBOLS[stripped] else stripped;
    if description == "" then None else Some(description)
  }

  /** The description is absent exactly when there is no next-hour summary or its symbol is empty. */
  lemma MetnoDescriptionAbsence(next1Hours: Option<string>)
    ensures MetnoDescription(next1Hours).None? <==> next1Hours.None? || next1Hours.value == ""
  {
    if next1Hours.Some? {
      StrippedEmptyIffEmpty(next1Hours.value);
      MetnoSymbolTextsNonEmpty();
    }
  }

  lemma MetnoKnownSymbol(symbol: string)
    requires StripFirst(symbol, SUFFIXES) in METNO_SYMBOLS
    ensures MetnoDescription(Some(symbol)) == Some(METNO_SYMBOLS[StripFirst(symbol, SUFFIXES)])
  {
    MetnoSymbolTextsNonEmpty();
  }

  lemma MetnoUnknownSymbolPassesThrough(symbol: string)
    requires StripFirst(symbol, SUFFIXES) !in METNO_SYMBOLS
    ensures symbol != "" ==> MetnoDescription(Some(symbol)) == Some(StripFirst(symbol, SUFFIXES))
  {
    StrippedEmptyIffEmpty(symbol);
  }

  lemma MetnoDescriptionNightExample()
    ensures MetnoDescription(Some("lightrainshowers_night")) == Some("light rain showers")
  {
    assert "lightrainshowers" + "_night" == "lightrainshowers_night";
    StripNight("lightrainshowers");
    MetnoKnownSymbol("lightrainshowers_night");
  }

  lemma MetnoDescriptionPolarTwilightExample()
    ensures MetnoDescription(Some("partlycloudy_polartwilight")) == Some("partly cloudy")
  {
    assert "partlycloudy" + "_polartwilight" == "partlycloudy_polartwilight";
    StripPolarTwilight("partlycloudy");
    MetnoKnownSymbol("partlycloudy_polartwilight");
  }

  /** One entry of the decoded Met.no timeseries. */
  datatype MetnoStep = MetnoStep(airTemperature: real, next1Hours: Option<string>)

  /** The report built from a decoded Met.no response. */
  function MetnoReport(timeseries: seq<MetnoStep>, units: UnitSystem): Result<WeatherData> {
    if timeseries == [] then Err(Error(ParseError, "No timeseries data in met.no response"))
    else
      var first := timeseries[0];
      var temp := if units == Imperial then first.airTemperature * 9.0 / 5.0 + 32.0 else first.airTemperature;
      Ok(WeatherData(Some(temp), MetnoDescription(first.next1Hours), None, units))
  }

  /** Only the first step is read; Fahrenheit is derived from Celsius. */
  lemma MetnoReportUsesFirstStep(timeseries: seq<MetnoStep>, units: UnitSystem)
    ensures MetnoReport(timeseries, units).Err? <==> timeseries == []
    ensures timeseries != [] ==>
      var d := MetnoReport(timeseries, units).value;
      && d.description == MetnoDescription(timeseries[0].next1Hours)
      && d.location.None? && d.units == units
      && (units == Metric ==> d.temperature == Some(timeseries[0].airTemperature))
      && (units == Imperial ==> (d.temperature.value - 32.0) * 5.0 / 9.0 == timeseries[0].airTemperature)
  {
  }

  // ---------------------------------------------------------------------
  // Open-Meteo
  // ---------------------------------------------------------------------

  /** Text for a WMO weather interpretation code. */
  function OpenmeteoDescription(code: int): string {
    if code == 0 then "clear sky"
    else if code == 1 then "mainly clear"
    else if code == 2 then "partly cloudy"
    else if code == 3 then "overcast"
    else if code == 45 || code == 48 then "fog"
    else if 51 <= code <= 55 then "drizzle"
    else if code == 56 || code == 57 then "freezing drizzle"
    else if 61 <= code <= 65 then "rain"
    else if code == 66 || code == 67 then "freezing rain"
    else if 71 <= code <= 75 then "snow fall"
    else if code == 77 then "snow grains"
    else if 80 <= code <= 82 then "rain showers"
    else if code == 85 || code == 86 then "snow showers"
    else if code == 95 then "thunderstorm"
    else if 96 <= code <= 99 then "thunderstorm with hail"
    else "unknown"
  }

  /** The same mapping written out code by code. */
  const WMO_CODES: map<int, string> := map[
    0 := "clear sky", 1 := "mainly clear", 2 := "partly cloudy", 3 := "overcast",
    45 := "fog", 48 := "fog",
    51 := "drizzle", 52 := "drizzle", 53 := "drizzle", 54 := "drizzle", 55 := "drizzle",
    56 := "freezing drizzle", 57 := "freezing drizzle",
    61 := "rain", 62 := "rain", 63 := "rain", 64 := "rain", 65 := "rain",
    66 := "freezing rain", 67 := "freezing rain",
    71 := "snow fall", 72 := "snow fall", 73 := "snow fall", 74 := "snow fall", 75 := "snow fall",
    77 := "snow grains",
    80 := "rain showers", 81 := "rain showers", 82 := "rain showers",
    85 := "snow showers", 86 := "snow showers",
    95 := "thunderstorm",
    96 := "thunderstorm with hail", 97 := "thunderstorm with hail",
    98 := "thunderstorm with hail", 99 := "thunderstorm with hail"
  ]

  /** Every listed code gets its table text and every other code "unknown". */
  lemma OpenmeteoDescriptionMatchesTable(code: int)
    ensures code in WMO_CODES ==> OpenmeteoDescription(code) == WMO_CODES[code]
    ensures code !in WMO_CODES ==> OpenmeteoDescription(code) == "unknown"
  {
  }

  /** The decoded current_weather object of an Open-Meteo response. */
  datatype OpenMeteoCurrent = OpenMeteoCurrent(temperature: real, weathercode: int)

  function OpenMeteoReport(current: OpenMeteoCurrent, units: UnitSystem): (r: WeatherData)
    ensures r.temperature == Some(current.temperature)
    ensures r.description == Some(OpenmeteoDescription(current.weathercode))
    ensures r.location.None? && r.units == units
  {
    WeatherData(Some(current.temperature), Some(OpenmeteoDescription(current.weathercode)), None, units)
  }

  // ---------------------------------------------------------------------
  // OpenWeatherMap
  // ---------------------------------------------------------------------

  /** The decoded OpenWeatherMap response: the descriptions of its `weather`
      list, in order, stand for the list. */
  datatype OwmResponse = OwmResponse(
    cod: Option<int>,
    message: Option<string>,
    temp: real,
    weather: seq<string>,
    name: string)

  /** 401 and 404 have their own codes; 429 and everything else is ApiUnavailable. */
  function OwmErrorCode(cod: int): (c: ErrorCode)
    ensures c == PermissionDenied <==> cod == 401
    ensures c == NotFound <==> cod == 404
    ensures c != PermissionDenied && c != NotFound ==> c == ApiUnavailable
  {
    if cod == 401 then PermissionDenied
    else if cod == 404 then NotFound
    else ApiUnavailable
  }

  function OwmErrorMessage(cod: int, message: Option<string>): string {
    "OpenWeatherMap API error" +
      if message.Some? && message.value != "" then " (" + IntToString(cod) + "): " + message.value
      else " (Code: " + IntToString(cod) + ")"
  }

  /** The report built from a decoded response, or the API error it carries. */
  function OwmReport(resp: OwmResponse): Result<WeatherData> {
    if resp.cod.Some? && resp.cod.value != 200 then
      Err(Error(OwmErrorCode(resp.cod.value), OwmErrorMessage(resp.cod.value, resp.message)))
    else
      Ok(WeatherData(
        Some(resp.temp),
        if resp.weather != [] then Some(resp.weather[0]) else None,
        if resp.name == "" then None else Some(resp.name),
        Metric))
  }

  /** A response fails exactly when it carries a status other than 200, with
      the status's error code and a message naming the API and the status. */
  lemma OwmReportErrors(resp: OwmResponse)
    ensures OwmReport(resp).Err? <==> resp.cod.Some? && resp.cod.value != 200
    ensures OwmReport(resp).Err? ==>
      && OwmReport(resp).error.code == OwmErrorCode(resp.cod.value)
      && StartsWith(OwmReport(resp).error.message, "OpenWeatherMap API error")
      && (resp.message.Some? && resp.message.value != "" ==> EndsWith(OwmReport(resp).error.message, resp.message.value))
  {
    if resp.cod.Some? && resp.cod.value != 200 {
      var m := OwmErrorMessage(resp.cod.value, resp.message);
      assert m[..|"OpenWeatherMap API error"|] == "OpenWeatherMap API error";
      if resp.message.Some? && resp.message.value != "" {
        assert m[|m| - |resp.message.value|..] == resp.message.value;
      }
    }
  }

  lemma OwmReportSuccess(resp: OwmResponse)
    requires resp.cod.None? || resp.cod.value == 200
    ensures OwmReport(resp).Ok?
    ensures var d := OwmReport(resp).value;
      && d.temperature == Some(resp.temp)
      && (resp.weather == [] ==> d.description.None?)
      && (resp.weather != [] ==> d.description == Some(resp.weather[0]))
      && (d.location.None? <==> resp.name == "")
      && (d.location.Some? ==> d.location.value == resp.name)
  {
  }

  /** Which OpenWeatherMap query a provider sends. */
  datatype OwmQuery = ByCity(city: string) | ByCoords(coords: Coords)

  /** The city is preferred to the coordinates; with neither there is no query. */
  function OwmQueryFor(city: Option<string>, coords: Option<Coords>): Result<OwmQuery> {
    if city.Some? then Ok(ByCity(city.value))
    else if coords.Some? then Ok(ByCoords(coords.value))
    else Err(Error(InvalidArgument, "No location (city or coordinates) provided for OpenWeatherMap"))
  }

  lemma OwmQueryPrefersCity(city: Option<string>, coords: Option<Coords>)
    ensures city.Some? ==> OwmQueryFor(city, coords) == Ok(ByCity(city.value))
    ensures city.None? && coords.Some? ==> OwmQueryFor(city, coords) == Ok(ByCoords(coords.value))
    ensures OwmQueryFor(city, coords).Err? <==> city.None? && coords.None?
    ensures OwmQueryFor(city, coords).Err? ==> OwmQueryFor(city, coords).error.code == InvalidArgument
  {
  }

  // ---------------------------------------------------------------------
  // Providers
  // ---------------------------------------------------------------------

  /** A constructed provider and the settings it was built with. */
  datatype WeatherProvider =
    | OpenMeteoProvider(lat: real, lon: real, units: UnitSystem)
    | MetNoProvider(lat: real, lon: real, units: UnitSystem)
    | OpenWeatherMapProvider(coords: Option<Coords>, city: Option<string>, apiKey: string, units: UnitSystem)

  /** The network side: each request with its decoding, or the error it fails
      with (cURL set-up or transfer, URL escaping, JSON decoding). */
  datatype Api = Api(
    metno: (real, real) -> Result<seq<MetnoStep>>,
    openMeteo: (real, real, UnitSystem) -> Result<OpenMeteoCurrent>,
    owm: (OwmQuery, string, UnitSystem) -> Result<OwmResponse>)

  /** IWeatherProvider::fetch of each provider. */
  function Fetch(p: WeatherProvider, api: Api): Result<WeatherData> {
    match p
    case MetNoProvider(lat, lon, units) =>
      (match api.metno(lat, lon)
       case Err(e) => Err(e)
       case Ok(timeseries) => MetnoReport(timeseries, units))
    case OpenMeteoProvider(lat, lon, units) =>
      (match api.openMeteo(lat, lon, units)
       case Err(e) => Err(e)
       case Ok(current) => Ok(OpenMeteoReport(current, units)))
    case OpenWeatherMapProvider(coords, city, apiKey, units) =>
      (match OwmQueryFor(city, coords)
       case Err(e) => Err(e)
       case Ok(query) =>
         match api.owm(query, apiKey, units)
         case Err(e) => Err(e)
         case Ok(resp) =>
           match OwmReport(resp)
           case Err(e) => Err(e)
           case Ok(d) => Ok(d.(units := units)))
  }

  /** Every successful report is labelled with the provider's own unit system. */
  lemma FetchReportsProviderUnits(p: WeatherProvider, api: Api)
    requires Fetch(p, api).Ok?
    ensures Fetch(p, api).value.units == p.units
  {
  }

  /** OpenWeatherMap asks for the city when it has one, and fails without any location. */
  lemma OwmFetchLocation(p: WeatherProvider, api: Api)
    requires p.OpenWeatherMapProvider?
    ensures p.city.None? && p.coords.None? ==>
      Fetch(p, api) == Err(Error(InvalidArgument, "No location (city or coordinates) provided for OpenWeatherMap"))
    ensures p.city.Some? && api.owm(ByCity(p.city.value), p.apiKey, p.units).Err? ==>
      Fetch(p, api) == Err(api.owm(ByCity(p.city.value), p.apiKey, p.units).error)
  {
  }
}
