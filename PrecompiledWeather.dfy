/** The typed, compile-time weather configuration of precompiled mode
    (plugins/weather/WeatherConfig.hpp): a location that is either
    coordinates or a city name, and the consteval validation rules. */
module PrecompiledWeather {
  import opened Common

  /** Declared order OpenMeteo, MetNo, OpenWeatherMap (ordinals 0, 1, 2). */
  datatype Provider = OpenMeteo | MetNo | OpenWeatherMap

  /** The underlying unsigned char value of each enumerator. */
  function ProviderOrdinal(p: Provider): (n: nat)
    ensures n < 3
  {
    match p
    case OpenMeteo => 0
    case MetNo => 1
    case OpenWeatherMap => 2
  }

  datatype Units = Metric | Imperial

  function UnitsOrdinal(u: Units): (n: nat)
    ensures n < 2
  {
    match u
    case Metric => 0
    case Imperial => 1
  }

  /** std::variant<Coordinates, CityName>; the pair is {lat, lon}. */
  datatype Location = Coordinates(lat: real, lon: real) | CityName(name: string)

  datatype Config = Config(
    provider: Provider,
    units: Units,
    location: Location,
    apiKey: Option<string>)

  /** The member initialisers of Config. */
  const DefaultConfig := Config(OpenMeteo, Metric, Coordinates(0.0, 0.0), None)

  /** The three-argument factory: no API key. */
  function MakeConfig(provider: Provider, units: Units, location: Location): (cfg: Config)
    ensures cfg.provider == provider && cfg.units == units && cfg.location == location
    ensures cfg.apiKey.None?
  {
    Config(provider, units, location, None)
  }

  /** The four-argument factory: the API key is present. */
  function MakeConfigWithKey(provider: Provider, units: Units, location: Location, apiKey: string): (cfg: Config)
    ensures cfg.provider == provider && cfg.units == units && cfg.location == location
    ensures cfg.apiKey == Some(apiKey)
  {
    Config(provider, units, location, Some(apiKey))
  }

  /** Validate: a city name needs OpenWeatherMap, and OpenWeatherMap needs a
      key. The documented third rule (OpenMeteo and MetNo need coordinates)
      is implied by the first, because a location is one or the other. */
  predicate Validate(cfg: Config) {
    if cfg.location.CityName? && cfg.provider != OpenWeatherMap then false
    else if cfg.provider == OpenWeatherMap && cfg.apiKey.None? then false
    else true
  }

  lemma CityNameNeedsOpenWeatherMap(cfg: Config)
    requires cfg.location.CityName? && cfg.provider != OpenWeatherMap
    ensures !Validate(cfg)
  {
  }

  lemma OpenWeatherMapNeedsKey(cfg: Config)
    requires cfg.provider == OpenWeatherMap && cfg.apiKey.None?
    ensures !Validate(cfg)
  {
  }

  /** Every other configuration passes, whatever its coordinates, (0, 0) included. */
  lemma ValidateAcceptsTheRest(cfg: Config)
    requires !(cfg.location.CityName? && cfg.provider != OpenWeatherMap)
    requires !(cfg.provider == OpenWeatherMap && cfg.apiKey.None?)
    ensures Validate(cfg)
  {
  }

  /** A configuration passes exactly when it names a provider able to use its
      location and, for OpenWeatherMap, carries a key. */
  lemma ValidateMeansUsable(cfg: Config)
    ensures Validate(cfg) <==>
      || (cfg.provider != OpenWeatherMap && cfg.location.Coordinates?)
      || (cfg.provider == OpenWeatherMap && cfg.apiKey.Some?)
  {
  }

  /** The three-argument factory can never produce a valid OpenWeatherMap config. */
  lemma MakeConfigWithoutKeyRejectsOpenWeatherMap(units: Units, location: Location)
    ensures !Validate(MakeConfig(OpenWeatherMap, units, location))
  {
  }

  lemma DefaultConfigIsValid()
    ensures Validate(DefaultConfig)
  {
  }
}
