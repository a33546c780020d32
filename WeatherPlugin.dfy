/** The weather plugin's configuration handling and state
    (plugins/weather/weather.cpp:851-1163): normalising a TOML configuration,
    loading a compile-time one, choosing and building the provider, and the
    initialise/collect/shutdown life cycle. */
module WeatherPlugin {
  import opened Common
  import opened Weather
  import PC = PrecompiledWeather

  // ---------------------------------------------------------------------
  // Runtime (TOML) configuration
  // ---------------------------------------------------------------------

  /** The decoded TOML table: empty strings and (0, 0) stand for "not given". */
  datatype TomlWeatherConfig = TomlWeatherConfig(
    enabled: bool,
    provider: string,
    units: string,
    location: string,
    lat: real,
    lon: real,
    apiKey: string)

  /** What normalising a TOML table yields: a disabled table gives the default
      configuration; otherwise an unknown provider means Open-Meteo, any units
      but "imperial" mean metric, a city wins over coordinates, (0, 0) means no
      coordinates, and an empty key means none. */
  predicate NormalisedFrom(toml: TomlWeatherConfig, cfg: WeatherConfig) {
    && cfg.enabled == toml.enabled
    && (!toml.enabled ==> cfg == DefaultWeatherConfig)
    && (toml.enabled ==>
      && (cfg.provider == MetNo <==> toml.provider == "metno")
      && (cfg.provider == OpenWeatherMap <==> toml.provider == "openweathermap")
      && (toml.provider != "metno" && toml.provider != "openweathermap" ==> cfg.provider == OpenMeteo)
      && (cfg.units == Imperial <==> toml.units == "imperial")
      && (toml.location != "" ==> cfg.city == Some(toml.location) && cfg.coords.None?)
      && (toml.location == "" ==>
        && cfg.city.None?
        && (cfg.coords.Some? <==> toml.lat != 0.0 || toml.lon != 0.0)
        && (cfg.coords.Some? ==> cfg.coords.value == Coords(toml.lat, toml.lon)))
      && (cfg.apiKey.Some? <==> toml.apiKey != "")
      && (cfg.apiKey.Some? ==> cfg.apiKey.value == toml.apiKey))
  }

  /** Normalisation leaves no freedom: one table yields one configuration. */
  lemma NormalisedFromUnique(toml: TomlWeatherConfig, a: WeatherConfig, b: WeatherConfig)
    requires NormalisedFrom(toml, a) && NormalisedFrom(toml, b)
    ensures a == b
  {
  }

  /** Builds the runtime configuration field by field from the TOML table. */
  method ParseTomlConfig(toml: TomlWeatherConfig) returns (cfg: WeatherConfig)
    ensures NormalisedFrom(toml, cfg)
  {
    cfg := DefaultWeatherConfig.(enabled := toml.enabled);
    if !cfg.enabled {
      return;
    }

    var providerStr := if toml.provider == "" then "openmeteo" else toml.provider;
    if providerStr == "openmeteo" {
      cfg := cfg.(provider := OpenMeteo);
    } else if providerStr == "metno" {
      cfg := cfg.(provider := MetNo);
    } else if providerStr == "openweathermap" {
      cfg := cfg.(provider := OpenWeatherMap);
    } else {
      cfg := cfg.(provider := OpenMeteo);
    }

    var unitsStr := if toml.units == "" then "metric" else toml.units;
    cfg := cfg.(units := if unitsStr == "imperial" then Imperial else Metric);

    if toml.location != "" {
      cfg := cfg.(city := Some(toml.location));
    } else if toml.lat != 0.0 || toml.lon != 0.0 {
      cfg := cfg.(coords := Some(Coords(toml.lat, toml.lon)));
    }

    if toml.apiKey != "" {
      cfg := cfg.(apiKey := Some(toml.apiKey));
    }
  }

  /** Loads the runtime configuration. Each argument is the table read from one
      file, or None when that file is missing, unreadable or fails to parse (the
      failure is only logged): weather.toml is tried first, then the
      [plugins.weather] table of config.toml when it is enabled, and otherwise
      the disabled default. A configuration always results. */
  method LoadConfig(weatherToml: Option<TomlWeatherConfig>, mainToml: Option<TomlWeatherConfig>)
    returns (cfg: WeatherConfig)
    ensures weatherToml.Some? ==> NormalisedFrom(weatherToml.value, cfg)
    ensures weatherToml.None? && mainToml.Some? && mainToml.value.enabled ==> NormalisedFrom(mainToml.value, cfg)
    ensures weatherToml.None? && (mainToml.None? || !mainToml.value.enabled) ==> cfg == DefaultWeatherConfig
    ensures cfg.enabled <==>
      (if weatherToml.Some? then weatherToml.value.enabled else mainToml.Some? && mainToml.value.enabled)
  {
    if weatherToml.Some? {
      cfg := ParseTomlConfig(weatherToml.value);
      return;
    }
    if mainToml.Some? && mainToml.value.enabled {
      cfg := ParseTomlConfig(mainToml.value);
      return;
    }
    cfg := DefaultWeatherConfig;
  }

  // ---------------------------------------------------------------------
  // Compile-time configuration
  // ---------------------------------------------------------------------

  /** The runtime configuration of a compile-time one, given the provider it is
      converted to: always enabled, the location variant split into coordinates
      or city, the key copied. */
  function FromPrecompiled(pc: PC.Config, provider: Provider): (cfg: WeatherConfig)
    ensures cfg.enabled && cfg.provider == provider
    ensures (cfg.units == Imperial) <==> pc.units == PC.Imperial
    ensures pc.location.Coordinates? ==> cfg.coords == Some(Coords(pc.location.lat, pc.location.lon)) && cfg.city.None?
    ensures pc.location.CityName? ==> cfg.city == Some(pc.location.name) && cfg.coords.None?
    ensures cfg.apiKey == pc.apiKey
  {
    WeatherConfig(
      true,
      provider,
      UnitSystemFromOrdinal(PC.UnitsOrdinal(pc.units)),
      if pc.location.Coordinates? then Some(Coords(pc.location.lat, pc.location.lon)) else None,
      if pc.location.CityName? then Some(pc.location.name) else None,
      pc.apiKey)
  }

  /** loadConfigFromPrecompiled as written: the provider is converted by its
      underlying value, and the two enumerations list their members in
      different orders. */
  function LoadConfigFromPrecompiled(pc: PC.Config): (cfg: WeatherConfig)
    ensures ProviderOrdinal(cfg.provider) == PC.ProviderOrdinal(pc.provider)
  {
    FromPrecompiled(pc, ProviderFromOrdinal(PC.ProviderOrdinal(pc.provider)))
  }

  /** The provider of the same name. */
  function SameProvider(p: PC.Provider): Provider {
    match p
    case OpenMeteo => Provider.OpenMeteo
    case MetNo => Provider.MetNo
    case OpenWeatherMap => Provider.OpenWeatherMap
  }

  /** The intended conversion: each provider maps to the one of the same name. */
  function LoadConfigByName(pc: PC.Config): (cfg: WeatherConfig)
    ensures cfg.provider == SameProvider(pc.provider)
  {
    FromPrecompiled(pc, SameProvider(pc.provider))
  }

  /** As written, no compile-time provider keeps its identity: OpenMeteo runs
      as OpenWeatherMap, MetNo as OpenMeteo and OpenWeatherMap as MetNo. */
  lemma OrdinalCastRenamesProvider(pc: PC.Config)
    ensures pc.provider == PC.OpenMeteo ==> LoadConfigFromPrecompiled(pc).provider == Provider.OpenWeatherMap
    ensures pc.provider == PC.MetNo ==> LoadConfigFromPrecompiled(pc).provider == Provider.OpenMeteo
    ensures pc.provider == PC.OpenWeatherMap ==> LoadConfigFromPrecompiled(pc).provider == Provider.MetNo
    ensures LoadConfigFromPrecompiled(pc).provider != SameProvider(pc.provider)
  {
  }

  /** As written, the default compile-time configuration passes Validate and
      still fails provider creation: it becomes OpenWeatherMap without a key. */
  lemma OrdinalCastRejectsValidDefault()
    ensures PC.Validate(PC.DefaultConfig)
    ensures ProviderFor(LoadConfigFromPrecompiled(PC.DefaultConfig))
      == Err(Error(InvalidArgument, OWM_NEEDS_KEY))
  {
  }

  /** Converted by name, every configuration that passes Validate yields a
      provider of the configured kind built from its location and key. */
  lemma {:induction false} ValidConfigBuildsProvider(pc: PC.Config)
    requires PC.Validate(pc)
    ensures var built := ProviderFor(LoadConfigByName(pc));
      && built.Ok? && built.value.Some?
      && (pc.provider == PC.OpenMeteo ==> built.value.value.OpenMeteoProvider?)
      && (pc.provider == PC.MetNo ==> built.value.value.MetNoProvider?)
      && (pc.provider == PC.OpenWeatherMap ==>
            built.value.value.OpenWeatherMapProvider? && built.value.value.apiKey == pc.apiKey.value)
  {
    PC.ValidateMeansUsable(pc);
  }

  // ---------------------------------------------------------------------
  // Provider creation
  // ---------------------------------------------------------------------

  const OPENMETEO_NEEDS_COORDS := "OpenMeteo requires coordinates. Set [location] with lat and lon in weather.toml"
  const METNO_NEEDS_COORDS := "Met.no requires coordinates. Set [location] with lat and lon in weather.toml"
  const OWM_NEEDS_KEY := "OpenWeatherMap requires an API key. Set api_key in weather.toml"
  const OWM_NEEDS_LOCATION := "OpenWeatherMap requires a location. Set location in weather.toml"

  /** The provider a configuration builds: none when disabled, otherwise the
      configured one, or the reason it cannot be built. */
  function ProviderFor(cfg: WeatherConfig): Result<Option<WeatherProvider>> {
    if !cfg.enabled then Ok(None)
    else
      match cfg.provider
      case OpenMeteo =>
        if cfg.coords.None? then Err(Error(InvalidArgument, OPENMETEO_NEEDS_COORDS))
        else Ok(Some(OpenMeteoProvider(cfg.coords.value.lat, cfg.coords.value.lon, cfg.units)))
      case MetNo =>
        if cfg.coords.None? then Err(Error(InvalidArgument, METNO_NEEDS_COORDS))
        else Ok(Some(MetNoProvider(cfg.coords.value.lat, cfg.coords.value.lon, cfg.units)))
      case OpenWeatherMap =>
        if cfg.apiKey.None? then Err(Error(InvalidArgument, OWM_NEEDS_KEY))
        else if cfg.coords.None? && cfg.city.None? then Err(Error(InvalidArgument, OWM_NEEDS_LOCATION))
        else Ok(Some(OpenWeatherMapProvider(cfg.coords, cfg.city, cfg.apiKey.value, cfg.units)))
  }

  /** Creation fails, always with InvalidArgument, exactly when the configured
      provider lacks what it needs; the key is checked before the location. */
  lemma ProviderForRules(cfg: WeatherConfig)
    ensures !cfg.enabled ==> ProviderFor(cfg) == Ok(None)
    ensures ProviderFor(cfg).Err? <==>
      && cfg.enabled
      && (if cfg.provider == OpenWeatherMap then cfg.apiKey.None? || (cfg.coords.None? && cfg.city.None?)
          else cfg.coords.None?)
    ensures ProviderFor(cfg).Err? ==> ProviderFor(cfg).error.code == InvalidArgument
    ensures cfg.enabled && cfg.provider == OpenWeatherMap && cfg.apiKey.None? ==>
      ProviderFor(cfg).error.message == OWM_NEEDS_KEY
    ensures ProviderFor(cfg).Ok? && cfg.enabled ==>
      ProviderFor(cfg).value.Some? && ProviderFor(cfg).value.value.units == cfg.units
  {
  }

  // ---------------------------------------------------------------------
  // Plugin state
  // ---------------------------------------------------------------------

  /** Where initialisation takes its configuration from: the compile-time
      configuration, or what LoadConfig returned for the TOML files. Loading
      never fails, so there is no error case. */
  datatype ConfigSource = Precompiled(compiled: PC.Config) | FromToml(loaded: WeatherConfig)

  /** The configuration after loading; a compile-time one goes through the
      ordinal conversion. */
  function LoadedConfig(source: ConfigSource): WeatherConfig {
    match source
    case Precompiled(pc) => LoadConfigFromPrecompiled(pc)
    case FromToml(cfg) => cfg
  }

  const NOT_READY := "Weather plugin is not ready"
  const DISABLED := "Weather plugin is disabled in configuration"
  const NO_PROVIDER := "No weather provider configured"

  class WeatherPlugin {
    var config: WeatherConfig
    var data: WeatherData
    var lastError: Option<string>
    var provider: Option<WeatherProvider>
    var ready: bool

    /** An enabled plugin holds the provider its configuration builds. This
        holds from construction and after Initialize, and CollectData keeps it;
        Shutdown drops the provider and so ends it. */
    predicate Consistent()
      reads this
    {
      config.enabled ==> provider.Some? && ProviderFor(config) == Ok(provider)
    }

    constructor()
      ensures config == DefaultWeatherConfig && data == NoWeatherData
      ensures lastError.None? && provider.None? && !ready
      ensures Consistent()
    {
      config := DefaultWeatherConfig;
      data := NoWeatherData;
      lastError := None;
      provider := None;
      ready := false;
    }

    method CreateProvider() returns (r: Result<()>)
      modifies this
      ensures config == old(config) && data == old(data) && lastError == old(lastError) && ready == old(ready)
      ensures r.Ok? <==> ProviderFor(config).Ok?
      ensures r.Ok? ==> provider == ProviderFor(config).value
      ensures r.Err? ==> r.error == ProviderFor(config).error && provider == old(provider)
    {
      if !config.enabled {
        provider := None;
        return Ok(());
      }
      match config.provider {
        case OpenMeteo =>
          if config.coords.None? {
            return Err(Error(InvalidArgument, OPENMETEO_NEEDS_COORDS));
          }
          provider := Some(OpenMeteoProvider(config.coords.value.lat, config.coords.value.lon, config.units));
        case MetNo =>
          if config.coords.None? {
            return Err(Error(InvalidArgument, METNO_NEEDS_COORDS));
          }
          provider := Some(MetNoProvider(config.coords.value.lat, config.coords.value.lon, config.units));
        case OpenWeatherMap =>
          if config.apiKey.None? {
            return Err(Error(InvalidArgument, OWM_NEEDS_KEY));
          }
          if config.coords.None? && config.city.None? {
            return Err(Error(InvalidArgument, OWM_NEEDS_LOCATION));
          }
          provider := Some(OpenWeatherMapProvider(config.coords, config.city, config.apiKey.value, config.units));
      }
      r := Ok(());
    }

    /** Takes the loaded configuration, builds the provider when enabled, and
        becomes ready; a provider that cannot be built is recorded and disables
        the plugin. */
    method Initialize(source: ConfigSource) returns (r: Result<()>)
      modifies this
      ensures r == Ok(()) && ready && data == old(data)
      ensures var cfg := LoadedConfig(source);
        if cfg.enabled && ProviderFor(cfg).Err? then
          config == cfg.(enabled := false) && lastError == Some(ProviderFor(cfg).error.message) && provider == old(provider)
        else
          config == cfg && lastError == old(lastError)
          && provider == (if cfg.enabled then ProviderFor(cfg).value else old(provider))
      ensures Consistent()
      ensures source == Precompiled(PC.DefaultConfig) ==>
        !config.enabled && lastError == Some(OWM_NEEDS_KEY) && provider == old(provider)
    {
      match source {
        case Precompiled(pc) =>
          config := LoadConfigFromPrecompiled(pc);
        case FromToml(loaded) =>
          config := loaded;
      }

      if config.enabled {
        var created := CreateProvider();
        if created.Err? {
          lastError := Some(created.error.message);
          config := config.(enabled := false);
        }
      }

      if source == Precompiled(PC.DefaultConfig) {
        OrdinalCastRejectsValidDefault();
      }
      ready := true;
      r := Ok(());
    }

    /** Refreshes the weather report: from the cache entry when there is one,
        otherwise from the provider. */
    method CollectData(cached: Option<WeatherData>, api: Api) returns (r: Result<()>)
      modifies this
      ensures config == old(config) && provider == old(provider) && ready == old(ready)
      ensures old(Consistent()) ==> Consistent()
      ensures !ready ==>
        r == Err(Error(NotSupported, NOT_READY)) && data == old(data) && lastError == old(lastError)
      ensures ready && !config.enabled ==>
        r == Ok(()) && lastError == Some(DISABLED) && data == old(data)
      ensures ready && config.enabled && provider.None? ==>
        r == Err(Error(NotSupported, NO_PROVIDER)) && lastError == Some(NO_PROVIDER) && data == old(data)
      ensures ready && config.enabled && provider.Some? && cached.Some? ==>
        r == Ok(()) && data == cached.value && lastError.None?
      ensures ready && config.enabled && provider.Some? && cached.None? ==>
        match Fetch(provider.value, api)
        case Ok(d) => r == Ok(()) && data == d && lastError.None?
        case Err(e) => r == Err(e) && lastError == Some(e.message) && data == old(data)
    {
      if !ready {
        return Err(Error(NotSupported, NOT_READY));
      }
      if !config.enabled {
        lastError := Some(DISABLED);
        return Ok(());
      }
      if provider.None? {
        lastError := Some(NO_PROVIDER);
        return Err(Error(NotSupported, NO_PROVIDER));
      }
      lastError := None;

      if cached.Some? {
        data := cached.value;
        return Ok(());
      }

      var result := Fetch(provider.value, api);
      if result.Err? {
        lastError := Some(result.error.message);
        return Err(result.error);
      }
      data := result.value;
      r := Ok(());
    }

    method Shutdown()
      modifies this
      ensures provider.None? && !ready
      ensures config == old(config) && data == old(data) && lastError == old(lastError)
    {
      provider := None;
      ready := false;
    }
  }
}
