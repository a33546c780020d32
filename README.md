# Draconis++ plugins, modelled in Dafny

This project models the logic of six parts of the Draconis++ plugin set and
proves properties about it. It covers what lies between the native or network
calls and the text a user sees:

- **Now playing (MPRIS over DBus).** `DBusMessage.dfy` holds a DBus reply as a
  tree of typed values. Its `MessageIter` class is the cursor the backend walks
  it with. An invalid cursor reports type INVALID, `Next` on it fails, and
  `Recurse` on it yields another invalid cursor. `NowPlaying.dfy` covers:
  - bus-name discovery, where the first MPRIS name wins;
  - the `Properties.Get` "Metadata" walk, where a wrong top-level shape is
    fatal and a malformed entry is skipped;
  - `extractPlayerName`;
  - the plugin's `collectData`, `getFields` and `getDisplayValue`.
  
  The walk exists twice: as functions (`DiscoverPlayer`, `ParseMetadata`) and
  as the imperative cursor loops of the source (`FindActivePlayer`,
  `ReadMetadata`). The loops are proved equal to the functions.
- **Weather.**
  - `Weather.dfy` covers:
    - time-of-day suffix stripping, a loop proved against a recursive
      specification;
    - the Met.no symbol table and description rule;
    - the Open-Meteo WMO code table;
    - OpenWeatherMap's `cod` error mapping and result shaping;
    - the provider's choice of location.
  - `WeatherPlugin.dfy` covers:
    - TOML configuration normalisation;
    - provider creation and its validation;
    - loading the compiled-in configuration;
    - the plugin object, whose `Initialize`, `CollectData` and `Shutdown`
      update its fields.
- **Compile-time weather configuration.** `PrecompiledWeather.dfy` holds the
  `Config` record of `WeatherConfig.hpp`, both `MakeConfig` overloads and
  `Validate`.
- **Markdown output.** `Markdown.dfy` holds `MarkdownBuilder`, a buffered
  section writer that emits a section header only when the section got a line,
  and `formatOutput`, which drives it. The method is proved to build
  `MarkdownDoc`, a function of the data map.
- **YAML output.** `Yaml.dfy` gives the document tree as nested key/value
  entries. It covers which sections and sub-maps exist for which non-empty
  keys, and how plugin data is copied.
- **JSON output.** `Json.dfy` maps the flat data map onto the record of
  optional members:
  - keys are renamed;
  - empty text becomes absent;
  - text that fails to parse as a number becomes absent;
  - CPU core counts are cut to 32 bits.
  
  It also covers the compact/pretty choice and the format names.

`Common.dfy` holds what the plugins share:
- `Option`/`Result` and the error taxonomy;
- the "present and non-empty" lookup;
- decimal text for `std::to_string`;
- the 64-bit parsers standing in for `std::stoull` and `std::stoll`.

Transport is passed in as values: the DBus connection, the HTTP fetches and
JSON decoding, the TOML file and the cache. A DBus connection is a `Bus`
record of replies. A weather provider's HTTP round trip is a function field of
an `Api` record. A cache lookup is an `Option` argument.

The DBus backend returns a metadata record without a title as a success. Only
`getDisplayValue` (`now_playing.cpp:747-755`) reports `NotFound` for it.
`NowPlaying.ParseMetadata` and `NowPlaying.GetDisplayValue` keep that split.

The weather plugin's `Initialize` loads a compiled-in configuration as the code
does, through the ordinal conversion of the provider. The corrected by-name
conversion and its property are stated separately; see "## Findings".

## Model

| member | source | states |
|---|---|---|
| Common.NonEmptyValue | plugins/yaml_format/yaml_format.cpp:39-43 | a value is present exactly when the key exists with non-empty text, and it is then that text; the JSON getOptional helper and the Markdown mapEntry test apply the same rule |
| Common.ParseU64RoundTrip | plugins/json_format/json_format.cpp:166-175 | every unsigned 64-bit number printed in decimal parses back to itself |
| Common.ParseI64RoundTrip | plugins/json_format/json_format.cpp:188-197 | every signed 64-bit number printed in decimal, with its sign, parses back to itself |
| DBusMessage.MessageIter.Init | plugins/now_playing/now_playing.cpp:403-410 | the cursor from iterInit is valid exactly when the message has an argument, and then stands on the first argument |
| DBusMessage.MessageIter.Over | plugins/now_playing/now_playing.cpp:319-320 | a cursor built from a validity flag and a sibling list; an invalid one walks nothing |
| DBusMessage.MessageIter.ArgType | plugins/now_playing/now_playing.cpp:338-340 | INVALID exactly when the cursor is invalid or past the end, otherwise the type of the current value |
| DBusMessage.MessageIter.ElementType | plugins/now_playing/now_playing.cpp:342-344 | the element type of the current array, and INVALID for anything that is not an array |
| DBusMessage.MessageIter.GetString | plugins/now_playing/now_playing.cpp:359-367 | present only for a non-empty string under a valid cursor, and then that string |
| DBusMessage.MessageIter.Next | plugins/now_playing/now_playing.cpp:346-348 | an invalid cursor does not move and reports false; a valid one advances one sibling and reports whether another value follows |
| DBusMessage.MessageIter.Recurse | plugins/now_playing/now_playing.cpp:350-357 | a fresh cursor over the current value's children; on an invalid cursor, another invalid cursor |
| NowPlaying.ExtractPlayerName | plugins/now_playing/now_playing.cpp:514-519 | strips exactly the MPRIS prefix when the name starts with it, and is the identity otherwise |
| NowPlaying.ExtractPlayerNameInvertsPrefix | plugins/now_playing/now_playing.cpp:514-519 | prefixing a name and extracting gives the name back |
| NowPlaying.FirstPlayerIndex | plugins/now_playing/now_playing.cpp:545-553 | the chosen index is a non-empty MPRIS-prefixed string, and no earlier name qualifies; absent only when no name qualifies |
| NowPlaying.FirstPlayerIgnoresLaterNames | plugins/now_playing/now_playing.cpp:545-553 | names after the first qualifying one never change the choice |
| NowPlaying.DiscoverPlayer | plugins/now_playing/now_playing.cpp:537-557 | a reply with no argument, or whose argument is not an array, is a ParseError; a success is the first qualifying MPRIS name of the list, and an array holding a qualifying name always succeeds |
| NowPlaying.NoPlayerIsNotFound | plugins/now_playing/now_playing.cpp:556-557 | an array with no qualifying name gives NotFound |
| NowPlaying.ApplyEntry | plugins/now_playing/now_playing.cpp:596-627 | one dictionary entry never touches the player name; a non-string key, a non-variant value or an unrecognised key changes nothing |
| NowPlaying.WalkDictKeepsPlayerName | plugins/now_playing/now_playing.cpp:567-568 | the walk over all entries leaves the player name as set before it |
| NowPlaying.WalkDictUnwritten | plugins/now_playing/now_playing.cpp:588-631 | a recognised field that no entry writes keeps its earlier value |
| NowPlaying.WalkDictLastWriteWins | plugins/now_playing/now_playing.cpp:616-631 | a recognised field ends with the value of the last entry that writes it |
| NowPlaying.ParseMetadata | plugins/now_playing/now_playing.cpp:567-634 | no argument, a non-variant argument, or a variant not holding an array of dict entries is a ParseError whatever lies deeper; a success carries the extracted player name |
| NowPlaying.FindActivePlayer | plugins/now_playing/now_playing.cpp:537-557 | the cursor loop over ListNames computes exactly DiscoverPlayer |
| NowPlaying.ReadEntry | plugins/now_playing/now_playing.cpp:589-627 | reading one entry with the cursor applies exactly ApplyEntry |
| NowPlaying.ReadMetadata | plugins/now_playing/now_playing.cpp:570-634 | the cursor loop over the Metadata reply computes exactly ParseMetadata |
| NowPlaying.FetchNowPlaying | plugins/now_playing/now_playing.cpp:524-634 | connection failure, discovery and metadata walk combined, equal to the FetchSpec function |
| NowPlaying.WellFormedPlayerExample | plugins/now_playing/now_playing.cpp:524-634 | the bus with player Foo, title Song, artist [Band] and album Rec yields exactly that record with player name Foo |
| NowPlaying.GetFields | plugins/now_playing/now_playing.cpp:729-745 | each of title, artist, album and player is a key exactly when that member is present, with its value, and there are no other keys |
| NowPlaying.GetDisplayValue | plugins/now_playing/now_playing.cpp:747-755 | NotFound exactly when there is no title; "artist - title" with an artist, the title alone without |
| NowPlaying.DisplayValueMatchesFields | plugins/now_playing/now_playing.cpp:729-755 | the display value exists exactly when getFields has a title, and it ends with that title |
| NowPlaying.NowPlayingPlugin.constructor | plugins/now_playing/now_playing.cpp:640-664 | a new plugin is enabled, not ready, has no data and no last error |
| NowPlaying.NowPlayingPlugin.Initialize | plugins/now_playing/now_playing.cpp:674-678 | enables and readies the plugin, nothing else changes |
| NowPlaying.NowPlayingPlugin.Shutdown | plugins/now_playing/now_playing.cpp:680-682 | only clears readiness |
| NowPlaying.NowPlayingPlugin.CollectData | plugins/now_playing/now_playing.cpp:692-720 | not ready: NotSupported and no change; disabled: records the disabled message; fetch failure: records its message and keeps the old data; success: replaces the data and clears the last error |
| PrecompiledWeather.ProviderOrdinal | plugins/weather/WeatherConfig.hpp:29-33 | the declaration order OpenMeteo, MetNo, OpenWeatherMap as 0, 1, 2 |
| PrecompiledWeather.UnitsOrdinal | plugins/weather/WeatherConfig.hpp:36-39 | Metric 0, Imperial 1 |
| PrecompiledWeather.MakeConfig | plugins/weather/WeatherConfig.hpp:51-53 | the record carries the given provider, units and location, and no key |
| PrecompiledWeather.MakeConfigWithKey | plugins/weather/WeatherConfig.hpp:55-57 | the same with the given key present |
| PrecompiledWeather.CityNameNeedsOpenWeatherMap | plugins/weather/WeatherConfig.hpp:70-72 | a city name with any other provider is invalid |
| PrecompiledWeather.OpenWeatherMapNeedsKey | plugins/weather/WeatherConfig.hpp:74-76 | OpenWeatherMap without a key is invalid |
| PrecompiledWeather.ValidateAcceptsTheRest | plugins/weather/WeatherConfig.hpp:69-79 | every configuration breaking neither rule is valid |
| PrecompiledWeather.ValidateMeansUsable | plugins/weather/WeatherConfig.hpp:69-79 | valid exactly when the provider is OpenMeteo or MetNo with coordinates, or OpenWeatherMap with a key |
| PrecompiledWeather.MakeConfigWithoutKeyRejectsOpenWeatherMap | plugins/weather/WeatherConfig.hpp:51-53 | the key-less factory never yields a valid OpenWeatherMap configuration |
| PrecompiledWeather.DefaultConfigIsValid | plugins/weather/WeatherConfig.hpp:42-47 | the default record (OpenMeteo, metric, coordinates 0,0, no key) is valid |
| Weather.ProviderFromOrdinal | plugins/weather/weather.cpp:60-64 | the runtime enum value with a given ordinal: OpenWeatherMap 0, OpenMeteo 1, MetNo 2 |
| Weather.UnitSystemFromOrdinal | plugins/weather/weather.cpp:69-72 | Metric exactly for ordinal 0 |
| Weather.StripTimeOfDayFromSymbol | plugins/weather/weather.cpp:583-589 | the suffix loop returns exactly the first-applicable-suffix removal StripFirst |
| Weather.StripFirstShape | plugins/weather/weather.cpp:585-588 | the result is the symbol itself, or the symbol minus one listed suffix that it is strictly longer than |
| Weather.StripFirstKeepsUnsuffixed | plugins/weather/weather.cpp:588 | a symbol to which no suffix applies is returned unchanged |
| Weather.StrippedEmptyIffEmpty | plugins/weather/weather.cpp:586 | stripping gives the empty string exactly for the empty symbol |
| Weather.StripDay | plugins/weather/weather.cpp:584-587 | a non-empty stem with "_day" loses exactly "_day" |
| Weather.StripNight | plugins/weather/weather.cpp:584-587 | a non-empty stem with "_night" loses exactly "_night" |
| Weather.StripPolarTwilight | plugins/weather/weather.cpp:584-587 | a non-empty stem with "_polartwilight" loses exactly that suffix |
| Weather.BareSuffixKept | plugins/weather/weather.cpp:586 | a symbol that is only a suffix is kept as it is |
| Weather.MetnoSymbolTextsNonEmpty | plugins/weather/weather.cpp:545-581 | every text in the Met.no symbol table is non-empty |
| Weather.MetnoDescriptionAbsence | plugins/weather/weather.cpp:632-643 | the description is absent exactly when there is no next-hour summary or its symbol is empty |
| Weather.MetnoKnownSymbol | plugins/weather/weather.cpp:634-636 | a stripped symbol in the table maps to its text |
| Weather.MetnoUnknownSymbolPassesThrough | plugins/weather/weather.cpp:637-638 | an unknown stripped symbol is the description itself |
| Weather.MetnoDescriptionNightExample | plugins/weather/weather.cpp:632-639 | "lightrainshowers_night" reads "light rain showers" |
| Weather.MetnoDescriptionPolarTwilightExample | plugins/weather/weather.cpp:632-639 | "partlycloudy_polartwilight" reads "partly cloudy" |
| Weather.MetnoReportUsesFirstStep | plugins/weather/weather.cpp:623-646 | an empty timeseries is the ParseError; otherwise the first step's temperature (converted for imperial) and description, no location, the provider's units |
| Weather.OpenmeteoDescriptionMatchesTable | plugins/weather/weather.cpp:652-684 | each listed WMO code maps to its text, and every other code to "unknown" |
| Weather.OpenMeteoReport | plugins/weather/weather.cpp:724-729 | the reported temperature and code text, no location, the provider's units |
| Weather.OwmErrorCode | plugins/weather/weather.cpp:766-768 | 401 is PermissionDenied, 404 NotFound, every other code ApiUnavailable |
| Weather.OwmReportErrors | plugins/weather/weather.cpp:757-770 | the response fails exactly when cod is present and not 200, with the mapped code |
| Weather.OwmReportSuccess | plugins/weather/weather.cpp:772-777 | description from the first weather entry or absent, location absent exactly for an empty name |
| Weather.OwmQueryPrefersCity | plugins/weather/weather.cpp:793-819 | the city is used before coordinates; neither is InvalidArgument |
| Weather.FetchReportsProviderUnits | plugins/weather/weather.cpp:600-819 | every successful fetch reports the provider's own unit system |
| Weather.OwmFetchLocation | plugins/weather/weather.cpp:790-819 | with neither city nor coordinates the fetch is InvalidArgument; a failed city request is returned as is |
| WeatherPlugin.ParseTomlConfig | plugins/weather/weather.cpp:883-927 | disabled keeps every default; the provider string maps openmeteo/metno/openweathermap, empty or unknown to OpenMeteo; imperial exactly for "imperial"; a city wins over coordinates, which count only when not both zero; the key only when non-empty |
| WeatherPlugin.NormalisedFromUnique | plugins/weather/weather.cpp:883-927 | the normalisation rules fix the configuration completely: one TOML table yields exactly one configuration |
| WeatherPlugin.LoadConfig | plugins/weather/weather.cpp:932-974 | never fails: a readable, parsable weather.toml is normalised; otherwise an enabled `[plugins.weather]` table of config.toml is; otherwise the disabled default results, so a parse failure only falls back |
| WeatherPlugin.FromPrecompiled | plugins/weather/weather.cpp:859-879 | the loaded configuration is enabled, carries the location's coordinates or city name, the units and the key |
| WeatherPlugin.LoadConfigFromPrecompiled | plugins/weather/weather.cpp:861 | the provider is converted by ordinal, not by name |
| WeatherPlugin.LoadConfigByName | plugins/weather/weather.cpp:856-880 | corrected loading: the provider keeps its name |
| WeatherPlugin.OrdinalCastRenamesProvider | plugins/weather/weather.cpp:861 | the cast turns OpenMeteo into OpenWeatherMap, MetNo into OpenMeteo and OpenWeatherMap into MetNo; never the same provider |
| WeatherPlugin.OrdinalCastRejectsValidDefault | plugins/weather/weather.cpp:861 | the default compiled configuration passes Validate, yet after the cast provider creation fails for a missing key |
| WeatherPlugin.ValidConfigBuildsProvider | plugins/weather/weather.cpp:1015-1050 | with loading by name, every compiled configuration that passes Validate builds a provider of its own kind, with its key for OpenWeatherMap |
| WeatherPlugin.ProviderForRules | plugins/weather/weather.cpp:1015-1050 | disabled gives no provider; OpenMeteo and MetNo need coordinates; OpenWeatherMap needs a key, then a city or coordinates; each failure is InvalidArgument with the source's message |
| WeatherPlugin.WeatherPlugin.constructor | plugins/weather/weather.cpp:845-852 | a new plugin has the default configuration, no data, no error, no provider and is not ready |
| WeatherPlugin.WeatherPlugin.CreateProvider | plugins/weather/weather.cpp:1015-1050 | succeeds exactly when ProviderFor does and installs its provider; a failure leaves the provider as it was |
| WeatherPlugin.WeatherPlugin.Initialize | plugins/weather/weather.cpp:1072-1109 | always succeeds and readies; the compiled-in configuration is converted by ordinal, a TOML one is taken as loaded; a provider creation failure records its message and disables; the default compiled configuration ends disabled with the missing-key message |
| WeatherPlugin.WeatherPlugin.CollectData | plugins/weather/weather.cpp:1124-1163 | not ready, disabled and missing provider each have their message and code; a cached report is used as is; a fetch failure keeps the old data |
| WeatherPlugin.WeatherPlugin.Shutdown | plugins/weather/weather.cpp:1111-1114 | drops the provider and clears readiness, nothing else; this ends `Consistent`, which holds after the constructor and `Initialize` and which `CollectData` keeps |
| Markdown.EntryTextRule | plugins/markdown_format/markdown_format.cpp:70-73 | mapEntry writes a line exactly when the key has non-empty text, and the line is "- **caption**: value" |
| Markdown.MarkdownBuilder.constructor | plugins/markdown_format/markdown_format.cpp:39-41 | a new builder has an empty document, buffer and header |
| Markdown.MarkdownBuilder.Commit | plugins/markdown_format/markdown_format.cpp:97-104 | the header and buffer are appended only when the buffer is non-empty, and the buffer is cleared |
| Markdown.MarkdownBuilder.Section | plugins/markdown_format/markdown_format.cpp:49-52 | commits the open section, then opens "## title" |
| Markdown.MarkdownBuilder.Line | plugins/markdown_format/markdown_format.cpp:59-62 | appends the line to the buffer only for a non-empty value |
| Markdown.MarkdownBuilder.MapEntry | plugins/markdown_format/markdown_format.cpp:70-73 | appends the entry text of the key to the buffer |
| Markdown.MarkdownBuilder.Raw | plugins/markdown_format/markdown_format.cpp:88-91 | commits, then appends the text to the document |
| Markdown.MarkdownBuilder.Build | plugins/markdown_format/markdown_format.cpp:79-82 | the document with the open section committed |
| Markdown.FlushedRules | plugins/markdown_format/markdown_format.cpp:97-104 | a committed section is empty exactly when its buffer is, and otherwise starts with header then buffer |
| Markdown.WeatherText | plugins/markdown_format/markdown_format.cpp:163-177 | a weather line exists only with a non-empty temperature |
| Markdown.DocumentStartsWithTitle | plugins/markdown_format/markdown_format.cpp:155-156 | every document starts with the title |
| Markdown.SectionPresence | plugins/markdown_format/markdown_format.cpp:158-210 | each fixed section appears exactly when one of its keys gives a line |
| Markdown.WeatherLineRule | plugins/markdown_format/markdown_format.cpp:163-177 | the line exists exactly when the temperature is non-empty and rounds; the town wins over the description |
| Markdown.PackagesLineRule | plugins/markdown_format/markdown_format.cpp:198-205 | the line exists exactly for a parsable count above zero, printed back in decimal |
| Markdown.PluginBlocksStartWithFirst | plugins/markdown_format/markdown_format.cpp:215-216 | the plugin part starts with the first plugin's heading |
| Markdown.PluginBlockAppend | plugins/markdown_format/markdown_format.cpp:215-220 | one more plugin appends exactly its block, in order |
| Markdown.FormatNames | plugins/markdown_format/markdown_format.cpp:226-228 | the only format name is "markdown" |
| Markdown.FileExtension | plugins/markdown_format/markdown_format.cpp:230-232 | the extension is "md" whatever the name |
| Markdown.MarkdownFormatPlugin.constructor | plugins/markdown_format/markdown_format.cpp:107-110 | a new plugin is not ready |
| Markdown.MarkdownFormatPlugin.Initialize | plugins/markdown_format/markdown_format.cpp:130-133 | readies the plugin |
| Markdown.MarkdownFormatPlugin.Shutdown | plugins/markdown_format/markdown_format.cpp:135-137 | clears readiness |
| Markdown.MarkdownFormatPlugin.FormatOutput | plugins/markdown_format/markdown_format.cpp:143-224 | not ready is the Other error; otherwise the builder run yields exactly MarkdownDoc |
| Markdown.MarkdownFormatPlugin.WriteGeneral | plugins/markdown_format/markdown_format.cpp:158-177 | commits the previous section and leaves General open with the date and weather lines |
| Markdown.MarkdownFormatPlugin.WriteSystem | plugins/markdown_format/markdown_format.cpp:179-183 | opens System with host, OS and kernel lines |
| Markdown.MarkdownFormatPlugin.WriteHardware | plugins/markdown_format/markdown_format.cpp:185-191 | opens Hardware with RAM, disk, CPU, GPU and uptime lines |
| Markdown.MarkdownFormatPlugin.WriteSoftware | plugins/markdown_format/markdown_format.cpp:193-205 | opens Software with the shell and packages lines |
| Markdown.MarkdownFormatPlugin.WriteEnvironment | plugins/markdown_format/markdown_format.cpp:207-210 | opens Environment with desktop and window-manager lines |
| Markdown.MarkdownFormatPlugin.WriteWeatherLine | plugins/markdown_format/markdown_format.cpp:163-177 | appends exactly the weather text to the open section |
| Markdown.MarkdownFormatPlugin.WritePackagesLine | plugins/markdown_format/markdown_format.cpp:198-205 | appends exactly the packages text to the open section |
| Markdown.MarkdownFormatPlugin.WritePluginBlocks | plugins/markdown_format/markdown_format.cpp:213-221 | appends every plugin's block in order |
| Markdown.MarkdownFormatPlugin.WriteFieldLines | plugins/markdown_format/markdown_format.cpp:217-218 | appends one line per field in order |
| Yaml.AddIfPresent | plugins/yaml_format/yaml_format.cpp:49-52 | appends exactly one key/value pair when the value is present, and nothing otherwise |
| Yaml.SummarySectionPresence | plugins/yaml_format/yaml_format.cpp:95-121 | general exists exactly with a date; weather exactly with a temperature; system exactly with host, os or kernel |
| Yaml.DetailSectionPresence | plugins/yaml_format/yaml_format.cpp:123-199 | hardware, software and environment exist exactly when one of their keys has text; plugins exactly with plugin data |
| Yaml.OsDetailsAloneDoNotCreateSystem | plugins/yaml_format/yaml_format.cpp:112 | os_name, os_version and os_id alone create no system section |
| Yaml.WeatherDetailsOnlyInsideWeather | plugins/yaml_format/yaml_format.cpp:103-109 | town and description are never top-level, and are found inside weather |
| Yaml.HardwareSubMaps | plugins/yaml_format/yaml_format.cpp:129-165 | memory, disk, cpu and uptime sub-maps and the gpu value each exist exactly when their primary key has text |
| Yaml.PluginsCopied | plugins/yaml_format/yaml_format.cpp:184-199 | every plugin and every field value is found under its own name |
| Yaml.FormatNames | plugins/yaml_format/yaml_format.cpp:208-210 | the only format name is "yaml" |
| Yaml.FileExtension | plugins/yaml_format/yaml_format.cpp:212-214 | the extension is "yaml" whatever the name |
| Yaml.YamlFormatPlugin.constructor | plugins/yaml_format/yaml_format.cpp:28-31 | a new plugin is not ready |
| Yaml.YamlFormatPlugin.Initialize | plugins/yaml_format/yaml_format.cpp:70-73 | readies the plugin |
| Yaml.YamlFormatPlugin.Shutdown | plugins/yaml_format/yaml_format.cpp:75-77 | clears readiness |
| Yaml.YamlFormatPlugin.FormatOutput | plugins/yaml_format/yaml_format.cpp:83-206 | not ready is the Other error; otherwise the document-start marker and exactly the RootEntries tree |
| Yaml.YamlFormatPlugin.AddGeneral | plugins/yaml_format/yaml_format.cpp:95-100 | appends the general sub-map when the date has text |
| Yaml.YamlFormatPlugin.AddWeather | plugins/yaml_format/yaml_format.cpp:102-109 | appends the weather sub-map when the temperature has text |
| Yaml.YamlFormatPlugin.AddSystem | plugins/yaml_format/yaml_format.cpp:111-121 | appends the system sub-map when host, os or kernel has text |
| Yaml.YamlFormatPlugin.AddHardware | plugins/yaml_format/yaml_format.cpp:123-166 | appends the hardware sub-map when one of its keys has text |
| Yaml.YamlFormatPlugin.AddSoftware | plugins/yaml_format/yaml_format.cpp:168-174 | appends the software sub-map when shell or packages has text |
| Yaml.YamlFormatPlugin.AddEnvironment | plugins/yaml_format/yaml_format.cpp:176-182 | appends the environment sub-map when de or wm has text |
| Yaml.YamlFormatPlugin.AddPlugins | plugins/yaml_format/yaml_format.cpp:184-199 | appends the plugins sub-map when there is plugin data |
| Yaml.YamlFormatPlugin.BuildWeather | plugins/yaml_format/yaml_format.cpp:104-108 | builds exactly the weather entries |
| Yaml.YamlFormatPlugin.BuildSystem | plugins/yaml_format/yaml_format.cpp:113-120 | builds exactly the system entries |
| Yaml.YamlFormatPlugin.BuildHardware | plugins/yaml_format/yaml_format.cpp:126-165 | builds exactly the hardware entries |
| Yaml.YamlFormatPlugin.BuildPlugins | plugins/yaml_format/yaml_format.cpp:186-198 | the nested loops build exactly PluginNodes |
| Json.GetOptionalU64 | plugins/json_format/json_format.cpp:166-175 | a number is present only for a key with text, and it is below 2^64 |
| Json.GetOptionalU32 | plugins/json_format/json_format.cpp:177-186 | present exactly when the 64-bit parse succeeds, and then below 2^32 |
| Json.GetOptionalI64 | plugins/json_format/json_format.cpp:188-197 | present only for a key with text, and then within the signed 64-bit range |
| Json.OutputWellFormed | plugins/json_format/json_format.cpp:199-228 | every record built has non-empty text members and numbers in their C++ ranges |
| Json.OutputFlattenRoundTrip | plugins/json_format/json_format.cpp:199-228 | each member is read from its own renamed key (kernel→kernelVersion, os→operatingSystem, ram→memInfo, de→desktopEnv, wm→windowMgr, packages→packageCount) and nothing is lost: every well-formed record is rebuilt from the data map it flattens to |
| Json.EmptyTextIsAbsent | plugins/json_format/json_format.cpp:159-197 | a missing key or empty text leaves every kind of member absent |
| Json.UnparsableNumberIsAbsent | plugins/json_format/json_format.cpp:166-197 | text that is not a number leaves the numeric member absent instead of failing the call |
| Json.CoreCountTruncated | plugins/json_format/json_format.cpp:177-186 | a core count keeps only the low 32 bits of the parsed value, and smaller values unchanged |
| Json.FormatNames | plugins/json_format/json_format.cpp:243-245 | the format names are "json" and "json-pretty" |
| Json.FileExtension | plugins/json_format/json_format.cpp:247-249 | the extension is "json" whatever the name |
| Json.JsonFormatPlugin.constructor | plugins/json_format/json_format.cpp:107-110 | a new plugin is not ready |
| Json.JsonFormatPlugin.Initialize | plugins/json_format/json_format.cpp:131-134 | readies the plugin |
| Json.JsonFormatPlugin.Shutdown | plugins/json_format/json_format.cpp:136-138 | clears readiness |
| Json.JsonFormatPlugin.FormatOutput | plugins/json_format/json_format.cpp:144-241 | not ready is the Other error; otherwise pretty exactly for "json-pretty", with the record mapped from the data and the plugin data copied unchanged |

## Left out

- The Windows (NPSM/COM) and macOS (MediaRemote, helper subprocess) now-playing backends are platform code around foreign calls; only the DBus backend is modelled.
- Connecting to the session bus, building and sending method calls, and the 100 ms reply timeout are foreign calls. They become the `Bus` record of replies, including a connection error.
- Freeing DBus messages and cursors (RAII) has no counterpart in the model.
- `DBusMessage.MessageIter.Recurse`: libdbus recursion into a valid cursor cannot fail. The "could not recurse" error branches of the walk (`now_playing.cpp:542-543, 578-579, 585-586, 590-594, 610-614`) are therefore unreachable in the model.
- The curl `Easy` wrapper, HTTP requests, URL escaping and the glaze JSON decoding of provider responses are I/O or external libraries. A provider's round trip is a function parameter returning the decoded response or an error.
- The file I/O of `loadConfig` and `createDefaultConfig` is left out, as is the warning logged for a file that fails to parse. `LoadConfig` receives each file's table already decoded, with None for a file that is missing, unreadable or fails to parse. Since `loadConfig` always returns a configuration, the error branch of `initialize` (`weather.cpp:1084-1087`) cannot be taken, and `ConfigSource` has no error case.
- Writing to the plugin cache (`weather.cpp:1159`) is left out; a cache read is an `Option` argument.
- Temperatures, latitudes and longitudes are exact reals. IEEE rounding, NaN, infinities and -0.0 are not modelled, nor is the `{:.1f}`/`{:.0f}` formatting. A TOML `nan` coordinate, which the (0, 0) test at `weather.cpp:914` accepts as given, cannot be expressed.
- The weather plugin's `getFields` and `getDisplayValue` (`weather.cpp:1172-1199`) print a `double` with a fixed precision, and floating-point printing is not modelled.
- Markdown's `std::stod` plus `std::lround` of the temperature is a function parameter `roundTemperature`, absent when the text does not parse.
- `std::stoull`, `std::stoul` and `std::stoll` are modelled on plain digit strings, with an optional leading '-' for the signed one, and a range check. Their leniency is not modelled: leading white space, a '+' sign, trailing garbage after the digits, and a negated value for the unsigned ones.
- `Json.GetOptionalU32`: `std::stoul` is taken at 64 bits, as on LP64 systems, before the 32-bit truncation. A 32-bit `unsigned long` would reject values above 2^32-1 instead.
- Serialising the JSON record, emitting YAML text with ryml, and glaze's write error (`json_format.cpp:237-238`) are external libraries. The model's result is the record or tree that is written, plus the pretty flag or the document-start marker.
- YAML node references (`ryml::NodeRef`) are modelled as local entry lists appended to the parent.
- `std::map` iteration order for plugin data is the given order of a sequence whose keys are distinct.
- Plugin metadata, provider ids, icons, labels, `toJson` and the `DRAC_PLUGIN` registration are constant boilerplate.
- Logging calls have no effect on results and are left out.

## Findings

| source | as written | input that shows it | evidently intended | confidence | as-written member | corrected member |
|---|---|---|---|---|---|---|
| plugins/weather/weather.cpp:861 | the compiled-in provider is converted with a numeric cast, but the two `Provider` enums list their members in different orders (`WeatherConfig.hpp:29-33` vs `weather.cpp:60-64`) | the default `Config` (OpenMeteo, coordinates 0,0, no key) passes `Validate`, is loaded as OpenWeatherMap, and provider creation fails with "OpenWeatherMap requires an API key" | convert by name, so that a configuration that passes `Validate` keeps its provider and builds it | high (not executed) | WeatherPlugin.OrdinalCastRejectsValidDefault | WeatherPlugin.ValidConfigBuildsProvider |
