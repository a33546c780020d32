/**
 * The JSON output format plugin: the mapping from the flat data map onto a
 * record of optional fields (renamed keys, empty text and unparsable numbers
 * become absent), the choice between compact and pretty output, and the
 * format names and file extension it answers to.
 */
module Json {
  import opened Common

  // ---------------------------------------------------------------------
  // The output record
  // ---------------------------------------------------------------------

  /** The serialised record; absent members are skipped when written. */
  datatype JsonOutput = JsonOutput(
    date: Option<string>,
    host: Option<string>,
    kernelVersion: Option<string>,
    operatingSystem: Option<string>,
    osName: Option<string>,
    osVersion: Option<string>,
    osId: Option<string>,
    memInfo: Option<string>,
    memUsedBytes: Option<nat>,
    memTotalBytes: Option<nat>,
    desktopEnv: Option<string>,
    windowMgr: Option<string>,
    diskUsage: Option<string>,
    diskUsedBytes: Option<nat>,
    diskTotalBytes: Option<nat>,
    shell: Option<string>,
    cpuModel: Option<string>,
    cpuCoresPhysical: Option<nat>,
    cpuCoresLogical: Option<nat>,
    gpuModel: Option<string>,
    uptime: Option<string>,
    uptimeSeconds: Option<int>,
    packageCount: Option<nat>,
    weatherTemperature: Option<string>,
    weatherDescription: Option<string>,
    weatherTown: Option<string>,
    pluginFields: PluginData)

  /** A freshly constructed record: every member absent, no plugin fields. */
  const EMPTY_OUTPUT := JsonOutput(None, None, None, None, None, None, None, None, None, None, None, None, None,
                                   None, None, None, None, None, None, None, None, None, None, None, None, None, [])

  // ---------------------------------------------------------------------
  // Reading the data map
  // ---------------------------------------------------------------------

  /** An unsigned 64-bit number under `key`, absent when the key is missing,
      its text is empty or the text does not parse. */
  function GetOptionalU64(data: StringMap, key: string): (r: Option<nat>)
    ensures r.Some? ==> NonEmptyValue(data, key).Some? && r.value < U64_MODULUS
  {
    match NonEmptyValue(data, key)
    case None => None
    case Some(text) => ParseU64(text)
  }

  /** An unsigned number under `key` parsed at full width and then cut down to
      its low 32 bits. */
  function GetOptionalU32(data: StringMap, key: string): (r: Option<nat>)
    ensures r.Some? ==> NonEmptyValue(data, key).Some? && r.value < U32_MODULUS
    ensures r.Some? <==> GetOptionalU64(data, key).Some?
  {
    match NonEmptyValue(data, key)
    case None => None
    case Some(text) =>
      match ParseU64(text)
      case None => None
      case Some(n) => Some(n % U32_MODULUS)
  }

  /** A signed 64-bit number under `key`, absent under the same conditions. */
  function GetOptionalI64(data: StringMap, key: string): (r: Option<int>)
    ensures r.Some? ==> NonEmptyValue(data, key).Some? && I64_MIN <= r.value <= I64_MAX
  {
    match NonEmptyValue(data, key)
    case None => None
    case Some(text) => ParseI64(text)
  }

  /** The record built from the data map and the plugin data. */
  function Output(data: StringMap, pluginData: PluginData): JsonOutput {
    JsonOutput(
      NonEmptyValue(data, "date"),
      NonEmptyValue(data, "host"),
      NonEmptyValue(data, "kernel"),
      NonEmptyValue(data, "os"),
      NonEmptyValue(data, "os_name"),
      NonEmptyValue(data, "os_version"),
      NonEmptyValue(data, "os_id"),
      NonEmptyValue(data, "ram"),
      GetOptionalU64(data, "memory_used_bytes"),
      GetOptionalU64(data, "memory_total_bytes"),
      NonEmptyValue(data, "de"),
      NonEmptyValue(data, "wm"),
      NonEmptyValue(data, "disk"),
      GetOptionalU64(data, "disk_used_bytes"),
      GetOptionalU64(data, "disk_total_bytes"),
      NonEmptyValue(data, "shell"),
      NonEmptyValue(data, "cpu"),
      GetOptionalU32(data, "cpu_cores_physical"),
      GetOptionalU32(data, "cpu_cores_logical"),
      NonEmptyValue(data, "gpu"),
      NonEmptyValue(data, "uptime"),
      GetOptionalI64(data, "uptime_seconds"),
      GetOptionalU64(data, "packages"),
      NonEmptyValue(data, "weather_temperature"),
      NonEmptyValue(data, "weather_description"),
      NonEmptyValue(data, "weather_town"),
      pluginData)
  }

  // ---------------------------------------------------------------------
  // The reverse mapping
  // ---------------------------------------------------------------------

  /** A record the mapping can produce: present text is non-empty and every
      number lies in the range of its C++ type. */
  predicate WellFormed(o: JsonOutput) {
    && (o.date.Some? ==> o.date.value != "")
    && (o.host.Some? ==> o.host.value != "")
    && (o.kernelVersion.Some? ==> o.kernelVersion.value != "")
    && (o.operatingSystem.Some? ==> o.operatingSystem.value != "")
    && (o.osName.Some? ==> o.osName.value != "")
    && (o.osVersion.Some? ==> o.osVersion.value != "")
    && (o.osId.Some? ==> o.osId.value != "")
    && (o.memInfo.Some? ==> o.memInfo.value != "")
    && (o.memUsedBytes.Some? ==> o.memUsedBytes.value < U64_MODULUS)
    && (o.memTotalBytes.Some? ==> o.memTotalBytes.value < U64_MODULUS)
    && (o.desktopEnv.Some? ==> o.desktopEnv.value != "")
    && (o.windowMgr.Some? ==> o.windowMgr.value != "")
    && (o.diskUsage.Some? ==> o.diskUsage.value != "")
    && (o.diskUsedBytes.Some? ==> o.diskUsedBytes.value < U64_MODULUS)
    && (o.diskTotalBytes.Some? ==> o.diskTotalBytes.value < U64_MODULUS)
    && (o.shell.Some? ==> o.shell.value != "")
    && (o.cpuModel.Some? ==> o.cpuModel.value != "")
    && (o.cpuCoresPhysical.Some? ==> o.cpuCoresPhysical.value < U32_MODULUS)
    && (o.cpuCoresLogical.Some? ==> o.cpuCoresLogical.value < U32_MODULUS)
    && (o.gpuModel.Some? ==> o.gpuModel.value != "")
    && (o.uptime.Some? ==> o.uptime.value != "")
    && (o.uptimeSeconds.Some? ==> I64_MIN <= o.uptimeSeconds.value <= I64_MAX)
    && (o.packageCount.Some? ==> o.packageCount.value < U64_MODULUS)
    && (o.weatherTemperature.Some? ==> o.weatherTemperature.value != "")
    && (o.weatherDescription.Some? ==> o.weatherDescription.value != "")
    && (o.weatherTown.Some? ==> o.weatherTown.value != "")
  }

  function NumberText(n: Option<nat>): Option<string> {
    match n
    case None => None
    case Some(v) => Some(NatToString(v))
  }

  /** The data-map text a member of the record was read from, by data-map key. */
  function SourceText(o: JsonOutput, key: string): Option<string> {
    if key == "date" then o.date
    else if key == "host" then o.host
    else if key == "kernel" then o.kernelVersion
    else if key == "os" then o.operatingSystem
    else if key == "os_name" then o.osName
    else if key == "os_version" then o.osVersion
    else if key == "os_id" then o.osId
    else if key == "ram" then o.memInfo
    else if key == "memory_used_bytes" then NumberText(o.memUsedBytes)
    else if key == "memory_total_bytes" then NumberText(o.memTotalBytes)
    else if key == "de" then o.desktopEnv
    else if key == "wm" then o.windowMgr
    else if key == "disk" then o.diskUsage
    else if key == "disk_used_bytes" then NumberText(o.diskUsedBytes)
    else if key == "disk_total_bytes" then NumberText(o.diskTotalBytes)
    else if key == "shell" then o.shell
    else if key == "cpu" then o.cpuModel
    else if key == "cpu_cores_physical" then NumberText(o.cpuCoresPhysical)
    else if key == "cpu_cores_logical" then NumberText(o.cpuCoresLogical)
    else if key == "gpu" then o.gpuModel
    else if key == "uptime" then o.uptime
    else if key == "uptime_seconds" then (if o.uptimeSeconds.Some? then Some(IntToString(o.uptimeSeconds.value)) else None)
    else if key == "packages" then NumberText(o.packageCount)
    else if key == "weather_temperature" then o.weatherTemperature
    else if key == "weather_description" then o.weatherDescription
    else if key == "weather_town" then o.weatherTown
    else None
  }

  /** The data-map keys the record is read from. */
  const DATA_KEYS: set<string> := {
    "date", "host", "kernel", "os", "os_name", "os_version", "os_id", "ram",
    "memory_used_bytes", "memory_total_bytes", "de", "wm", "disk", "disk_used_bytes",
    "disk_total_bytes", "shell", "cpu", "cpu_cores_physical", "cpu_cores_logical", "gpu",
    "uptime", "uptime_seconds", "packages", "weather_temperature", "weather_description", "weather_town"
  }

  /** The data map a record was built from, with numbers printed in decimal. */
  function Flatten(o: JsonOutput): StringMap {
    map key | key in DATA_KEYS && SourceText(o, key).Some? :: SourceText(o, key).value
  }

  // ---------------------------------------------------------------------
  // Properties of the mapping
  // ---------------------------------------------------------------------

  /** Every record the mapping builds is well formed. */
  lemma OutputWellFormed(data: StringMap, pluginData: PluginData)
    ensures WellFormed(Output(data, pluginData))
  {
  }

  /** A present text member comes back from the data map it was flattened into. */
  lemma FlattenText(o: JsonOutput, key: string, field: Option<string>)
    requires key in DATA_KEYS && SourceText(o, key) == field
    requires field.Some? ==> field.value != ""
    ensures NonEmptyValue(Flatten(o), key) == field
  {
  }

  /** A present unsigned member comes back through printing and parsing. */
  lemma FlattenU64(o: JsonOutput, key: string, field: Option<nat>)
    requires key in DATA_KEYS && SourceText(o, key) == NumberText(field)
    requires field.Some? ==> field.value < U64_MODULUS
    ensures GetOptionalU64(Flatten(o), key) == field
  {
    if field.Some? {
      ParseU64RoundTrip(field.value);
    }
  }

  lemma FlattenU32(o: JsonOutput, key: string, field: Option<nat>)
    requires key in DATA_KEYS && SourceText(o, key) == NumberText(field)
    requires field.Some? ==> field.value < U32_MODULUS
    ensures GetOptionalU32(Flatten(o), key) == field
  {
    if field.Some? {
      var n := field.value;
      assert NonEmptyValue(Flatten(o), key) == Some(NatToString(n));
      ParseU64RoundTrip(n);
      assert n % U32_MODULUS == n;
    }
  }

  lemma FlattenI64(o: JsonOutput, key: string, field: Option<int>)
    requires key in DATA_KEYS
    requires SourceText(o, key) == if field.Some? then Some(IntToString(field.value)) else None
    requires field.Some? ==> I64_MIN <= field.value <= I64_MAX
    ensures GetOptionalI64(Flatten(o), key) == field
  {
    if field.Some? {
      assert NonEmptyValue(Flatten(o), key) == Some(IntToString(field.value));
      ParseI64RoundTrip(field.value);
    }
  }

  lemma RoundTripHost(o: JsonOutput)
    requires WellFormed(o)
    ensures Output(Flatten(o), o.pluginFields).date == o.date
    ensures Output(Flatten(o), o.pluginFields).host == o.host
    ensures Output(Flatten(o), o.pluginFields).kernelVersion == o.kernelVersion
  {
    FlattenText(o, "date", o.date);
    FlattenText(o, "host", o.host);
    FlattenText(o, "kernel", o.kernelVersion);
  }

  lemma RoundTripOs(o: JsonOutput)
    requires WellFormed(o)
    ensures Output(Flatten(o), o.pluginFields).operatingSystem == o.operatingSystem
    ensures Output(Flatten(o), o.pluginFields).osName == o.osName
    ensures Output(Flatten(o), o.pluginFields).osVersion == o.osVersion
  {
    FlattenText(o, "os", o.operatingSystem);
    FlattenText(o, "os_name", o.osName);
    FlattenText(o, "os_version", o.osVersion);
  }

  lemma RoundTripMemory(o: JsonOutput)
    requires WellFormed(o)
    ensures Output(Flatten(o), o.pluginFields).osId == o.osId
    ensures Output(Flatten(o), o.pluginFields).memInfo == o.memInfo
    ensures Output(Flatten(o), o.pluginFields).memUsedBytes == o.memUsedBytes
  {
    FlattenText(o, "os_id", o.osId);
    FlattenText(o, "ram", o.memInfo);
    FlattenU64(o, "memory_used_bytes", o.memUsedBytes);
  }

  lemma RoundTripSession(o: JsonOutput)
    requires WellFormed(o)
    ensures Output(Flatten(o), o.pluginFields).memTotalBytes == o.memTotalBytes
    ensures Output(Flatten(o), o.pluginFields).desktopEnv == o.desktopEnv
    ensures Output(Flatten(o), o.pluginFields).windowMgr == o.windowMgr
  {
    FlattenU64(o, "memory_total_bytes", o.memTotalBytes);
    FlattenText(o, "de", o.desktopEnv);
    FlattenText(o, "wm", o.windowMgr);
  }

  lemma RoundTripDisk(o: JsonOutput)
    requires WellFormed(o)
    ensures Output(Flatten(o), o.pluginFields).diskUsage == o.diskUsage
    ensures Output(Flatten(o), o.pluginFields).diskUsedBytes == o.diskUsedBytes
    ensures Output(Flatten(o), o.pluginFields).diskTotalBytes == o.diskTotalBytes
  {
    FlattenText(o, "disk", o.diskUsage);
    FlattenU64(o, "disk_used_bytes", o.diskUsedBytes);
    FlattenU64(o, "disk_total_bytes", o.diskTotalBytes);
  }

  lemma RoundTripCpu(o: JsonOutput)
    requires WellFormed(o)
    ensures Output(Flatten(o), o.pluginFields).shell == o.shell
    ensures Output(Flatten(o), o.pluginFields).cpuModel == o.cpuModel
    ensures Output(Flatten(o), o.pluginFields).cpuCoresPhysical == o.cpuCoresPhysical
  {
    FlattenText(o, "shell", o.shell);
    FlattenText(o, "cpu", o.cpuModel);
    FlattenU32(o, "cpu_cores_physical", o.cpuCoresPhysical);
  }

  lemma RoundTripGpu(o: JsonOutput)
    requires WellFormed(o)
    ensures Output(Flatten(o), o.pluginFields).cpuCoresLogical == o.cpuCoresLogical
    ensures Output(Flatten(o), o.pluginFields).gpuModel == o.gpuModel
    ensures Output(Flatten(o), o.pluginFields).uptime == o.uptime
  {
    FlattenU32(o, "cpu_cores_logical", o.cpuCoresLogical);
    FlattenText(o, "gpu", o.gpuModel);
    FlattenText(o, "uptime", o.uptime);
  }

  lemma RoundTripUptime(o: JsonOutput)
    requires WellFormed(o)
    ensures Output(Flatten(o), o.pluginFields).uptimeSeconds == o.uptimeSeconds
    ensures Output(Flatten(o), o.pluginFields).packageCount == o.packageCount
  {
    FlattenI64(o, "uptime_seconds", o.uptimeSeconds);
    FlattenU64(o, "packages", o.packageCount);
  }

  lemma RoundTripWeather(o: JsonOutput)
    requires WellFormed(o)
    ensures Output(Flatten(o), o.pluginFields).weatherTemperature == o.weatherTemperature
    ensures Output(Flatten(o), o.pluginFields).weatherDescription == o.weatherDescription
    ensures Output(Flatten(o), o.pluginFields).weatherTown == o.weatherTown
  {
    FlattenText(o, "weather_temperature", o.weatherTemperature);
    FlattenText(o, "weather_description", o.weatherDescription);
    FlattenText(o, "weather_town", o.weatherTown);
  }

  /** The mapping loses nothing: every well-formed record is rebuilt exactly
      from the data map it flattens to and its own plugin fields. */
  lemma OutputFlattenRoundTrip(o: JsonOutput)
    requires WellFormed(o)
    ensures Output(Flatten(o), o.pluginFields) == o
  {
    RoundTripHost(o);
    RoundTripOs(o);
    RoundTripMemory(o);
    RoundTripSession(o);
    RoundTripDisk(o);
    RoundTripCpu(o);
    RoundTripGpu(o);
    RoundTripUptime(o);
    RoundTripWeather(o);
  }

  /** A number whose text does not parse leaves its member absent instead of
      failing the whole call. */
  lemma UnparsableNumberIsAbsent(data: StringMap, key: string)
    requires key in data && !AllDigits(data[key])
    ensures GetOptionalU64(data, key).None? && GetOptionalU32(data, key).None?
    ensures (|data[key]| == 0 || data[key][0] != '-') ==> GetOptionalI64(data, key).None?
  {
  }

  /** A missing key or empty text leaves every kind of member absent. */
  lemma EmptyTextIsAbsent(data: StringMap, key: string)
    requires key !in data || data[key] == ""
    ensures NonEmptyValue(data, key).None? && GetOptionalU64(data, key).None?
    ensures GetOptionalU32(data, key).None? && GetOptionalI64(data, key).None?
  {
  }

  /** The core counts keep only the low 32 bits of the parsed value. */
  lemma CoreCountTruncated(data: StringMap, key: string, n: nat)
    requires n < U64_MODULUS && key in data && data[key] == NatToString(n)
    ensures GetOptionalU32(data, key) == Some(n % U32_MODULUS)
    ensures n < U32_MODULUS ==> GetOptionalU32(data, key) == Some(n)
  {
    ParseU64RoundTrip(n);
  }

  // ---------------------------------------------------------------------
  // The plugin
  // ---------------------------------------------------------------------

  const FORMAT_JSON := "json"
  const FORMAT_JSON_PRETTY := "json-pretty"
  const NOT_READY := "JsonFormatPlugin is not ready."

  function FormatNames(): (names: seq<string>)
    ensures names == ["json", "json-pretty"]
  {
    [FORMAT_JSON, FORMAT_JSON_PRETTY]
  }

  /** The extension is "json" whatever the format name. */
  function FileExtension(formatName: string): (ext: string)
    ensures ext == "json"
  {
    "json"
  }

  /** What is written: the record and whether it is pretty-printed. */
  datatype JsonDocument = JsonDocument(pretty: bool, output: JsonOutput)

  class JsonFormatPlugin {
    var ready: bool

    constructor ()
      ensures !ready
    {
      ready := false;
    }

    method Initialize() returns (r: Result<()>)
      modifies this
      ensures ready && r == Ok(())
    {
      ready := true;
      r := Ok(());
    }

    method Shutdown()
      modifies this
      ensures !ready
    {
      ready := false;
    }

    /** The document for `formatName`: pretty exactly for "json-pretty", and
        the record mapped from `data` with the plugin data copied unchanged. */
    method FormatOutput(formatName: string, data: StringMap, pluginData: PluginData) returns (r: Result<JsonDocument>)
      ensures !ready ==> r == Err(Error(Other, NOT_READY))
      ensures ready ==> r.Ok? && (r.value.pretty <==> formatName == FORMAT_JSON_PRETTY)
      ensures ready ==> r.Ok? && r.value.output == Output(data, pluginData)
    {
      if !ready {
        return Err(Error(Other, NOT_READY));
      }
      var prettyPrint := formatName == FORMAT_JSON_PRETTY;
      var output := EMPTY_OUTPUT;
      output := output.(date := NonEmptyValue(data, "date"));
      output := output.(host := NonEmptyValue(data, "host"));
      output := output.(kernelVersion := NonEmptyValue(data, "kernel"));
      output := output.(operatingSystem := NonEmptyValue(data, "os"));
      output := output.(osName := NonEmptyValue(data, "os_name"));
      output := output.(osVersion := NonEmptyValue(data, "os_version"));
      output := output.(osId := NonEmptyValue(data, "os_id"));
      output := output.(memInfo := NonEmptyValue(data, "ram"));
      output := output.(memUsedBytes := GetOptionalU64(data, "memory_used_bytes"));
      output := output.(memTotalBytes := GetOptionalU64(data, "memory_total_bytes"));
      output := output.(desktopEnv := NonEmptyValue(data, "de"));
      output := output.(windowMgr := NonEmptyValue(data, "wm"));
      output := output.(diskUsage := NonEmptyValue(data, "disk"));
      output := output.(diskUsedBytes := GetOptionalU64(data, "disk_used_bytes"));
      output := output.(diskTotalBytes := GetOptionalU64(data, "disk_total_bytes"));
      output := output.(shell := NonEmptyValue(data, "shell"));
      output := output.(cpuModel := NonEmptyValue(data, "cpu"));
      output := output.(cpuCoresPhysical := GetOptionalU32(data, "cpu_cores_physical"));
      output := output.(cpuCoresLogical := GetOptionalU32(data, "cpu_cores_logical"));
      output := output.(gpuModel := NonEmptyValue(data, "gpu"));
      output := output.(uptime := NonEmptyValue(data, "uptime"));
      output := output.(uptimeSeconds := GetOptionalI64(data, "uptime_seconds"));
      output := output.(packageCount := GetOptionalU64(data, "packages"));
      output := output.(weatherTemperature := NonEmptyValue(data, "weather_temperature"));
      output := output.(weatherDescription := NonEmptyValue(data, "weather_description"));
      output := output.(weatherTown := NonEmptyValue(data, "weather_town"));
      output := output.(pluginFields := pluginData);
      r := Ok(JsonDocument(prettyPrint, output));
    }
  }
}
