/** The YAML output format (plugins/yaml_format/yaml_format.cpp): which
    sections and sub-maps the document tree has, depending on which values
    are non-empty. The tree is a nested key/value datatype; emitting it as
    text is not part of this model. */
module Yaml {
  import opened Common

  /** A node of the document tree: a scalar or a mapping in insertion order. */
  datatype Node = Scalar(text: string) | Mapping(entries: seq<(string, Node)>)

  type Entries = seq<(string, Node)>

  /** The node stored under `key`, the first one if several. */
  function Lookup(entries: Entries, key: string): Option<Node> {
    if entries == [] then None
    else if entries[0].0 == key then Some(entries[0].1)
    else Lookup(entries[1..], key)
  }

  lemma {:induction false} LookupAppend(a: Entries, b: Entries, key: string)
    ensures Lookup(a + b, key) == if Lookup(a, key).Some? then Lookup(a, key) else Lookup(b, key)
    decreases |a|
  {
    if a != [] {
      assert (a + b)[1..] == a[1..] + b;
      LookupAppend(a[1..], b, key);
    } else {
      assert a + b == b;
    }
  }

  /** In a mapping with distinct keys every entry is found under its key. */
  lemma {:induction false} LookupDistinct(entries: Entries, i: nat)
    requires DistinctKeys(entries) && i < |entries|
    ensures Lookup(entries, entries[i].0) == Some(entries[i].1)
    decreases i
  {
    if i > 0 {
      assert entries[0].0 != entries[i].0;
      assert entries[1..][i - 1] == entries[i];
      assert DistinctKeys(entries[1..]) by {
        forall p, q | 0 <= p < q < |entries[1..]|
          ensures entries[1..][p].0 != entries[1..][q].0
        {
          assert entries[1..][p] == entries[p + 1] && entries[1..][q] == entries[q + 1];
        }
      }
      LookupDistinct(entries[1..], i - 1);
    }
  }

  // ---------------------------------------------------------------------
  // Helpers
  // ---------------------------------------------------------------------

  /** The child a present value contributes: a scalar under `key`, or nothing. */
  function Present(key: string, value: Option<string>): Entries {
    if value.Some? then [(key, Scalar(value.value))] else []
  }

  /** addIfPresent: the node gains a scalar child exactly when there is a value. */
  function AddIfPresent(node: Entries, key: string, value: Option<string>): (r: Entries)
    ensures |r| == |node| + (if value.Some? then 1 else 0)
    ensures r[..|node|] == node
    ensures value.Some? ==> r[|node|] == (key, Scalar(value.value))
  {
    node + Present(key, value)
  }

  /** A sub-map under `key` when `present`, otherwise nothing. */
  function SubMap(key: string, present: bool, entries: Entries): Entries {
    if present then [(key, Mapping(entries))] else []
  }

  // ---------------------------------------------------------------------
  // The document tree
  // ---------------------------------------------------------------------

  function GeneralEntries(data: StringMap): Entries {
    Present("date", NonEmptyValue(data, "date"))
  }

  function WeatherEntries(data: StringMap): Entries {
    Present("temperature", NonEmptyValue(data, "weather_temperature"))
    + Present("town", NonEmptyValue(data, "weather_town"))
    + Present("description", NonEmptyValue(data, "weather_description"))
  }

  predicate HasSystem(data: StringMap) {
    NonEmptyValue(data, "host").Some? || NonEmptyValue(data, "os").Some? || NonEmptyValue(data, "kernel").Some?
  }

  function SystemEntries(data: StringMap): Entries {
    Present("host", NonEmptyValue(data, "host"))
    + Present("operating_system", NonEmptyValue(data, "os"))
    + Present("os_name", NonEmptyValue(data, "os_name"))
    + Present("os_version", NonEmptyValue(data, "os_version"))
    + Present("os_id", NonEmptyValue(data, "os_id"))
    + Present("kernel", NonEmptyValue(data, "kernel"))
  }

  predicate HasHardware(data: StringMap) {
    || NonEmptyValue(data, "ram").Some? || NonEmptyValue(data, "disk").Some? || NonEmptyValue(data, "cpu").Some?
    || NonEmptyValue(data, "gpu").Some? || NonEmptyValue(data, "uptime").Some?
  }

  function MemoryEntries(data: StringMap): Entries {
    Present("info", NonEmptyValue(data, "ram"))
    + Present("used_bytes", NonEmptyValue(data, "memory_used_bytes"))
    + Present("total_bytes", NonEmptyValue(data, "memory_total_bytes"))
  }

  function DiskEntries(data: StringMap): Entries {
    Present("info", NonEmptyValue(data, "disk"))
    + Present("used_bytes", NonEmptyValue(data, "disk_used_bytes"))
    + Present("total_bytes", NonEmptyValue(data, "disk_total_bytes"))
  }

  function CpuEntries(data: StringMap): Entries {
    Present("model", NonEmptyValue(data, "cpu"))
    + Present("cores_physical", NonEmptyValue(data, "cpu_cores_physical"))
    + Present("cores_logical", NonEmptyValue(data, "cpu_cores_logical"))
  }

  function UptimeEntries(data: StringMap): Entries {
    Present("formatted", NonEmptyValue(data, "uptime"))
    + Present("seconds", NonEmptyValue(data, "uptime_seconds"))
  }

  function HardwareEntries(data: StringMap): Entries {
    SubMap("memory", NonEmptyValue(data, "ram").Some?, MemoryEntries(data))
    + SubMap("disk", NonEmptyValue(data, "disk").Some?, DiskEntries(data))
    + SubMap("cpu", NonEmptyValue(data, "cpu").Some?, CpuEntries(data))
    + Present("gpu", NonEmptyValue(data, "gpu"))
    + SubMap("uptime", NonEmptyValue(data, "uptime").Some?, UptimeEntries(data))
  }

  predicate HasSoftware(data: StringMap) {
    NonEmptyValue(data, "shell").Some? || NonEmptyValue(data, "packages").Some?
  }

  function SoftwareEntries(data: StringMap): Entries {
    Present("shell", NonEmptyValue(data, "shell")) + Present("package_count", NonEmptyValue(data, "packages"))
  }

  predicate HasEnvironment(data: StringMap) {
    NonEmptyValue(data, "de").Some? || NonEmptyValue(data, "wm").Some?
  }

  function EnvironmentEntries(data: StringMap): Entries {
    Present("desktop_environment", NonEmptyValue(data, "de")) + Present("window_manager", NonEmptyValue(data, "wm"))
  }

  /** A plugin's fields, every value copied as a scalar, empty ones included. */
  function FieldNodes(fields: Fields): Entries {
    seq(|fields|, j requires 0 <= j < |fields| => (fields[j].0, Scalar(fields[j].1)))
  }

  /** One sub-map per plugin, in order. */
  function PluginNodes(pluginData: PluginData): Entries {
    seq(|pluginData|, i requires 0 <= i < |pluginData| => (pluginData[i].0, Mapping(FieldNodes(pluginData[i].1))))
  }

  /** The top-level entries of the document, in the order they are created. */
  function RootEntries(data: StringMap, pluginData: PluginData): Entries {
    SubMap("general", NonEmptyValue(data, "date").Some?, GeneralEntries(data))
    + SubMap("weather", NonEmptyValue(data, "weather_temperature").Some?, WeatherEntries(data))
    + SubMap("system", HasSystem(data), SystemEntries(data))
    + SubMap("hardware", HasHardware(data), HardwareEntries(data))
    + SubMap("software", HasSoftware(data), SoftwareEntries(data))
    + SubMap("environment", HasEnvironment(data), EnvironmentEntries(data))
    + SubMap("plugins", pluginData != [], PluginNodes(pluginData))
  }

  /** The formatted document: the document-start marker and the tree. */
  datatype YamlOutput = YamlOutput(documentStart: string, tree: Node)

  const DOCUMENT_START := "---\n"

  // ---------------------------------------------------------------------
  // Properties of the tree
  // ---------------------------------------------------------------------

  lemma LookupSubMap(key: string, present: bool, entries: Entries, k: string)
    ensures Lookup(SubMap(key, present, entries), k) == if present && k == key then Some(Mapping(entries)) else None
  {
  }

  lemma LookupPresent(key: string, value: Option<string>, k: string)
    ensures Lookup(Present(key, value), k) == if value.Some? && k == key then Some(Scalar(value.value)) else None
  {
  }

  /** The general, weather and system sections each exist exactly when one
      of their own keys has a value. */
  lemma SummarySectionPresence(data: StringMap, pluginData: PluginData)
    ensures Lookup(RootEntries(data, pluginData), "general").Some? <==> NonEmptyValue(data, "date").Some?
    ensures Lookup(RootEntries(data, pluginData), "weather").Some? <==> NonEmptyValue(data, "weather_temperature").Some?
    ensures Lookup(RootEntries(data, pluginData), "system").Some? <==> HasSystem(data)
  {
    RootLookupSplit(data, pluginData, "general");
    RootLookupSplit(data, pluginData, "weather");
    RootLookupSplit(data, pluginData, "system");
  }

  /** The hardware, software, environment and plugins sections each exist
      exactly when one of their own keys has a value, or there is plugin data. */
  lemma DetailSectionPresence(data: StringMap, pluginData: PluginData)
    ensures Lookup(RootEntries(data, pluginData), "hardware").Some? <==> HasHardware(data)
    ensures Lookup(RootEntries(data, pluginData), "software").Some? <==> HasSoftware(data)
    ensures Lookup(RootEntries(data, pluginData), "environment").Some? <==> HasEnvironment(data)
    ensures Lookup(RootEntries(data, pluginData), "plugins").Some? <==> pluginData != []
  {
    RootLookupSplit(data, pluginData, "hardware");
    RootLookupSplit(data, pluginData, "software");
    RootLookupSplit(data, pluginData, "environment");
    RootLookupSplit(data, pluginData, "plugins");
  }

  /** The top-level entry under `k`, section by section. */
  function RootLookup(data: StringMap, pluginData: PluginData, k: string): Option<Node> {
    if k == "general" && NonEmptyValue(data, "date").Some? then Some(Mapping(GeneralEntries(data)))
    else if k == "weather" && NonEmptyValue(data, "weather_temperature").Some? then Some(Mapping(WeatherEntries(data)))
    else if k == "system" && HasSystem(data) then Some(Mapping(SystemEntries(data)))
    else if k == "hardware" && HasHardware(data) then Some(Mapping(HardwareEntries(data)))
    else if k == "software" && HasSoftware(data) then Some(Mapping(SoftwareEntries(data)))
    else if k == "environment" && HasEnvironment(data) then Some(Mapping(EnvironmentEntries(data)))
    else if k == "plugins" && pluginData != [] then Some(Mapping(PluginNodes(pluginData)))
    else None
  }

  lemma RootLookupSplit(data: StringMap, pluginData: PluginData, k: string)
    ensures Lookup(RootEntries(data, pluginData), k) == RootLookup(data, pluginData, k)
  {
    LookupSubMaps(
      ("general", NonEmptyValue(data, "date").Some?, GeneralEntries(data)),
      ("weather", NonEmptyValue(data, "weather_temperature").Some?, WeatherEntries(data)),
      ("system", HasSystem(data), SystemEntries(data)),
      ("hardware", HasHardware(data), HardwareEntries(data)),
      ("software", HasSoftware(data), SoftwareEntries(data)),
      ("environment", HasEnvironment(data), EnvironmentEntries(data)),
      ("plugins", pluginData != [], PluginNodes(pluginData)), k);
  }

  /** A lookup in seven consecutive sub-maps finds the first present one
      under the key. */
  lemma LookupSubMaps(s1: (string, bool, Entries), s2: (string, bool, Entries), s3: (string, bool, Entries),
                      s4: (string, bool, Entries), s5: (string, bool, Entries), s6: (string, bool, Entries),
                      s7: (string, bool, Entries), k: string)
    ensures Lookup(SubMap(s1.0, s1.1, s1.2) + SubMap(s2.0, s2.1, s2.2) + SubMap(s3.0, s3.1, s3.2)
                   + SubMap(s4.0, s4.1, s4.2) + SubMap(s5.0, s5.1, s5.2) + SubMap(s6.0, s6.1, s6.2)
                   + SubMap(s7.0, s7.1, s7.2), k) ==
      if k == s1.0 && s1.1 then Some(Mapping(s1.2))
      else if k == s2.0 && s2.1 then Some(Mapping(s2.2))
      else if k == s3.0 && s3.1 then Some(Mapping(s3.2))
      else if k == s4.0 && s4.1 then Some(Mapping(s4.2))
      else if k == s5.0 && s5.1 then Some(Mapping(s5.2))
      else if k == s6.0 && s6.1 then Some(Mapping(s6.2))
      else if k == s7.0 && s7.1 then Some(Mapping(s7.2))
      else None
  {
    var m1, m2, m3 := SubMap(s1.0, s1.1, s1.2), SubMap(s2.0, s2.1, s2.2), SubMap(s3.0, s3.1, s3.2);
    var m4, m5, m6 := SubMap(s4.0, s4.1, s4.2), SubMap(s5.0, s5.1, s5.2), SubMap(s6.0, s6.1, s6.2);
    var m7 := SubMap(s7.0, s7.1, s7.2);
    LookupAppend(m1, m2, k);
    LookupAppend(m1 + m2, m3, k);
    LookupAppend(m1 + m2 + m3, m4, k);
    LookupAppend(m1 + m2 + m3 + m4, m5, k);
    LookupAppend(m1 + m2 + m3 + m4 + m5, m6, k);
    LookupAppend(m1 + m2 + m3 + m4 + m5 + m6, m7, k);
    LookupSubMap(s1.0, s1.1, s1.2, k);
    LookupSubMap(s2.0, s2.1, s2.2, k);
    LookupSubMap(s3.0, s3.1, s3.2, k);
    LookupSubMap(s4.0, s4.1, s4.2, k);
    LookupSubMap(s5.0, s5.1, s5.2, k);
    LookupSubMap(s6.0, s6.1, s6.2, k);
    LookupSubMap(s7.0, s7.1, s7.2, k);
  }

  /** The operating-system details alone do not create the system section. */
  lemma OsDetailsAloneDoNotCreateSystem(data: StringMap, pluginData: PluginData)
    requires NonEmptyValue(data, "host").None? && NonEmptyValue(data, "os").None? && NonEmptyValue(data, "kernel").None?
    ensures Lookup(RootEntries(data, pluginData), "system").None?
  {
    RootLookupSplit(data, pluginData, "system");
  }

  /** Town and description are never top-level entries; they appear only
      inside the weather section, which holds the temperature. */
  lemma WeatherDetailsOnlyInsideWeather(data: StringMap, pluginData: PluginData)
    ensures Lookup(RootEntries(data, pluginData), "town").None?
    ensures Lookup(RootEntries(data, pluginData), "description").None?
    ensures NonEmptyValue(data, "weather_temperature").Some? ==>
      && Lookup(RootEntries(data, pluginData), "weather") == Some(Mapping(WeatherEntries(data)))
      && Lookup(WeatherEntries(data), "temperature") == Some(Scalar(data["weather_temperature"]))
  {
    RootLookupSplit(data, pluginData, "town");
    RootLookupSplit(data, pluginData, "description");
    RootLookupSplit(data, pluginData, "weather");
    var t := Present("temperature", NonEmptyValue(data, "weather_temperature"));
    var rest := Present("town", NonEmptyValue(data, "weather_town")) + Present("description", NonEmptyValue(data, "weather_description"));
    assert WeatherEntries(data) == t + rest;
    LookupAppend(t, rest, "temperature");
  }

  /** The hardware entry under `k`, sub-map by sub-map. */
  function HardwareLookup(data: StringMap, k: string): Option<Node> {
    if k == "memory" && NonEmptyValue(data, "ram").Some? then Some(Mapping(MemoryEntries(data)))
    else if k == "disk" && NonEmptyValue(data, "disk").Some? then Some(Mapping(DiskEntries(data)))
    else if k == "cpu" && NonEmptyValue(data, "cpu").Some? then Some(Mapping(CpuEntries(data)))
    else if k == "gpu" && NonEmptyValue(data, "gpu").Some? then Some(Scalar(data["gpu"]))
    else if k == "uptime" && NonEmptyValue(data, "uptime").Some? then Some(Mapping(UptimeEntries(data)))
    else None
  }

  lemma HardwareLookupSplit(data: StringMap, k: string)
    ensures Lookup(HardwareEntries(data), k) == HardwareLookup(data, k)
  {
    var m := SubMap("memory", NonEmptyValue(data, "ram").Some?, MemoryEntries(data));
    var d := SubMap("disk", NonEmptyValue(data, "disk").Some?, DiskEntries(data));
    var c := SubMap("cpu", NonEmptyValue(data, "cpu").Some?, CpuEntries(data));
    var g := Present("gpu", NonEmptyValue(data, "gpu"));
    var u := SubMap("uptime", NonEmptyValue(data, "uptime").Some?, UptimeEntries(data));
    LookupAppend(m, d, k);
    LookupAppend(m + d, c, k);
    LookupAppend(m + d + c, g, k);
    LookupAppend(m + d + c + g, u, k);
    LookupSubMap("memory", NonEmptyValue(data, "ram").Some?, MemoryEntries(data), k);
    LookupSubMap("disk", NonEmptyValue(data, "disk").Some?, DiskEntries(data), k);
    LookupSubMap("cpu", NonEmptyValue(data, "cpu").Some?, CpuEntries(data), k);
    LookupPresent("gpu", NonEmptyValue(data, "gpu"), k);
    LookupSubMap("uptime", NonEmptyValue(data, "uptime").Some?, UptimeEntries(data), k);
  }

  /** Within the hardware section, each sub-map exists exactly when its
      primary value is non-empty; the GPU is a plain value. */
  lemma HardwareSubMaps(data: StringMap)
    ensures Lookup(HardwareEntries(data), "memory").Some? <==> NonEmptyValue(data, "ram").Some?
    ensures Lookup(HardwareEntries(data), "disk").Some? <==> NonEmptyValue(data, "disk").Some?
    ensures Lookup(HardwareEntries(data), "cpu").Some? <==> NonEmptyValue(data, "cpu").Some?
    ensures Lookup(HardwareEntries(data), "gpu").Some? <==> NonEmptyValue(data, "gpu").Some?
    ensures Lookup(HardwareEntries(data), "uptime").Some? <==> NonEmptyValue(data, "uptime").Some?
  {
    HardwareLookupSplit(data, "memory");
    HardwareLookupSplit(data, "disk");
    HardwareLookupSplit(data, "cpu");
    HardwareLookupSplit(data, "gpu");
    HardwareLookupSplit(data, "uptime");
  }

  /** Every plugin and every field/value pair is copied into the plugins section. */
  lemma PluginsCopied(pluginData: PluginData, i: nat, j: nat)
    requires DistinctKeys(pluginData) && i < |pluginData|
    requires DistinctKeys(pluginData[i].1) && j < |pluginData[i].1|
    ensures Lookup(PluginNodes(pluginData), pluginData[i].0) == Some(Mapping(FieldNodes(pluginData[i].1)))
    ensures Lookup(FieldNodes(pluginData[i].1), pluginData[i].1[j].0) == Some(Scalar(pluginData[i].1[j].1))
  {
    var nodes := PluginNodes(pluginData);
    assert DistinctKeys(nodes) by {
      forall p, q | 0 <= p < q < |nodes|
        ensures nodes[p].0 != nodes[q].0
      {
        assert nodes[p].0 == pluginData[p].0 && nodes[q].0 == pluginData[q].0;
      }
    }
    LookupDistinct(nodes, i);
    var fields := pluginData[i].1;
    var fieldNodes := FieldNodes(fields);
    assert DistinctKeys(fieldNodes) by {
      forall p, q | 0 <= p < q < |fieldNodes|
        ensures fieldNodes[p].0 != fieldNodes[q].0
      {
        assert fieldNodes[p].0 == fields[p].0 && fieldNodes[q].0 == fields[q].0;
      }
    }
    LookupDistinct(fieldNodes, j);
  }

  // ---------------------------------------------------------------------
  // Plugin
  // ---------------------------------------------------------------------

  const NOT_READY := "YamlFormatPlugin is not ready."

  function FormatNames(): (names: seq<string>)
    ensures names == ["yaml"]
  {
    ["yaml"]
  }

  function FileExtension(formatName: string): (ext: string)
    ensures ext == "yaml"
  {
    "yaml"
  }

  class YamlFormatPlugin {
    var ready: bool

    constructor()
      ensures !ready
    {
      ready := false;
    }

    method Initialize() returns (r: Result<()>)
      modifies this
      ensures ready && r == Ok(())
    {
      ready := true;
      r := Ok(());
    }

    method Shutdown()
      modifies this
      ensures !ready
    {
      ready := false;
    }

    /** Builds the tree section by section, then prefixes the document-start marker. */
    method FormatOutput(formatName: string, data: StringMap, pluginData: PluginData) returns (r: Result<YamlOutput>)
      ensures !ready ==> r == Err(Error(Other, NOT_READY))
      ensures ready ==> r == Ok(YamlOutput(DOCUMENT_START, Mapping(RootEntries(data, pluginData))))
    {
      if !ready {
        return Err(Error(Other, NOT_READY));
      }
      var root: Entries := [];
      root := AddGeneral(root, data);
      assert root == SubMap("general", NonEmptyValue(data, "date").Some?, GeneralEntries(data));
      root := AddWeather(root, data);
      root := AddSystem(root, data);
      root := AddHardware(root, data);
      root := AddSoftware(root, data);
      root := AddEnvironment(root, data);
      root := AddPlugins(root, pluginData);
      r := Ok(YamlOutput(DOCUMENT_START, Mapping(root)));
    }

    static method AddGeneral(root: Entries, data: StringMap) returns (r: Entries)
      ensures r == root + SubMap("general", NonEmptyValue(data, "date").Some?, GeneralEntries(data))
    {
      r := root;
      if NonEmptyValue(data, "date").Some? {
        var general: Entries := [];
        general := AddIfPresent(general, "date", NonEmptyValue(data, "date"));
        assert general == GeneralEntries(data);
        r := r + [("general", Mapping(general))];
      }
    }

    static method AddWeather(root: Entries, data: StringMap) returns (r: Entries)
      ensures r == root + SubMap("weather", NonEmptyValue(data, "weather_temperature").Some?, WeatherEntries(data))
    {
      r := root;
      if NonEmptyValue(data, "weather_temperature").Some? {
        var weather := BuildWeather(data);
        r := r + [("weather", Mapping(weather))];
      }
    }

    static method AddSystem(root: Entries, data: StringMap) returns (r: Entries)
      ensures r == root + SubMap("system", HasSystem(data), SystemEntries(data))
    {
      r := root;
      if NonEmptyValue(data, "host").Some? || NonEmptyValue(data, "os").Some? || NonEmptyValue(data, "kernel").Some? {
        var system := BuildSystem(data);
        r := r + [("system", Mapping(system))];
      }
    }

    static method AddHardware(root: Entries, data: StringMap) returns (r: Entries)
      ensures r == root + SubMap("hardware", HasHardware(data), HardwareEntries(data))
    {
      r := root;
      if || NonEmptyValue(data, "ram").Some? || NonEmptyValue(data, "disk").Some? || NonEmptyValue(data, "cpu").Some?
         || NonEmptyValue(data, "gpu").Some? || NonEmptyValue(data, "uptime").Some? {
        var hardware := BuildHardware(data);
        r := r + [("hardware", Mapping(hardware))];
      }
    }

    static method AddSoftware(root: Entries, data: StringMap) returns (r: Entries)
      ensures r == root + SubMap("software", HasSoftware(data), SoftwareEntries(data))
    {
      r := root;
      if NonEmptyValue(data, "shell").Some? || NonEmptyValue(data, "packages").Some? {
        var software: Entries := [];
        software := AddIfPresent(software, "shell", NonEmptyValue(data, "shell"));
        software := AddIfPresent(software, "package_count", NonEmptyValue(data, "packages"));
        assert software == SoftwareEntries(data);
        r := r + [("software", Mapping(software))];
      }
    }

    static method AddEnvironment(root: Entries, data: StringMap) returns (r: Entries)
      ensures r == root + SubMap("environment", HasEnvironment(data), EnvironmentEntries(data))
    {
      r := root;
      if NonEmptyValue(data, "de").Some? || NonEmptyValue(data, "wm").Some? {
        var environment: Entries := [];
        environment := AddIfPresent(environment, "desktop_environment", NonEmptyValue(data, "de"));
        environment := AddIfPresent(environment, "window_manager", NonEmptyValue(data, "wm"));
        assert environment == EnvironmentEntries(data);
        r := r + [("environment", Mapping(environment))];
      }
    }

    static method AddPlugins(root: Entries, pluginData: PluginData) returns (r: Entries)
      ensures r == root + SubMap("plugins", pluginData != [], PluginNodes(pluginData))
    {
      r := root;
      if pluginData != [] {
        var plugins := BuildPlugins(pluginData);
        r := r + [("plugins", Mapping(plugins))];
      }
    }

    static method BuildWeather(data: StringMap) returns (weather: Entries)
      ensures weather == WeatherEntries(data)
    {
      weather := [];
      weather := AddIfPresent(weather, "temperature", NonEmptyValue(data, "weather_temperature"));
      weather := AddIfPresent(weather, "town", NonEmptyValue(data, "weather_town"));
      weather := AddIfPresent(weather, "description", NonEmptyValue(data, "weather_description"));
    }

    static method BuildSystem(data: StringMap) returns (system: Entries)
      ensures system == SystemEntries(data)
    {
      system := [];
      system := AddIfPresent(system, "host", NonEmptyValue(data, "host"));
      system := AddIfPresent(system, "operating_system", NonEmptyValue(data, "os"));
      system := AddIfPresent(system, "os_name", NonEmptyValue(data, "os_name"));
      system := AddIfPresent(system, "os_version", NonEmptyValue(data, "os_version"));
      system := AddIfPresent(system, "os_id", NonEmptyValue(data, "os_id"));
      system := AddIfPresent(system, "kernel", NonEmptyValue(data, "kernel"));
    }

    static method BuildHardware(data: StringMap) returns (hardware: Entries)
      ensures hardware == HardwareEntries(data)
    {
      hardware := [];
      if NonEmptyValue(data, "ram").Some? {
        var memory: Entries := [];
        memory := AddIfPresent(memory, "info", NonEmptyValue(data, "ram"));
        memory := AddIfPresent(memory, "used_bytes", NonEmptyValue(data, "memory_used_bytes"));
        memory := AddIfPresent(memory, "total_bytes", NonEmptyValue(data, "memory_total_bytes"));
        assert memory == MemoryEntries(data);
        hardware := hardware + [("memory", Mapping(memory))];
      }
      ghost var expected := SubMap("memory", NonEmptyValue(data, "ram").Some?, MemoryEntries(data));
      assert hardware == expected;
      if NonEmptyValue(data, "disk").Some? {
        var disk: Entries := [];
        disk := AddIfPresent(disk, "info", NonEmptyValue(data, "disk"));
        disk := AddIfPresent(disk, "used_bytes", NonEmptyValue(data, "disk_used_bytes"));
        disk := AddIfPresent(disk, "total_bytes", NonEmptyValue(data, "disk_total_bytes"));
        assert disk == DiskEntries(data);
        hardware := hardware + [("disk", Mapping(disk))];
      }
      expected := expected + SubMap("disk", NonEmptyValue(data, "disk").Some?, DiskEntries(data));
      assert hardware == expected;
      if NonEmptyValue(data, "cpu").Some? {
        var cpu: Entries := [];
        cpu := AddIfPresent(cpu, "model", NonEmptyValue(data, "cpu"));
        cpu := AddIfPresent(cpu, "cores_physical", NonEmptyValue(data, "cpu_cores_physical"));
        cpu := AddIfPresent(cpu, "cores_logical", NonEmptyValue(data, "cpu_cores_logical"));
        assert cpu == CpuEntries(data);
        hardware := hardware + [("cpu", Mapping(cpu))];
      }
      expected := expected + SubMap("cpu", NonEmptyValue(data, "cpu").Some?, CpuEntries(data));
      assert hardware == expected;
      hardware := AddIfPresent(hardware, "gpu", NonEmptyValue(data, "gpu"));
      expected := expected + Present("gpu", NonEmptyValue(data, "gpu"));
      assert hardware == expected;
      if NonEmptyValue(data, "uptime").Some? {
        var uptime: Entries := [];
        uptime := AddIfPresent(uptime, "formatted", NonEmptyValue(data, "uptime"));
        uptime := AddIfPresent(uptime, "seconds", NonEmptyValue(data, "uptime_seconds"));
        assert uptime == UptimeEntries(data);
        hardware := hardware + [("uptime", Mapping(uptime))];
      }
      expected := expected + SubMap("uptime", NonEmptyValue(data, "uptime").Some?, UptimeEntries(data));
      assert hardware == expected;
    }

    /** One sub-map per plugin, filled field by field. */
    static method BuildPlugins(pluginData: PluginData) returns (plugins: Entries)
      ensures plugins == PluginNodes(pluginData)
    {
      plugins := [];
      var i := 0;
      while i < |pluginData|
        invariant 0 <= i <= |pluginData|
        invariant plugins == PluginNodes(pluginData[..i])
      {
        var (pluginId, fields) := pluginData[i];
        var node: Entries := [];
        var j := 0;
        while j < |fields|
          invariant 0 <= j <= |fields|
          invariant node == FieldNodes(fields[..j])
        {
          node := node + [(fields[j].0, Scalar(fields[j].1))];
          j := j + 1;
        }
        assert fields[..j] == fields;
        plugins := plugins + [(pluginId, Mapping(node))];
        i := i + 1;
      }
      assert pluginData[..i] == pluginData;
    }
  }
}
