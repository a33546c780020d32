/** The Markdown output format (plugins/markdown_format/markdown_format.cpp):
    a buffered builder that writes a section header only when the section
    received a line, and the document the plugin drives it to produce. */
module Markdown {
  import opened Common

  // ---------------------------------------------------------------------
  // Text pieces
  // ---------------------------------------------------------------------

  /** "- **caption**: value" and a newline. */
  function LineText(caption: string, value: string): (r: string)
    ensures |r| > 0
  {
    "- **" + caption + "**: " + value + "\n"
  }

  function HeaderText(title: string): string {
    "## " + title + "\n\n"
  }

  /** What a pending section adds to the document: nothing when it has no line. */
  function Flushed(header: string, buffer: string): string {
    if buffer == "" then "" else header + buffer + "\n"
  }

  /** The line `line` adds: none for an empty value. */
  function LineIfPresent(caption: string, value: string): string {
    if value == "" then "" else LineText(caption, value)
  }

  /** The line `mapEntry` adds: one exactly when the key is present with a non-empty value. */
  function EntryText(data: StringMap, key: string, caption: string): string {
    match NonEmptyValue(data, key)
    case None => ""
    case Some(value) => LineIfPresent(caption, value)
  }

  lemma EntryTextRule(data: StringMap, key: string, caption: string)
    ensures EntryText(data, key, caption) != "" <==> NonEmptyValue(data, key).Some?
    ensures EntryText(data, key, caption) != "" ==> EntryText(data, key, caption) == LineText(caption, data[key])
  {
  }

  // ---------------------------------------------------------------------
  // Builder
  // ---------------------------------------------------------------------

  class MarkdownBuilder {
    var fullDoc: string
    var sectionBuffer: string
    var header: string

    constructor()
      ensures fullDoc == "" && sectionBuffer == "" && header == ""
    {
      fullDoc := "";
      sectionBuffer := "";
      header := "";
    }

    /** Appends the pending section, header first, only if it has content. */
    method Commit()
      modifies this
      ensures fullDoc == old(fullDoc) + Flushed(old(header), old(sectionBuffer))
      ensures sectionBuffer == "" && header == old(header)
    {
      if sectionBuffer != "" {
        fullDoc := fullDoc + header;
        fullDoc := fullDoc + sectionBuffer;
        fullDoc := fullDoc + "\n";
        sectionBuffer := "";
      }
    }

    /** Commits the pending section and starts a new one titled `title`. */
    method Section(title: string)
      modifies this
      ensures fullDoc == old(fullDoc) + Flushed(old(header), old(sectionBuffer))
      ensures sectionBuffer == "" && header == HeaderText(title)
    {
      Commit();
      header := HeaderText(title);
    }

    method Line(caption: string, value: string)
      modifies this
      ensures fullDoc == old(fullDoc) && header == old(header)
      ensures sectionBuffer == old(sectionBuffer) + LineIfPresent(caption, value)
    {
      if value != "" {
        sectionBuffer := sectionBuffer + LineText(caption, value);
      }
    }

    method MapEntry(data: StringMap, key: string, caption: string)
      modifies this
      ensures fullDoc == old(fullDoc) && header == old(header)
      ensures sectionBuffer == old(sectionBuffer) + EntryText(data, key, caption)
    {
      if key in data && data[key] != "" {
        Line(caption, data[key]);
      }
    }

    /** Commits the pending section, then appends `text` verbatim. */
    method Raw(text: string)
      modifies this
      ensures fullDoc == old(fullDoc) + Flushed(old(header), old(sectionBuffer)) + text
      ensures sectionBuffer == "" && header == old(header)
    {
      Commit();
      fullDoc := fullDoc + text;
    }

    /** Commits the pending section and hands over the document. */
    method Build() returns (doc: string)
      modifies this
      ensures doc == old(fullDoc) + Flushed(old(header), old(sectionBuffer))
      ensures sectionBuffer == ""
    {
      Commit();
      doc := fullDoc;
    }
  }

  /** A pending section with no line leaves the document as it is, and one
      with lines adds its header, its lines and a blank line. */
  lemma FlushedRules(header: string, buffer: string)
    ensures Flushed(header, buffer) == "" <==> buffer == ""
    ensures buffer != "" ==> StartsWith(Flushed(header, buffer), header + buffer)
  {
    if buffer != "" {
      var f := Flushed(header, buffer);
      assert f[..|header + buffer|] == header + buffer;
    }
  }

  // ---------------------------------------------------------------------
  // The document
  // ---------------------------------------------------------------------

  const TITLE := "# System Information\n\n"
  const PLUGIN_DATA_HEADER := "## Plugin Data\n\n"
  const DEGREE := "\U{00B0}"

  function SectionText(title: string, body: string): string {
    Flushed(HeaderText(title), body)
  }

  /** The weather line. `roundTemperature` is the rounded value of the
      temperature text (std::stod then std::lround), None when it does not parse. */
  function WeatherText(data: StringMap, roundTemperature: string -> Option<int>): (r: string)
    ensures r != "" ==> NonEmptyValue(data, "weather_temperature").Some?
  {
    match NonEmptyValue(data, "weather_temperature")
    case None => ""
    case Some(temperature) =>
      match roundTemperature(temperature)
      case None => ""
      case Some(rounded) =>
        var suffix :=
          match NonEmptyValue(data, "weather_town")
          case Some(town) => " in " + town
          case None =>
            match NonEmptyValue(data, "weather_description")
            case Some(description) => ", " + description
            case None => "";
        LineIfPresent("Weather", IntToString(rounded) + DEGREE + suffix)
  }

  /** The packages line: the parsed count, shown only when positive. */
  function PackagesText(data: StringMap): string {
    match NonEmptyValue(data, "packages")
    case None => ""
    case Some(text) =>
      match ParseU64(text)
      case Some(count) => if count > 0 then LineIfPresent("Packages", NatToString(count)) else ""
      case None => ""
  }

  function GeneralBody(data: StringMap, roundTemperature: string -> Option<int>): string {
    EntryText(data, "date", "Date") + WeatherText(data, roundTemperature)
  }

  function SystemBody(data: StringMap): string {
    EntryText(data, "host", "Host") + EntryText(data, "os", "OS") + EntryText(data, "kernel", "Kernel")
  }

  function HardwareBody(data: StringMap): string {
    EntryText(data, "ram", "RAM") + EntryText(data, "disk", "Disk") + EntryText(data, "cpu", "CPU")
      + EntryText(data, "gpu", "GPU") + EntryText(data, "uptime", "Uptime")
  }

  function SoftwareBody(data: StringMap): string {
    EntryText(data, "shell", "Shell") + PackagesText(data)
  }

  function EnvironmentBody(data: StringMap): string {
    EntryText(data, "de", "Desktop Environment") + EntryText(data, "wm", "Window Manager")
  }

  /** One line per field, in order, written even when the value is empty. */
  function FieldLines(fields: Fields): string {
    if fields == [] then ""
    else FieldLines(fields[..|fields| - 1]) + LineText(fields[|fields| - 1].0, fields[|fields| - 1].1)
  }

  function PluginHeading(pluginId: string): string {
    "### " + pluginId + "\n\n"
  }

  /** A plugin's block: its heading, its field lines and a blank line. */
  function PluginBlock(pluginId: string, fields: Fields): string {
    PluginHeading(pluginId) + FieldLines(fields) + "\n"
  }

  /** One block per plugin, in order. */
  function PluginBlocks(pluginData: PluginData): string {
    if pluginData == [] then ""
    else
      var last := pluginData[|pluginData| - 1];
      PluginBlocks(pluginData[..|pluginData| - 1]) + PluginBlock(last.0, last.1)
  }

  /** The title and the five fixed sections, each present only with content. */
  function FixedSections(data: StringMap, roundTemperature: string -> Option<int>): string {
    TITLE
    + SectionText("General", GeneralBody(data, roundTemperature))
    + SectionText("System", SystemBody(data))
    + SectionText("Hardware", HardwareBody(data))
    + SectionText("Software", SoftwareBody(data))
    + SectionText("Environment", EnvironmentBody(data))
  }

  /** The whole document formatOutput produces for a ready plugin. */
  function MarkdownDoc(data: StringMap, pluginData: PluginData, roundTemperature: string -> Option<int>): string {
    if pluginData == [] then FixedSections(data, roundTemperature)
    else FixedSections(data, roundTemperature) + PLUGIN_DATA_HEADER + PluginBlocks(pluginData)
  }

  lemma DocumentStartsWithTitle(data: StringMap, pluginData: PluginData, roundTemperature: string -> Option<int>)
    ensures StartsWith(MarkdownDoc(data, pluginData, roundTemperature), TITLE)
  {
    var doc := TITLE;
    StartsWithAppend(doc, SectionText("General", GeneralBody(data, roundTemperature)), TITLE);
    doc := doc + SectionText("General", GeneralBody(data, roundTemperature));
    StartsWithAppend(doc, SectionText("System", SystemBody(data)), TITLE);
    doc := doc + SectionText("System", SystemBody(data));
    StartsWithAppend(doc, SectionText("Hardware", HardwareBody(data)), TITLE);
    doc := doc + SectionText("Hardware", HardwareBody(data));
    StartsWithAppend(doc, SectionText("Software", SoftwareBody(data)), TITLE);
    doc := doc + SectionText("Software", SoftwareBody(data));
    StartsWithAppend(doc, SectionText("Environment", EnvironmentBody(data)), TITLE);
    doc := doc + SectionText("Environment", EnvironmentBody(data));
    assert doc == FixedSections(data, roundTemperature);
    if pluginData != [] {
      StartsWithAppend(doc, PLUGIN_DATA_HEADER, TITLE);
      StartsWithAppend(doc + PLUGIN_DATA_HEADER, PluginBlocks(pluginData), TITLE);
    }
  }

  lemma StartsWithAppend(s: string, t: string, prefix: string)
    requires StartsWith(s, prefix)
    ensures StartsWith(s + t, prefix)
  {
    assert (s + t)[..|prefix|] == s[..|prefix|];
  }

  /** Each fixed section appears exactly when one of its keys has a value
      (General also needs the weather line, which needs a temperature). */
  lemma SectionPresence(data: StringMap, roundTemperature: string -> Option<int>)
    ensures SectionText("General", GeneralBody(data, roundTemperature)) != "" <==>
      NonEmptyValue(data, "date").Some? || WeatherText(data, roundTemperature) != ""
    ensures SectionText("System", SystemBody(data)) != "" <==>
      NonEmptyValue(data, "host").Some? || NonEmptyValue(data, "os").Some? || NonEmptyValue(data, "kernel").Some?
    ensures SectionText("Hardware", HardwareBody(data)) != "" <==>
      || NonEmptyValue(data, "ram").Some? || NonEmptyValue(data, "disk").Some?
      || NonEmptyValue(data, "cpu").Some? || NonEmptyValue(data, "gpu").Some?
      || NonEmptyValue(data, "uptime").Some?
    ensures SectionText("Software", SoftwareBody(data)) != "" <==>
      NonEmptyValue(data, "shell").Some? || PackagesText(data) != ""
    ensures SectionText("Environment", EnvironmentBody(data)) != "" <==>
      NonEmptyValue(data, "de").Some? || NonEmptyValue(data, "wm").Some?
  {
  }

  /** The weather line appears exactly when the temperature is present and
      parses; the town is preferred to the description. */
  lemma WeatherLineRule(data: StringMap, roundTemperature: string -> Option<int>)
    ensures WeatherText(data, roundTemperature) != "" <==>
      NonEmptyValue(data, "weather_temperature").Some?
      && roundTemperature(data["weather_temperature"]).Some?
    ensures
      (&& NonEmptyValue(data, "weather_temperature").Some?
       && roundTemperature(data["weather_temperature"]).Some?
       && NonEmptyValue(data, "weather_town").Some?) ==>
        WeatherText(data, roundTemperature) ==
          LineText("Weather", IntToString(roundTemperature(data["weather_temperature"]).value) + DEGREE + " in " + data["weather_town"])
  {
  }

  /** The Packages line appears exactly when the count parses and is positive,
      and shows the count in canonical decimal. */
  lemma PackagesLineRule(data: StringMap)
    ensures PackagesText(data) != "" <==>
      NonEmptyValue(data, "packages").Some? && ParseU64(data["packages"]).Some? && ParseU64(data["packages"]).value > 0
    ensures PackagesText(data) != "" ==>
      PackagesText(data) == LineText("Packages", NatToString(ParseU64(data["packages"]).value))
      && ParseU64(NatToString(ParseU64(data["packages"]).value)) == ParseU64(data["packages"])
  {
    if PackagesText(data) != "" {
      ParseU64RoundTrip(ParseU64(data["packages"]).value);
    }
  }

  /** The plugin blocks open with the first plugin's heading. */
  lemma {:induction false} PluginBlocksStartWithFirst(pluginData: PluginData)
    requires pluginData != []
    ensures StartsWith(PluginBlocks(pluginData), PluginHeading(pluginData[0].0))
    decreases |pluginData|
  {
    var head := PluginHeading(pluginData[0].0);
    var init := pluginData[..|pluginData| - 1];
    var last := pluginData[|pluginData| - 1];
    var blocks := PluginBlocks(pluginData);
    var block := PluginBlock(last.0, last.1);
    assert blocks == PluginBlocks(init) + block;
    if init == [] {
      assert last == pluginData[0];
      assert blocks == block;
      assert block[..|head|] == head;
    } else {
      PluginBlocksStartWithFirst(init);
      assert init[0] == pluginData[0];
      var prev := PluginBlocks(init);
      assert blocks[..|head|] == prev[..|head|];
    }
  }

  /** Adding a plugin appends its block, with all of its fields in order. */
  lemma PluginBlockAppend(pluginData: PluginData, pluginId: string, fields: Fields)
    ensures PluginBlocks(pluginData + [(pluginId, fields)]) == PluginBlocks(pluginData) + PluginBlock(pluginId, fields)
  {
    assert (pluginData + [(pluginId, fields)])[..|pluginData|] == pluginData;
  }

  // ---------------------------------------------------------------------
  // Plugin
  // ---------------------------------------------------------------------

  const NOT_READY := "MarkdownFormatPlugin is not ready."

  function FormatNames(): (names: seq<string>)
    ensures names == ["markdown"]
  {
    ["markdown"]
  }

  function FileExtension(formatName: string): (ext: string)
    ensures ext == "md"
  {
    "md"
  }

  class MarkdownFormatPlugin {
    var ready: bool

    constructor()
      ensures !ready
    {
      ready := false;
    }

    method Initialize() returns (r: Result<()>)
      modifies this
      ensures ready && r == Ok(())
    {
      ready := true;
      r := Ok(());
    }

    method Shutdown()
      modifies this
      ensures !ready
    {
      ready := false;
    }

    /** Drives a builder through the title, the five fixed sections and the
        plugin blocks. */
    method FormatOutput(formatName: string, data: StringMap, pluginData: PluginData, roundTemperature: string -> Option<int>)
      returns (r: Result<string>)
      ensures !ready ==> r == Err(Error(Other, NOT_READY))
      ensures ready ==> r == Ok(MarkdownDoc(data, pluginData, roundTemperature))
    {
      if !ready {
        return Err(Error(Other, NOT_READY));
      }
      var builder := new MarkdownBuilder();
      builder.Raw(TITLE);
      assert builder.fullDoc == TITLE;
      WriteGeneral(builder, data, roundTemperature);
      assert builder.fullDoc == TITLE;
      ghost var doc := TITLE + SectionText("General", GeneralBody(data, roundTemperature));
      WriteSystem(builder, data);
      assert builder.fullDoc == doc;
      doc := doc + SectionText("System", SystemBody(data));
      WriteHardware(builder, data);
      assert builder.fullDoc == doc;
      doc := doc + SectionText("Hardware", HardwareBody(data));
      WriteSoftware(builder, data);
      assert builder.fullDoc == doc;
      doc := doc + SectionText("Software", SoftwareBody(data));
      WriteEnvironment(builder, data);
      assert builder.fullDoc == doc;
      doc := doc + SectionText("Environment", EnvironmentBody(data));
      assert doc == FixedSections(data, roundTemperature);
      var built;
      if pluginData != [] {
        builder.Raw(PLUGIN_DATA_HEADER);
        assert builder.fullDoc == doc + PLUGIN_DATA_HEADER;
        WritePluginBlocks(builder, pluginData);
        assert Flushed(builder.header, builder.sectionBuffer) == "";
        built := builder.Build();
        assert built == doc + PLUGIN_DATA_HEADER + PluginBlocks(pluginData);
      } else {
        built := builder.Build();
      }
      r := Ok(built);
    }

    static method WriteGeneral(builder: MarkdownBuilder, data: StringMap, roundTemperature: string -> Option<int>)
      modifies builder
      ensures builder.fullDoc == old(builder.fullDoc) + Flushed(old(builder.header), old(builder.sectionBuffer))
      ensures builder.header == HeaderText("General") && builder.sectionBuffer == GeneralBody(data, roundTemperature)
    {
      builder.Section("General");
      builder.MapEntry(data, "date", "Date");
      assert builder.sectionBuffer == EntryText(data, "date", "Date");
      WriteWeatherLine(builder, data, roundTemperature);
    }

    static method WriteSystem(builder: MarkdownBuilder, data: StringMap)
      modifies builder
      ensures builder.fullDoc == old(builder.fullDoc) + Flushed(old(builder.header), old(builder.sectionBuffer))
      ensures builder.header == HeaderText("System") && builder.sectionBuffer == SystemBody(data)
    {
      builder.Section("System");
      builder.MapEntry(data, "host", "Host");
      assert builder.sectionBuffer == EntryText(data, "host", "Host");
      builder.MapEntry(data, "os", "OS");
      builder.MapEntry(data, "kernel", "Kernel");
    }

    static method WriteHardware(builder: MarkdownBuilder, data: StringMap)
      modifies builder
      ensures builder.fullDoc == old(builder.fullDoc) + Flushed(old(builder.header), old(builder.sectionBuffer))
      ensures builder.header == HeaderText("Hardware") && builder.sectionBuffer == HardwareBody(data)
    {
      builder.Section("Hardware");
      builder.MapEntry(data, "ram", "RAM");
      assert builder.sectionBuffer == EntryText(data, "ram", "RAM");
      builder.MapEntry(data, "disk", "Disk");
      builder.MapEntry(data, "cpu", "CPU");
      builder.MapEntry(data, "gpu", "GPU");
      builder.MapEntry(data, "uptime", "Uptime");
    }

    static method WriteSoftware(builder: MarkdownBuilder, data: StringMap)
      modifies builder
      ensures builder.fullDoc == old(builder.fullDoc) + Flushed(old(builder.header), old(builder.sectionBuffer))
      ensures builder.header == HeaderText("Software") && builder.sectionBuffer == SoftwareBody(data)
    {
      builder.Section("Software");
      builder.MapEntry(data, "shell", "Shell");
      assert builder.sectionBuffer == EntryText(data, "shell", "Shell");
      WritePackagesLine(builder, data);
    }

    static method WriteEnvironment(builder: MarkdownBuilder, data: StringMap)
      modifies builder
      ensures builder.fullDoc == old(builder.fullDoc) + Flushed(old(builder.header), old(builder.sectionBuffer))
      ensures builder.header == HeaderText("Environment") && builder.sectionBuffer == EnvironmentBody(data)
    {
      builder.Section("Environment");
      builder.MapEntry(data, "de", "Desktop Environment");
      assert builder.sectionBuffer == EntryText(data, "de", "Desktop Environment");
      builder.MapEntry(data, "wm", "Window Manager");
    }

    /** The weather block of the General section. */
    static method WriteWeatherLine(builder: MarkdownBuilder, data: StringMap, roundTemperature: string -> Option<int>)
      modifies builder
      ensures builder.fullDoc == old(builder.fullDoc) && builder.header == old(builder.header)
      ensures builder.sectionBuffer == old(builder.sectionBuffer) + WeatherText(data, roundTemperature)
    {
      if "weather_temperature" in data && data["weather_temperature"] != "" {
        var rounded := roundTemperature(data["weather_temperature"]);
        if rounded.Some? {
          var suffix := "";
          if "weather_town" in data && data["weather_town"] != "" {
            suffix := " in " + data["weather_town"];
          } else if "weather_description" in data && data["weather_description"] != "" {
            suffix := ", " + data["weather_description"];
          }
          builder.Line("Weather", IntToString(rounded.value) + DEGREE + suffix);
        }
      }
    }

    /** The Packages line of the Software section. */
    static method WritePackagesLine(builder: MarkdownBuilder, data: StringMap)
      modifies builder
      ensures builder.fullDoc == old(builder.fullDoc) && builder.header == old(builder.header)
      ensures builder.sectionBuffer == old(builder.sectionBuffer) + PackagesText(data)
    {
      if "packages" in data && data["packages"] != "" {
        var count := ParseU64(data["packages"]);
        if count.Some? && count.value > 0 {
          builder.Line("Packages", NatToString(count.value));
        }
      }
    }

    /** One "### id" block per plugin, each field as a line, then a blank line. */
    static method WritePluginBlocks(builder: MarkdownBuilder, pluginData: PluginData)
      requires builder.sectionBuffer == ""
      modifies builder
      ensures builder.fullDoc == old(builder.fullDoc) + PluginBlocks(pluginData)
      ensures builder.sectionBuffer == "" && builder.header == old(builder.header)
    {
      var i := 0;
      while i < |pluginData|
        invariant 0 <= i <= |pluginData|
        invariant builder.fullDoc == old(builder.fullDoc) + PluginBlocks(pluginData[..i])
        invariant builder.sectionBuffer == "" && builder.header == old(builder.header)
      {
        var (pluginId, fields) := pluginData[i];
        ghost var before := builder.fullDoc;
        assert Flushed(builder.header, builder.sectionBuffer) == "";
        builder.Raw(PluginHeading(pluginId));
        assert builder.fullDoc == before + PluginHeading(pluginId);
        WriteFieldLines(builder, fields);
        assert Flushed(builder.header, builder.sectionBuffer) == "";
        builder.Raw("\n");
        assert builder.fullDoc == before + PluginBlock(pluginId, fields);
        assert pluginData[..i + 1][..i] == pluginData[..i];
        assert PluginBlocks(pluginData[..i + 1]) == PluginBlocks(pluginData[..i]) + PluginBlock(pluginId, fields);
        i := i + 1;
      }
      assert pluginData[..i] == pluginData;
    }

    /** One line per field, in order, whatever its value. */
    static method WriteFieldLines(builder: MarkdownBuilder, fields: Fields)
      requires builder.sectionBuffer == ""
      modifies builder
      ensures builder.fullDoc == old(builder.fullDoc) + FieldLines(fields)
      ensures builder.sectionBuffer == "" && builder.header == old(builder.header)
    {
      var j := 0;
      while j < |fields|
        invariant 0 <= j <= |fields|
        invariant builder.fullDoc == old(builder.fullDoc) + FieldLines(fields[..j])
        invariant builder.sectionBuffer == "" && builder.header == old(builder.header)
      {
        ghost var before := builder.fullDoc;
        assert Flushed(builder.header, builder.sectionBuffer) == "";
        builder.Raw(LineText(fields[j].0, fields[j].1));
        assert builder.fullDoc == before + LineText(fields[j].0, fields[j].1);
        assert fields[..j + 1][..j] == fields[..j];
        assert FieldLines(fields[..j + 1]) == FieldLines(fields[..j]) + LineText(fields[j].0, fields[j].1);
        j := j + 1;
      }
      assert fields[..j] == fields;
    }
  }
}
