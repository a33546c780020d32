/** The MPRIS/DBus now-playing backend and the Now Playing plugin's state
    (plugins/now_playing/now_playing.cpp:514-634, 639-768). */
module NowPlaying {
  import opened Common
  import opened DBusMessage

  /** The normalised record every backend fills (now_playing_types.hpp). */
  datatype MediaData = MediaData(
    title: Option<string>,
    artist: Option<string>,
    album: Option<string>,
    playerName: Option<string>)

  const NoMedia := MediaData(None, None, None, None)

  datatype NowPlayingConfig = NowPlayingConfig(enabled: bool)

  const MPRIS_PREFIX := "org.mpris.MediaPlayer2."
  const TITLE_KEY := "xesam:title"
  const ALBUM_KEY := "xesam:album"
  const ARTIST_KEY := "xesam:artist"

  // ---------------------------------------------------------------------
  // Player name
  // ---------------------------------------------------------------------

  /** The bus name without the MPRIS prefix; names without it pass through. */
  function ExtractPlayerName(busName: string): (r: string)
    ensures StartsWith(busName, MPRIS_PREFIX) ==> MPRIS_PREFIX + r == busName
    ensures !StartsWith(busName, MPRIS_PREFIX) ==> r == busName
  {
    if StartsWith(busName, MPRIS_PREFIX) then busName[|MPRIS_PREFIX|..] else busName
  }

  /** Stripping undoes prefixing, for every player name. */
  lemma ExtractPlayerNameInvertsPrefix(name: string)
    ensures ExtractPlayerName(MPRIS_PREFIX + name) == name
  {
    assert (MPRIS_PREFIX + name)[..|MPRIS_PREFIX|] == MPRIS_PREFIX;
  }

  // ---------------------------------------------------------------------
  // Bus-name discovery (ListNames)
  // ---------------------------------------------------------------------

  /** A ListNames element the discovery loop accepts. */
  predicate IsPlayerName(v: Value) {
    StringOf(v).Some? && StartsWith(StringOf(v).value, MPRIS_PREFIX)
  }

  /** The position of the first accepted name: every earlier one is rejected. */
  function FirstPlayerIndex(names: seq<Value>): (r: Option<nat>)
    ensures r.Some? ==> r.value < |names| && IsPlayerName(names[r.value])
    ensures r.Some? ==> forall j :: 0 <= j < r.value ==> !IsPlayerName(names[j])
    ensures r.None? ==> forall j :: 0 <= j < |names| ==> !IsPlayerName(names[j])
  {
    if |names| == 0 then None
    else if IsPlayerName(names[0]) then Some(0)
    else match FirstPlayerIndex(names[1..])
      case None => None
      case Some(i) => Some(i + 1)
  }

  /** Once a name is accepted, later names are never examined. */
  lemma FirstPlayerIgnoresLaterNames(names: seq<Value>, later: seq<Value>)
    requires FirstPlayerIndex(names).Some?
    ensures FirstPlayerIndex(names + later) == FirstPlayerIndex(names)
  {
    var i := FirstPlayerIndex(names).value;
    var k := FirstPlayerIndex(names + later);
    assert (names + later)[i] == names[i];
  }

  /** The bus name the ListNames reply selects. */
  function DiscoverPlayer(reply: Reply): (r: Result<string>)
    ensures (|reply| == 0 || !reply[0].Array?) ==> r.Err? && r.error.code == ParseError
    ensures r.Ok? ==> StartsWith(r.value, MPRIS_PREFIX)
    ensures r.Ok? ==> exists i :: (
      && 0 <= i < |reply[0].elements| && reply[0].elements[i] == Str(r.value)
      && forall j :: 0 <= j < i ==> !IsPlayerName(reply[0].elements[j]))
    ensures |reply| > 0 && reply[0].Array?
      && (exists j :: 0 <= j < |reply[0].elements| && IsPlayerName(reply[0].elements[j]))
      ==> r.Ok?
  {
    if |reply| == 0 || !reply[0].Array? then
      Err(Error(ParseError, "Invalid DBus ListNames reply format: Expected array"))
    else
      match FirstPlayerIndex(reply[0].elements)
      case None => Err(Error(NotFound, "No active MPRIS players found"))
      case Some(i) => Ok(StringOf(reply[0].elements[i]).value)
  }

  /** No acceptable name, and the discovery fails with NotFound. */
  lemma NoPlayerIsNotFound(reply: Reply)
    requires |reply| > 0 && reply[0].Array?
    requires forall j :: 0 <= j < |reply[0].elements| ==> !IsPlayerName(reply[0].elements[j])
    ensures DiscoverPlayer(reply).Err? && DiscoverPlayer(reply).error.code == NotFound
  {
  }

  // ---------------------------------------------------------------------
  // Metadata walk (Properties.Get "Metadata")
  // ---------------------------------------------------------------------

  /** The MediaData field a recognised metadata key writes. */
  function Field(d: MediaData, key: string): Option<string> {
    if key == TITLE_KEY then d.title
    else if key == ALBUM_KEY then d.album
    else if key == ARTIST_KEY then d.artist
    else None
  }

  predicate IsRecognisedKey(key: string) {
    key == TITLE_KEY || key == ALBUM_KEY || key == ARTIST_KEY
  }

  /** The first element of an artist array, as getString reads it. */
  function FirstString(values: seq<Value>): Option<string> {
    if |values| > 0 then StringOf(values[0]) else None
  }

  /** Entry e is a well-formed entry that writes the field of key. */
  predicate Writes(e: Value, key: string) {
    && e.DictEntry?
    && StringOf(e.key) == Some(key)
    && e.val.Variant?
    && (key == ARTIST_KEY ==> e.val.inner.Array? && e.val.inner.elementType == TYPE_STRING)
  }

  /** What a writing entry stores into its field. */
  function Written(e: Value, key: string): Option<string>
    requires Writes(e, key)
  {
    if key == ARTIST_KEY then FirstString(e.val.inner.elements) else StringOf(e.val.inner)
  }

  /** One dictionary entry of the metadata: malformed entries change nothing,
      recognised keys overwrite their field, other keys change nothing. */
  function ApplyEntry(d: MediaData, e: Value): (r: MediaData)
    requires e.DictEntry?
    ensures r.playerName == d.playerName
    ensures forall key :: IsRecognisedKey(key) ==>
      Field(r, key) == if Writes(e, key) then Written(e, key) else Field(d, key)
    ensures StringOf(e.key).None? || !e.val.Variant? ==> r == d
    ensures StringOf(e.key).Some? && !IsRecognisedKey(StringOf(e.key).value) ==> r == d
  {
    match StringOf(e.key)
    case None => d
    case Some(key) =>
      if !e.val.Variant? then d
      else if key == TITLE_KEY then d.(title := StringOf(e.val.inner))
      else if key == ALBUM_KEY then d.(album := StringOf(e.val.inner))
      else if key == ARTIST_KEY then
        if e.val.inner.Array? && e.val.inner.elementType == TYPE_STRING
        then d.(artist := FirstString(e.val.inner.elements))
        else d
      else d
  }

  /** The dictionary loop: entries are applied in order until the first
      element that is not a dictionary entry. */
  function WalkDict(d: MediaData, entries: seq<Value>): MediaData
    decreases |entries|
  {
    if |entries| == 0 || !entries[0].DictEntry? then d
    else WalkDict(ApplyEntry(d, entries[0]), entries[1..])
  }

  lemma {:induction false} WalkDictKeepsPlayerName(d: MediaData, entries: seq<Value>)
    ensures WalkDict(d, entries).playerName == d.playerName
    decreases |entries|
  {
    if |entries| > 0 && entries[0].DictEntry? {
      WalkDictKeepsPlayerName(ApplyEntry(d, entries[0]), entries[1..]);
    }
  }

  /** A field no entry writes keeps its value through the walk. */
  lemma {:induction false} WalkDictUnwritten(d: MediaData, entries: seq<Value>, key: string)
    requires IsRecognisedKey(key)
    requires forall j :: 0 <= j < |entries| ==> !Writes(entries[j], key)
    ensures Field(WalkDict(d, entries), key) == Field(d, key)
    decreases |entries|
  {
    if |entries| > 0 && entries[0].DictEntry? {
      WalkDictUnwritten(ApplyEntry(d, entries[0]), entries[1..], key);
    }
  }

  /** The last entry that writes a field decides it: a later duplicate key
      overwrites an earlier one. */
  lemma {:induction false} WalkDictLastWriteWins(d: MediaData, entries: seq<Value>, i: nat, key: string)
    requires IsRecognisedKey(key)
    requires i < |entries|
    requires forall j :: 0 <= j < i ==> entries[j].DictEntry?
    requires Writes(entries[i], key)
    requires forall j :: i < j < |entries| ==> !Writes(entries[j], key)
    ensures Field(WalkDict(d, entries), key) == Written(entries[i], key)
    decreases i
  {
    if i == 0 {
      WalkDictUnwritten(ApplyEntry(d, entries[0]), entries[1..], key);
    } else {
      WalkDictLastWriteWins(ApplyEntry(d, entries[0]), entries[1..], i - 1, key);
    }
  }

  /** The record a reply to Properties.Get(Player, "Metadata") yields for the
      chosen bus name: the top-level shape must be a variant holding an array
      of dictionary entries, whatever is nested deeper. */
  function ParseMetadata(reply: Reply, busName: string): (r: Result<MediaData>)
    ensures |reply| == 0 ==> r.Err? && r.error.code == ParseError
    ensures |reply| > 0 && !reply[0].Variant? ==> r.Err? && r.error.code == ParseError
    ensures |reply| > 0 && reply[0].Variant?
      && !(reply[0].inner.Array? && reply[0].inner.elementType == TYPE_DICT_ENTRY)
      ==> r.Err? && r.error.code == ParseError
    ensures r.Ok? ==> r.value.playerName == Some(ExtractPlayerName(busName))
  {
    if |reply| == 0 then
      Err(Error(ParseError, "Properties.Get reply has no arguments"))
    else if !reply[0].Variant? then
      Err(Error(ParseError, "Properties.Get reply argument is not a variant"))
    else if !(reply[0].inner.Array? && reply[0].inner.elementType == TYPE_DICT_ENTRY) then
      Err(Error(ParseError, "Metadata is not a dictionary array"))
    else
      var start := NoMedia.(playerName := Some(ExtractPlayerName(busName)));
      WalkDictKeepsPlayerName(start, reply[0].inner.elements);
      Ok(WalkDict(start, reply[0].inner.elements))
  }

  // ---------------------------------------------------------------------
  // The fetch
  // ---------------------------------------------------------------------

  /** What the session bus answers: whether the connection could be made,
      the ListNames reply, and the Properties.Get reply of each bus name.
      Each Err stands for a transport failure the source passes through. */
  datatype Bus = Bus(
    connect: Option<Error>,
    listNames: Result<Reply>,
    properties: string -> Result<Reply>)

  /** The outcome of fetchNowPlaying on a given bus. */
  function FetchSpec(bus: Bus): Result<MediaData> {
    if bus.connect.Some? then Err(bus.connect.value)
    else if bus.listNames.Err? then Err(bus.listNames.error)
    else match DiscoverPlayer(bus.listNames.value)
      case Err(e) => Err(e)
      case Ok(name) =>
        match bus.properties(name)
        case Err(e) => Err(e)
        case Ok(reply) => ParseMetadata(reply, name)
  }

  /** The discovery block of fetchNowPlaying: walk the ListNames array with a
      cursor and stop at the first MPRIS name. */
  method FindActivePlayer(listNamesReply: Reply) returns (r: Result<string>)
    ensures r == DiscoverPlayer(listNamesReply)
  {
    var activePlayer: Option<string> := None;
    var iter := new MessageIter.Init(listNamesReply);
    if !iter.valid || iter.ArgType() != TYPE_ARRAY {
      return Err(Error(ParseError, "Invalid DBus ListNames reply format: Expected array"));
    }
    var subIter := iter.Recurse();
    ghost var names := listNamesReply[0].elements;
    while subIter.ArgType() != TYPE_INVALID
      invariant subIter.Valid() && subIter.valid && subIter.items == names
      invariant activePlayer.None?
      invariant forall j :: 0 <= j < subIter.pos ==> !IsPlayerName(names[j])
      decreases |names| - subIter.pos
    {
      var name := subIter.GetString();
      if name.Some? && StartsWith(name.value, MPRIS_PREFIX) {
        activePlayer := name;
        break;
      }
      var more := subIter.Next();
      if !more {
        break;
      }
    }
    if activePlayer.None? {
      return Err(Error(NotFound, "No active MPRIS players found"));
    }
    assert FirstPlayerIndex(names) == Some(subIter.pos);
    return Ok(activePlayer.value);
  }

  /** The body of the dictionary loop for one entry, read through a cursor
      over the entry's key and value. Each early return is a `continue` of
      the source loop: the entry is skipped. */
  method ReadEntry(entryIter: MessageIter, data: MediaData) returns (d: MediaData)
    requires entryIter.Valid() && entryIter.valid && entryIter.pos == 0
    requires |entryIter.items| == 2
    modifies entryIter
    ensures d == ApplyEntry(data, DictEntry(old(entryIter.items)[0], old(entryIter.items)[1]))
  {
    var key := entryIter.GetString();
    if key.None? {
      return data;
    }
    var hasValue := entryIter.Next();
    if !hasValue || entryIter.ArgType() != TYPE_VARIANT {
      return data;
    }
    var valueIter := entryIter.Recurse();
    d := data;
    if key.value == TITLE_KEY {
      d := d.(title := valueIter.GetString());
    } else if key.value == ALBUM_KEY {
      d := d.(album := valueIter.GetString());
    } else if key.value == ARTIST_KEY {
      if valueIter.ArgType() == TYPE_ARRAY && valueIter.ElementType() == TYPE_STRING {
        var artistIter := valueIter.Recurse();
        d := d.(artist := artistIter.GetString());
      }
    }
  }

  /** The metadata block of fetchNowPlaying: check the top-level shape, then
      walk the dictionary entries with a cursor, skipping malformed ones. */
  method ReadMetadata(reply: Reply, busName: string) returns (r: Result<MediaData>)
    ensures r == ParseMetadata(reply, busName)
  {
    var data := NoMedia.(playerName := Some(ExtractPlayerName(busName)));
    var propIter := new MessageIter.Init(reply);
    if !propIter.valid {
      return Err(Error(ParseError, "Properties.Get reply has no arguments"));
    }
    if propIter.ArgType() != TYPE_VARIANT {
      return Err(Error(ParseError, "Properties.Get reply argument is not a variant"));
    }
    var variantIter := propIter.Recurse();
    if variantIter.ArgType() != TYPE_ARRAY || variantIter.ElementType() != TYPE_DICT_ENTRY {
      return Err(Error(ParseError, "Metadata is not a dictionary array"));
    }
    var dictIter := variantIter.Recurse();
    ghost var entries := reply[0].inner.elements;
    ghost var start := data;
    while dictIter.ArgType() == TYPE_DICT_ENTRY
      invariant dictIter.Valid() && dictIter.valid && dictIter.items == entries
      invariant WalkDict(data, entries[dictIter.pos..]) == WalkDict(start, entries)
      decreases |entries| - dictIter.pos
    {
      assert entries[dictIter.pos..][1..] == entries[dictIter.pos + 1..];
      var entryIter := dictIter.Recurse();
      data := ReadEntry(entryIter, data);
      var more := dictIter.Next();
      if !more {
        break;
      }
    }
    return Ok(data);
  }

  /** fetchNowPlaying: connect, discover the player, then read its metadata. */
  method FetchNowPlaying(bus: Bus) returns (r: Result<MediaData>)
    ensures r == FetchSpec(bus)
  {
    if bus.connect.Some? {
      return Err(bus.connect.value);
    }
    if bus.listNames.Err? {
      return Err(bus.listNames.error);
    }
    var activePlayer := FindActivePlayer(bus.listNames.value);
    if activePlayer.Err? {
      return Err(activePlayer.error);
    }
    var getReply := bus.properties(activePlayer.value);
    if getReply.Err? {
      return Err(getReply.error);
    }
    r := ReadMetadata(getReply.value, activePlayer.value);
  }

  /** The example of a single player with a complete, well-formed metadata dictionary. */
  lemma WellFormedPlayerExample(bus: Bus)
    requires bus.connect.None?
    requires bus.listNames == Ok([Array(TYPE_STRING, [Str("org.freedesktop.DBus"), Str("org.mpris.MediaPlayer2.Foo")])])
    requires bus.properties("org.mpris.MediaPlayer2.Foo") == Ok([Variant(Array(TYPE_DICT_ENTRY, [
      DictEntry(Str("xesam:title"), Variant(Str("Song"))),
      DictEntry(Str("xesam:artist"), Variant(Array(TYPE_STRING, [Str("Band")]))),
      DictEntry(Str("xesam:album"), Variant(Str("Rec")))]))])
    ensures FetchSpec(bus) == Ok(MediaData(Some("Song"), Some("Band"), Some("Rec"), Some("Foo")))
  {
    var names := bus.listNames.value[0].elements;
    assert !StartsWith("org.freedesktop.DBus", MPRIS_PREFIX) by {
      assert "org.freedesktop.DBus"[4] != MPRIS_PREFIX[4];
    }
    assert StartsWith("org.mpris.MediaPlayer2.Foo", MPRIS_PREFIX);
    assert FirstPlayerIndex(names) == Some(1);
    assert ExtractPlayerName("org.mpris.MediaPlayer2.Foo") == "Foo";
    var entries := bus.properties("org.mpris.MediaPlayer2.Foo").value[0].inner.elements;
    var d0 := NoMedia.(playerName := Some("Foo"));
    var d1 := d0.(title := Some("Song"));
    var d2 := d1.(artist := Some("Band"));
    var d3 := d2.(album := Some("Rec"));
    assert ApplyEntry(d0, entries[0]) == d1;
    assert ApplyEntry(d1, entries[1]) == d2;
    assert ApplyEntry(d2, entries[2]) == d3;
    assert WalkDict(d3, entries[3..]) == d3;
    assert WalkDict(d2, entries[2..]) == d3 by {
      assert entries[2..][1..] == entries[3..];
    }
    assert WalkDict(d1, entries[1..]) == d3 by {
      assert entries[1..][1..] == entries[2..];
    }
  }

  // ---------------------------------------------------------------------
  // Plugin state and rendering
  // ---------------------------------------------------------------------

  /** getFields: one field per present value; the player name is exposed as "player". */
  function GetFields(d: MediaData): (fields: map<string, string>)
    ensures "title" in fields <==> d.title.Some?
    ensures "artist" in fields <==> d.artist.Some?
    ensures "album" in fields <==> d.album.Some?
    ensures "player" in fields <==> d.playerName.Some?
    ensures fields.Keys <= {"title", "artist", "album", "player"}
    ensures d.title.Some? ==> fields["title"] == d.title.value
    ensures d.artist.Some? ==> fields["artist"] == d.artist.value
    ensures d.album.Some? ==> fields["album"] == d.album.value
    ensures d.playerName.Some? ==> fields["player"] == d.playerName.value
  {
    var withTitle := if d.title.Some? then map["title" := d.title.value] else map[];
    var withArtist := if d.artist.Some? then withTitle["artist" := d.artist.value] else withTitle;
    var withAlbum := if d.album.Some? then withArtist["album" := d.album.value] else withArtist;
    if d.playerName.Some? then withAlbum["player" := d.playerName.value] else withAlbum
  }

  /** getDisplayValue: nothing is playing without a title; otherwise
      "artist - title", or the title alone. */
  function GetDisplayValue(d: MediaData): (r: Result<string>)
    ensures r.Err? <==> d.title.None?
    ensures r.Err? ==> r.error.code == NotFound
    ensures d.title.Some? && d.artist.Some? ==> r.value == d.artist.value + " - " + d.title.value
    ensures d.title.Some? && d.artist.None? ==> r.value == d.title.value
  {
    if d.title.None? then Err(Error(NotFound, "No media currently playing"))
    else if d.artist.Some? then Ok(d.artist.value + " - " + d.title.value)
    else Ok(d.title.value)
  }

  /** The display value exists exactly when the fields carry a title, and it ends with it. */
  lemma DisplayValueMatchesFields(d: MediaData)
    ensures GetDisplayValue(d).Ok? <==> "title" in GetFields(d)
    ensures GetDisplayValue(d).Ok? ==> EndsWith(GetDisplayValue(d).value, GetFields(d)["title"])
  {
    if d.title.Some? {
      var v := GetDisplayValue(d).value;
      var t := d.title.value;
      assert v[|v| - |t|..] == t;
    }
  }

  /** The Now Playing plugin: its configuration, the last fetched record,
      the last error and whether it has been initialised. */
  class NowPlayingPlugin {
    var config: NowPlayingConfig
    var data: MediaData
    var lastError: Option<string>
    var ready: bool

    constructor ()
      ensures config.enabled && data == NoMedia && lastError.None? && !ready
    {
      config := NowPlayingConfig(true);
      data := NoMedia;
      lastError := None;
      ready := false;
    }

    method Initialize()
      modifies this
      ensures config.enabled && ready
      ensures data == old(data) && lastError == old(lastError)
    {
      config := config.(enabled := true);
      ready := true;
    }

    method Shutdown()
      modifies this
      ensures !ready
      ensures config == old(config) && data == old(data) && lastError == old(lastError)
    {
      ready := false;
    }

    /** collectData: a fresh fetch replaces the record and clears the last
        error; a failed fetch records its message and keeps the old record. */
    method CollectData(bus: Bus) returns (r: Result<()>)
      modifies this
      ensures config == old(config) && ready == old(ready)
      ensures !old(ready) ==>
        && r == Err(Error(NotSupported, "Now Playing plugin is not ready"))
        && data == old(data) && lastError == old(lastError)
      ensures old(ready) && !old(config.enabled) ==>
        && r == Ok(()) && data == old(data)
        && lastError == Some("Now Playing plugin is disabled")
      ensures old(ready) && old(config.enabled) && FetchSpec(bus).Ok? ==>
        r == Ok(()) && data == FetchSpec(bus).value && lastError.None?
      ensures old(ready) && old(config.enabled) && FetchSpec(bus).Err? ==>
        && r == Err(FetchSpec(bus).error) && data == old(data)
        && lastError == Some(FetchSpec(bus).error.message)
    {
      if !ready {
        return Err(Error(NotSupported, "Now Playing plugin is not ready"));
      }
      if !config.enabled {
        lastError := Some("Now Playing plugin is disabled");
        return Ok(());
      }
      lastError := None;
      var result := FetchNowPlaying(bus);
      if result.Err? {
        lastError := Some(result.error.message);
        return Err(result.error);
      }
      data := result.value;
      return Ok(());
    }
  }
}
