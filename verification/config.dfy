/** The settings file: a small JSON-like text with seven fields, written by
    `Save` and read back by `Load` with plain string searches. */
module Config {
  import opened Options
  import opened TextSearch
  import CS = ControllerState

  /** The stored settings. */
  datatype AppConfig = AppConfig(
    sourceMonitor: string,
    magnifierMonitor: string,
    zoom: real,
    mode: CS.TrackingMode,
    blockCursor: bool,
    autoLaunch: bool,
    invertColors: bool)

  /** The settings before any file is read. */
  const Defaults: AppConfig := AppConfig("", "", 2.0, CS.Auto, true, false, false)

  /** The characters that end a number or boolean value. */
  const Terminators: set<char> := {',', '}', '\n'}

  const KeyNames: set<string> := {
    "sourceMonitor", "magnifierMonitor", "zoom", "trackingMode",
    "blockCursor", "autoLaunch", "invertColors"}

  // ---------------------------------------------------------------------
  // Characters: wide strings are narrowed on save and widened on load
  // ---------------------------------------------------------------------

  /** A wide character written as a `char`: its low eight bits. */
  function NarrowChar(c: char): (b: char)
    ensures b as int < 256 && b as int == c as int % 256
  {
    (c as int % 256) as char
  }

  /** A byte read back as a wide character through a signed `char`: bytes
      from 128 up are sign-extended into 0xFF80..0xFFFF. */
  function WidenChar(c: char): (w: char)
    ensures c as int < 128 ==> w == c
    ensures 128 <= c as int < 256 ==> w as int == 0xFF00 + c as int
  {
    var b := c as int % 256;
    if b < 128 then b as char else (0xFF00 + b) as char
  }

  function Narrow(s: string): (r: string)
    ensures |r| == |s| && forall i :: 0 <= i < |s| ==> r[i] == NarrowChar(s[i])
  {
    seq(|s|, i requires 0 <= i < |s| => NarrowChar(s[i]))
  }

  function Widen(s: string): (r: string)
    ensures |r| == |s| && forall i :: 0 <= i < |s| ==> r[i] == WidenChar(s[i])
  {
    seq(|s|, i requires 0 <= i < |s| => WidenChar(s[i]))
  }

  /** The wide characters that survive being narrowed and widened again. */
  predicate Storable(c: char) {
    c as int < 128 || 0xFF80 <= c as int <= 0xFFFF
  }

  /** A name comes back unchanged from the file exactly when each of its
      characters is ASCII or lies in 0xFF80..0xFFFF. */
  lemma NarrowWidenExactly(s: string)
    ensures Widen(Narrow(s)) == s <==> forall i :: 0 <= i < |s| ==> Storable(s[i])
  {
    if Widen(Narrow(s)) == s {
      forall i | 0 <= i < |s| ensures Storable(s[i]) {
        assert WidenChar(NarrowChar(s[i])) == s[i];
      }
    } else {
      var i :| 0 <= i < |s| && Widen(Narrow(s))[i] != s[i];
      assert !Storable(s[i]);
    }
  }

  // ---------------------------------------------------------------------
  // Reading
  // ---------------------------------------------------------------------

  function KeyPattern(key: string): string {
    [Quote] + key + [Quote]
  }

  /** Where the search for the opening quote of a string value starts:
      just after the colon that follows the key, or at the beginning of the
      text when no colon follows, since `npos + 1` is 0. */
  function ValueSearchStart(content: string, pos: nat): nat {
    match FindChar(content, ':', pos)
    case None => 0
    case Some(c) => c + 1
  }

  /** The text between the first two quotes at or after `from`. */
  function QuotedValueFrom(content: string, from: nat): (r: Option<string>)
    ensures r.Some? ==> Quote !in r.value
  {
    match FindChar(content, Quote, from)
    case None => None
    case Some(open) =>
      match FindChar(content, Quote, open + 1)
      case None => None
      case Some(close) =>
        var v := content[open + 1..close];
        assert forall i :: 0 <= i < |v| ==> v[i] == content[open + 1 + i];
        Some(v)
  }

  /** The text between the first two quotes after the colon that follows
      `"key"`. */
  function RawString(content: string, key: string): (r: Option<string>)
    ensures r.Some? ==> Quote !in r.value
    ensures IndexOf(content, KeyPattern(key), 0).None? ==> r.None?
  {
    match IndexOf(content, KeyPattern(key), 0)
    case None => None
    case Some(pos) => QuotedValueFrom(content, ValueSearchStart(content, pos))
  }

  /** A string field; a missing field reads as the empty string. */
  function ReadString(content: string, key: string): (r: string)
    ensures RawString(content, key).None? ==> r == ""
    ensures RawString(content, key).Some? ==>
      |r| == |RawString(content, key).value|
      && forall i :: 0 <= i < |r| ==> r[i] == WidenChar(RawString(content, key).value[i])
  {
    Widen(RawString(content, key).GetOr(""))
  }

  /** The text after the colon that follows `"key"`, up to the first comma,
      closing brace or line break (or the end of the text). */
  function RawToken(content: string, key: string): (r: Option<string>)
    ensures r.Some? ==> forall i :: 0 <= i < |r.value| ==> r.value[i] !in Terminators
    ensures IndexOf(content, KeyPattern(key), 0).None? ==> r.None?
  {
    match IndexOf(content, KeyPattern(key), 0)
    case None => None
    case Some(pos) =>
      match FindChar(content, ':', pos)
      case None => None
      case Some(colon) =>
        // With no terminator, `npos - pos - 1` is more than is left.
        var count := match FirstOf(content, Terminators, colon + 1)
          case None => |content| - colon - 1
          case Some(e) => e - colon - 1;
        Some(Substr(content, colon + 1, count))
  }

  /** A number field, parsed by `parse` (which stands for `std::stof` and
      is None where that throws); a missing or unparsable field keeps
      `fallback`. */
  function ReadFloat(content: string, key: string, fallback: real, parse: string -> Option<real>): (r: real)
    ensures r == fallback || (RawToken(content, key).Some? && parse(RawToken(content, key).value) == Some(r))
    ensures RawToken(content, key).Some? && parse(RawToken(content, key).value).Some? ==>
      r == parse(RawToken(content, key).value).value
  {
    match RawToken(content, key)
    case None => fallback
    case Some(t) => parse(t).GetOr(fallback)
  }

  /** A boolean field: true if its text contains `true`, else false if it
      contains `false`, else `fallback`. */
  function ReadBool(content: string, key: string, fallback: bool): (r: bool)
    ensures r != fallback ==> RawToken(content, key).Some?
    ensures RawToken(content, key).Some? ==>
      var t := RawToken(content, key).value;
      && (IndexOf(t, "true", 0).Some? ==> r)
      && (IndexOf(t, "true", 0).None? && IndexOf(t, "false", 0).Some? ==> !r)
      && (r != fallback ==> (r <==> IndexOf(t, "true", 0).Some?))
  {
    match RawToken(content, key)
    case None => fallback
    case Some(t) =>
      if IndexOf(t, "true", 0).Some? then true
      else if IndexOf(t, "false", 0).Some? then false
      else fallback
  }

  /** The names the mode is saved under. */
  const ModeNames: set<string> := {"Auto", "Caret", "Mouse", "Focus", "Manual"}

  /** The name a mode is saved under; distinct modes get distinct names. */
  function ModeName(m: CS.TrackingMode): (n: string)
    ensures n in ModeNames
    ensures n == "Auto" <==> m == CS.Auto
  {
    match m
    case Caret => "Caret"
    case Mouse => "Mouse"
    case Focus => "Focus"
    case Manual => "Manual"
    case Auto => "Auto"
  }

  /** The tracking mode named by `name`; any unknown name means Auto. */
  function ModeFromName(name: string): (m: CS.TrackingMode)
    ensures m == CS.Auto <==> name !in ModeNames - {"Auto"}
  {
    if name == "Caret" then CS.Caret
    else if name == "Mouse" then CS.Mouse
    else if name == "Focus" then CS.Focus
    else if name == "Manual" then CS.Manual
    else CS.Auto
  }

  /** Mode names are read back as the mode they name, and only the five
      names are recognised. */
  lemma ModeNamesRoundTrip(m: CS.TrackingMode, name: string)
    ensures ModeFromName(ModeName(m)) == m
    ensures ModeFromName(name) != CS.Auto ==> ModeName(ModeFromName(name)) == name
  {
  }

  /** Reads the settings file. `file` is None when it cannot be opened, and
      then nothing changes. Otherwise both monitor names and the mode are
      replaced (missing ones become empty or Auto), while the zoom and the
      flags keep their current values when missing or unreadable. */
  function Load(file: Option<string>, current: AppConfig, parse: string -> Option<real>): (r: AppConfig)
    ensures file.None? ==> r == current
    ensures file.Some? ==>
      && r.sourceMonitor == Widen(RawString(file.value, "sourceMonitor").GetOr(""))
      && r.magnifierMonitor == Widen(RawString(file.value, "magnifierMonitor").GetOr(""))
      && (RawToken(file.value, "zoom").None? ==> r.zoom == current.zoom)
      && (RawToken(file.value, "blockCursor").None? ==> r.blockCursor == current.blockCursor)
      && (RawToken(file.value, "autoLaunch").None? ==> r.autoLaunch == current.autoLaunch)
      && (RawToken(file.value, "invertColors").None? ==> r.invertColors == current.invertColors)
  {
    match file
    case None => current
    case Some(content) =>
      AppConfig(
        ReadString(content, "sourceMonitor"),
        ReadString(content, "magnifierMonitor"),
        ReadFloat(content, "zoom", current.zoom, parse),
        ModeFromName(ReadString(content, "trackingMode")),
        ReadBool(content, "blockCursor", current.blockCursor),
        ReadBool(content, "autoLaunch", current.autoLaunch),
        ReadBool(content, "invertColors", current.invertColors))
  }

  /** The settings at start-up: the defaults with Auto tracking, overlaid
      by the file when it can be read. */
  function Startup(file: Option<string>, parse: string -> Option<real>): (r: AppConfig)
    ensures file.None? ==> r == Defaults
  {
    Load(file, Defaults, parse)
  }

  /** A file that holds none of the keys clears both monitor names and
      resets the mode to Auto, but keeps the zoom and the flags. */
  lemma LoadWithoutKeys(content: string, current: AppConfig, parse: string -> Option<real>)
    requires forall k :: k in KeyNames ==> IndexOf(content, KeyPattern(k), 0).None?
    ensures Load(Some(content), current, parse)
      == current.(sourceMonitor := "", magnifierMonitor := "", mode := CS.Auto)
  {
    assert "trackingMode" in KeyNames;
    assert "sourceMonitor" in KeyNames && "magnifierMonitor" in KeyNames;
    assert "zoom" in KeyNames && "blockCursor" in KeyNames;
    assert "autoLaunch" in KeyNames && "invertColors" in KeyNames;
  }

  // ---------------------------------------------------------------------
  // Writing
  // ---------------------------------------------------------------------

  function BoolText(b: bool): string {
    if b then "true" else "false"
  }

  /** The line `Save` writes for a string field. */
  function StringLine(key: string, value: string, ending: string): string {
    "  " + [Quote] + key + [Quote] + ": " + [Quote] + value + [Quote] + ending
  }

  /** The line `Save` writes for a number or boolean field. */
  function TokenLine(key: string, value: string, ending: string): string {
    "  " + [Quote] + key + [Quote] + ": " + value + ending
  }

  /** The text `Save` writes, one line per field; `format` stands for
      writing a float to a stream with the default precision. */
  function Save(cfg: AppConfig, format: real -> string): (r: string)
    ensures |r| >= 4 && r[..2] == "{\n" && r[|r| - 2..] == "}\n"
  {
    "{\n"
    + StringLine("sourceMonitor", Narrow(cfg.sourceMonitor), ",\n")
    + StringLine("magnifierMonitor", Narrow(cfg.magnifierMonitor), ",\n")
    + TokenLine("zoom", format(cfg.zoom), ",\n")
    + StringLine("trackingMode", ModeName(cfg.mode), ",\n")
    + TokenLine("blockCursor", BoolText(cfg.blockCursor), ",\n")
    + TokenLine("autoLaunch", BoolText(cfg.autoLaunch), ",\n")
    + TokenLine("invertColors", BoolText(cfg.invertColors), "\n")
    + "}\n"
  }
}
