/**
 * The info-panel display configuration (HemSoftConfigWindow.cs): the seven
 * DisplayConfig flags, their XML load and save, and the `hs` console
 * command that toggles them.
 */
module DisplayConfigs {
  import opened Text
  import opened Xml
  import opened Hotkeys
  import opened Wrappers

  // --------------------------------------------------------------- flags

  /** The seven info-panel elements that can be shown or hidden. */
  datatype Flag = Level | Gamestage | Lootstage | Day | BloodMoon | Kills | NearestEnemy

  /** The flag values of a DisplayConfig. */
  datatype DisplayFlags = DisplayFlags(
    level: bool, gamestage: bool, lootstage: bool, day: bool,
    bloodMoon: bool, kills: bool, nearestEnemy: bool)
  {
    function Get(f: Flag): bool {
      match f
      case Level => level
      case Gamestage => gamestage
      case Lootstage => lootstage
      case Day => day
      case BloodMoon => bloodMoon
      case Kills => kills
      case NearestEnemy => nearestEnemy
    }
  }

  /** A flag set to every value. */
  function AllSet(v: bool): (r: DisplayFlags)
    ensures forall f :: r.Get(f) == v
  {
    DisplayFlags(v, v, v, v, v, v, v)
  }

  /** The property initialisers of DisplayConfig: everything shown. */
  function Defaults(): (r: DisplayFlags)
    ensures forall f :: r.Get(f)
  {
    AllSet(true)
  }

  /** The flags with one of them negated. */
  function Toggle(flags: DisplayFlags, f: Flag): (r: DisplayFlags)
    ensures r.Get(f) == !flags.Get(f)
    ensures forall g :: g != f ==> r.Get(g) == flags.Get(g)
  {
    match f
    case Level => flags.(level := !flags.level)
    case Gamestage => flags.(gamestage := !flags.gamestage)
    case Lootstage => flags.(lootstage := !flags.lootstage)
    case Day => flags.(day := !flags.day)
    case BloodMoon => flags.(bloodMoon := !flags.bloodMoon)
    case Kills => flags.(kills := !flags.kills)
    case NearestEnemy => flags.(nearestEnemy := !flags.nearestEnemy)
  }

  /** Two configurations that agree on every flag are the same configuration. */
  lemma FlagsExtensional(a: DisplayFlags, b: DisplayFlags)
    requires forall f :: a.Get(f) == b.Get(f)
    ensures a == b
  {
    assert a.Get(Level) == b.Get(Level) && a.Get(Gamestage) == b.Get(Gamestage);
    assert a.Get(Lootstage) == b.Get(Lootstage) && a.Get(Day) == b.Get(Day);
    assert a.Get(BloodMoon) == b.Get(BloodMoon) && a.Get(Kills) == b.Get(Kills);
    assert a.Get(NearestEnemy) == b.Get(NearestEnemy);
  }

  /** Toggling the same flag twice restores the configuration. */
  lemma ToggleTwice(flags: DisplayFlags, f: Flag)
    ensures Toggle(Toggle(flags, f), f) == flags
  {
    FlagsExtensional(Toggle(Toggle(flags, f), f), flags);
  }

  // ----------------------------------------------------------- load/save

  /** The element under <Display> that holds each flag. */
  function ElementName(f: Flag): string {
    match f
    case Level => "Level"
    case Gamestage => "Gamestage"
    case Lootstage => "Lootstage"
    case Day => "Day"
    case BloodMoon => "BloodMoon"
    case Kills => "Kills"
    case NearestEnemy => "NearestEnemy"
  }

  /**
   * ParseBool: the default when the element or its `enabled` attribute is
   * absent; otherwise true exactly for "true" in any casing.
   */
  function ParseBool(display: Elements, name: string, default: bool): (r: bool)
    ensures name !in display || "enabled" !in display[name] ==> r == default
    ensures name in display && "enabled" in display[name] ==> (r <==> Lower(display[name]["enabled"]) == "true")
  {
    if name !in display || "enabled" !in display[name] then default
    else Lower(display[name]["enabled"]) == "true"
  }

  /** Boolean.ToString().ToLower(). */
  function BoolText(b: bool): (r: string)
    ensures Lower(r) == "true" <==> b
  {
    var r := if b then "true" else "false";
    assert Lower("true") == "true" && Lower("false") == "false";
    r
  }

  /** The <Display> children Save writes: one element per flag, with its lower-case value. */
  function SaveDoc(flags: DisplayFlags): Elements {
    map[
      "Level" := map["enabled" := BoolText(flags.level)],
      "Gamestage" := map["enabled" := BoolText(flags.gamestage)],
      "Lootstage" := map["enabled" := BoolText(flags.lootstage)],
      "Day" := map["enabled" := BoolText(flags.day)],
      "BloodMoon" := map["enabled" := BoolText(flags.bloodMoon)],
      "Kills" := map["enabled" := BoolText(flags.kills)],
      "NearestEnemy" := map["enabled" := BoolText(flags.nearestEnemy)]]
  }

  /** Save writes each flag under its own element name, as lower-case "true" or "false". */
  lemma SaveDocEntry(flags: DisplayFlags, f: Flag)
    ensures ElementName(f) in SaveDoc(flags)
    ensures SaveDoc(flags)[ElementName(f)] == map["enabled" := BoolText(flags.Get(f))]
  {
    var d := SaveDoc(flags);
    match f
    case Level => assert d["Level"] == map["enabled" := BoolText(flags.level)];
    case Gamestage => assert d["Gamestage"] == map["enabled" := BoolText(flags.gamestage)];
    case Lootstage => assert d["Lootstage"] == map["enabled" := BoolText(flags.lootstage)];
    case Day => assert d["Day"] == map["enabled" := BoolText(flags.day)];
    case BloodMoon => assert d["BloodMoon"] == map["enabled" := BoolText(flags.bloodMoon)];
    case Kills => assert d["Kills"] == map["enabled" := BoolText(flags.kills)];
    case NearestEnemy => assert d["NearestEnemy"] == map["enabled" := BoolText(flags.nearestEnemy)];
  }

  /** The flags Load reads from a parsed document, each defaulting to true. */
  function LoadDoc(display: Elements): (r: DisplayFlags)
    ensures forall f :: r.Get(f) == ParseBool(display, ElementName(f), true)
  {
    DisplayFlags(
      ParseBool(display, "Level", true), ParseBool(display, "Gamestage", true),
      ParseBool(display, "Lootstage", true), ParseBool(display, "Day", true),
      ParseBool(display, "BloodMoon", true), ParseBool(display, "Kills", true),
      ParseBool(display, "NearestEnemy", true))
  }

  /** DisplayConfig.Load: the defaults unless the file exists and parses. */
  function LoadFlags(file: XmlFile): (r: DisplayFlags)
    ensures !file.Parsed? ==> r == Defaults()
    ensures file.Parsed? ==> r == LoadDoc(file.elements)
  {
    if file.Parsed? then LoadDoc(file.elements) else Defaults()
  }

  /** What Save writes, Load reads back. */
  lemma LoadSaveRoundTrip(flags: DisplayFlags)
    ensures LoadFlags(Parsed(SaveDoc(flags))) == flags
  {
    var r := LoadFlags(Parsed(SaveDoc(flags)));
    forall f ensures r.Get(f) == flags.Get(f) {
      SaveDocEntry(flags, f);
    }
    FlagsExtensional(r, flags);
  }

  /** Flags absent from a document read as shown; an empty <Display> gives the defaults. */
  lemma LoadEmptyDisplay()
    ensures LoadFlags(Parsed(map[])) == Defaults()
  {
    FlagsExtensional(LoadFlags(Parsed(map[])), Defaults());
  }

  // -------------------------------------------------------------- object

  /** DisplayConfig, whose flags the console command sets in place. */
  class DisplayConfig {
    var showLevel: bool
    var showGamestage: bool
    var showLootstage: bool
    var showDay: bool
    var showBloodMoon: bool
    var showKills: bool
    var showNearestEnemy: bool

    function Flags(): DisplayFlags
      reads this
    {
      DisplayFlags(showLevel, showGamestage, showLootstage, showDay, showBloodMoon, showKills, showNearestEnemy)
    }

    constructor ()
      ensures Flags() == Defaults()
    {
      showLevel, showGamestage, showLootstage, showDay := true, true, true, true;
      showBloodMoon, showKills, showNearestEnemy := true, true, true;
    }

    /** DisplayConfig.Load: a fresh object, then each flag read in turn when the file parsed. */
    static method Load(file: XmlFile) returns (c: DisplayConfig)
      ensures fresh(c)
      ensures c.Flags() == LoadFlags(file)
    {
      c := new DisplayConfig();
      if file.Parsed? {
        c.SetFlags(LoadDoc(file.elements));
      }
    }

    /** Assigns the seven flags. */
    method SetFlags(flags: DisplayFlags)
      modifies this
      ensures Flags() == flags
    {
      showLevel, showGamestage, showLootstage, showDay := flags.level, flags.gamestage, flags.lootstage, flags.day;
      showBloodMoon, showKills, showNearestEnemy := flags.bloodMoon, flags.kills, flags.nearestEnemy;
    }

    /** DisplayConfig.Save: the document written, which Load reads back as this object's flags. */
    method Save() returns (d: Elements)
      ensures d == SaveDoc(Flags())
      ensures LoadFlags(Parsed(d)) == Flags()
    {
      d := map[];
      d := d["Level" := map["enabled" := BoolText(showLevel)]];
      d := d["Gamestage" := map["enabled" := BoolText(showGamestage)]];
      d := d["Lootstage" := map["enabled" := BoolText(showLootstage)]];
      d := d["Day" := map["enabled" := BoolText(showDay)]];
      d := d["BloodMoon" := map["enabled" := BoolText(showBloodMoon)]];
      d := d["Kills" := map["enabled" := BoolText(showKills)]];
      d := d["NearestEnemy" := map["enabled" := BoolText(showNearestEnemy)]];
      LoadSaveRoundTrip(Flags());
    }
  }

  // ------------------------------------------------------------- command

  /** The option word (already lower-cased) that toggles each flag. */
  function OptionName(f: Flag): string {
    match f
    case Level => "level"
    case Gamestage => "gamestage"
    case Lootstage => "lootstage"
    case Day => "day"
    case BloodMoon => "bloodmoon"
    case Kills => "kills"
    case NearestEnemy => "enemy"
  }

  /** The label of each flag in the toggle message. */
  function Label(f: Flag): string {
    match f
    case Level => "Level"
    case Gamestage => "Gamestage"
    case Lootstage => "Lootstage"
    case Day => "Day"
    case BloodMoon => "Blood Moon"
    case Kills => "Kills"
    case NearestEnemy => "Nearest Enemy"
  }

  /** The flag a lower-cased option names, if any. */
  function OptionFlag(arg: string): (r: Option<Flag>)
    ensures r.Some? ==> OptionName(r.value) == arg
    ensures r.None? ==> forall f :: OptionName(f) != arg
  {
    if arg == "level" then Some(Level)
    else if arg == "gamestage" then Some(Gamestage)
    else if arg == "lootstage" then Some(Lootstage)
    else if arg == "day" then Some(Day)
    else if arg == "bloodmoon" then Some(BloodMoon)
    else if arg == "kills" then Some(Kills)
    else if arg == "enemy" then Some(NearestEnemy)
    else None
  }

  /** Every flag has its own option word. */
  lemma OptionNamesDistinct(f: Flag, g: Flag)
    requires OptionName(f) == OptionName(g)
    ensures f == g
  {
    assert OptionFlag(OptionName(f)) == Some(f);
  }

  /** An option word is neither "all" nor "none" and selects its own flag. */
  lemma OptionNameSelects(f: Flag)
    ensures OptionName(f) != "all" && OptionName(f) != "none"
    ensures OptionFlag(OptionName(f)) == Some(f)
  {
    assert OptionFlag("all") == None && OptionFlag("none") == None;
    var g := OptionFlag(OptionName(f));
    assert g.Some?;
    OptionNamesDistinct(g.value, f);
  }

  /** The flags after one `hs <arg>` command, arg lower-cased. */
  function ApplyOption(flags: DisplayFlags, arg: string): (r: DisplayFlags)
    ensures arg == "all" ==> forall f :: r.Get(f)
    ensures arg == "none" ==> forall f :: !r.Get(f)
    ensures forall f :: arg == OptionName(f) ==> r == Toggle(flags, f)
    ensures arg != "all" && arg != "none" && (forall f :: arg != OptionName(f)) ==> r == flags
  {
    if arg == "all" then AllSet(true)
    else if arg == "none" then AllSet(false)
    else match OptionFlag(arg)
      case Some(f) => Toggle(flags, f)
      case None => flags
  }

  /** "all" and "none" are idempotent. */
  lemma AllNoneIdempotent(flags: DisplayFlags)
    ensures ApplyOption(ApplyOption(flags, "all"), "all") == ApplyOption(flags, "all")
    ensures ApplyOption(ApplyOption(flags, "none"), "none") == ApplyOption(flags, "none")
  {
  }

  /** A named option applied twice restores the configuration. */
  lemma OptionTwiceRestores(flags: DisplayFlags, f: Flag)
    ensures ApplyOption(ApplyOption(flags, OptionName(f)), OptionName(f)) == flags
  {
    ToggleTwice(flags, f);
  }

  function OnOff(value: bool): (r: string)
    ensures r == "ON" <==> value
    ensures r == "OFF" <==> !value
  {
    if value then "ON" else "OFF"
  }

  /** The console line after `hs <arg>`, given the flags after the command. */
  function OptionMessage(after: DisplayFlags, arg: string): string {
    if arg == "all" then "All info panel elements enabled."
    else if arg == "none" then "All info panel elements disabled."
    else match OptionFlag(arg)
      case Some(f) => Label(f) + ": " + OnOff(after.Get(f))
      case None => "Unknown option: " + arg + ". Type 'hs' for help."
  }

  /** A toggle message names the flag and reports its new state. */
  lemma ToggleMessageReportsNewState(flags: DisplayFlags, f: Flag)
    ensures var after := ApplyOption(flags, OptionName(f));
      var m := OptionMessage(after, OptionName(f));
      && m == Label(f) + ": " + OnOff(!flags.Get(f))
      && (m[|m| - 2..] == "ON" <==> !flags.Get(f))
  {
    var arg := OptionName(f);
    OptionNameSelects(f);
    var after := ApplyOption(flags, arg);
    assert after == Toggle(flags, f);
    var m := OptionMessage(after, arg);
    var p := Label(f) + ": ";
    assert m == p + OnOff(!flags.Get(f));
    if flags.Get(f) {
      assert m[|m| - 2..] == "FF";
    } else {
      assert m[|m| - 2..] == "ON";
    }
  }

  /** FormatHotkey: "Disabled" for a disabled binding or one without a key, else its text. */
  function FormatHotkey(b: HotkeyBinding): (r: string)
    ensures !b.enabled || b.key == NoKey ==> r == "Disabled"
    ensures b.enabled && b.key != NoKey ==> r == BindingText(b)
  {
    if !b.enabled || b.key == NoKey then "Disabled" else BindingText(b)
  }

  /** A binding the constructor built with a key never prints as "Disabled". */
  lemma BindingTextNotDisabled(b: HotkeyBinding)
    requires b.WellFormed() && b.key != NoKey
    ensures BindingText(b) != "Disabled"
  {
    if b.HasModifier() {
      ModifierTextHasPlus(b);
    } else {
      DisabledIsNoKeyName();
    }
  }

  /** With a modifier, the text has a '+' after the modifier's name, which "Disabled" lacks. */
  lemma ModifierTextHasPlus(b: HotkeyBinding)
    requires b.HasModifier()
    ensures BindingText(b) != "Disabled"
  {
    assert BindingText(b)[|b.modifierName|] == '+';
    assert forall i :: 0 <= i < |"Disabled"| ==> "Disabled"[i] != '+';
  }

  /** "Disabled" names no key. */
  lemma DisabledIsNoKeyName()
    ensures ParseKeyCode("Disabled", NoKey) == NoKey
  {
    assert Lower("Disabled") == "disabled";
  }

  /** For a binding the constructor built, "Disabled" is shown exactly when no input can press it. */
  lemma FormatHotkeyDisabledIffNeverPressed(b: HotkeyBinding)
    requires b.WellFormed()
    ensures FormatHotkey(b) == "Disabled" <==> forall input :: !IsPressed(b, input)
  {
    if b.enabled && b.key != NoKey {
      assert IsPressed(b, InputState({b.modifier}, {b.key}));
      BindingTextNotDisabled(b);
    }
  }

  /** `s` ends with `t`. */
  predicate EndsWith(s: string, t: string) {
    |t| <= |s| && s[|s| - |t|..] == t
  }

  /** A status line: a label followed by a value. */
  function Line(caption: string, value: string): (r: string)
    ensures EndsWith(r, value)
  {
    var r := caption + value;
    assert r[|caption|..] == value;
    r
  }

  /** The seven flag lines of ShowStatus, in the order of Flag. */
  function FlagLines(flags: DisplayFlags): (r: seq<string>)
    ensures |r| == 7
    ensures EndsWith(r[0], OnOff(flags.level)) && EndsWith(r[1], OnOff(flags.gamestage))
    ensures EndsWith(r[2], OnOff(flags.lootstage)) && EndsWith(r[3], OnOff(flags.day))
    ensures EndsWith(r[4], OnOff(flags.bloodMoon)) && EndsWith(r[5], OnOff(flags.kills))
    ensures EndsWith(r[6], OnOff(flags.nearestEnemy))
  {
    [ Line("  Level:      ", OnOff(flags.level)),
      Line("  Gamestage:  ", OnOff(flags.gamestage)),
      Line("  Lootstage:  ", OnOff(flags.lootstage)),
      Line("  Day:        ", OnOff(flags.day)),
      Line("  Blood Moon: ", OnOff(flags.bloodMoon)),
      Line("  Kills:      ", OnOff(flags.kills)),
      Line("  Enemy:      ", OnOff(flags.nearestEnemy))]
  }

  /** The five hotkey lines of ShowStatus. */
  function HotkeyLines(hotkeys: HotkeyConfig): (r: seq<string>)
    ensures |r| == 5
    ensures EndsWith(r[0], FormatHotkey(hotkeys.quickStack)) && EndsWith(r[1], FormatHotkey(hotkeys.stashAll))
    ensures EndsWith(r[2], FormatHotkey(hotkeys.restock)) && EndsWith(r[3], FormatHotkey(hotkeys.sortContainer))
    ensures EndsWith(r[4], FormatHotkey(hotkeys.sortInventory))
  {
    [ Line("  Quick Stack:    ", FormatHotkey(hotkeys.quickStack)),
      Line("  Stash All:      ", FormatHotkey(hotkeys.stashAll)),
      Line("  Restock:        ", FormatHotkey(hotkeys.restock)),
      Line("  Sort Container: ", FormatHotkey(hotkeys.sortContainer)),
      Line("  Sort Inventory: ", FormatHotkey(hotkeys.sortInventory))]
  }

  const PanelHeading := "=== HemSoft QoL Info Panel ==="
  const HotkeyHeading := "=== Hotkeys (when container open) ==="
  const UsageHints := [
    "Type 'hs <option>' to toggle. Example: hs level",
    "Type 'hs all' or 'hs none' to show/hide all.",
    "Edit Config/HemSoftQoL.xml to change hotkeys."]

  /** ShowStatus: a heading, the flag lines, a heading, the hotkey lines, then the usage hints. */
  function StatusLines(flags: DisplayFlags, hotkeys: HotkeyConfig): (r: seq<string>)
    ensures |r| == 19
    ensures forall i :: 0 <= i < 7 ==> r[1 + i] == FlagLines(flags)[i]
    ensures forall i :: 0 <= i < 5 ==> r[10 + i] == HotkeyLines(hotkeys)[i]
  {
    var r := [PanelHeading] + FlagLines(flags) + ["", HotkeyHeading] + HotkeyLines(hotkeys) + [""] + UsageHints;
    r
  }

  /** EnableAll: every flag on. */
  method EnableAll(config: DisplayConfig) returns (message: string)
    modifies config
    ensures config.Flags() == AllSet(true)
    ensures message == "All info panel elements enabled."
  {
    config.showLevel := true;
    config.showGamestage := true;
    config.showLootstage := true;
    config.showDay := true;
    config.showBloodMoon := true;
    config.showKills := true;
    config.showNearestEnemy := true;
    message := "All info panel elements enabled.";
  }

  /** DisableAll: every flag off. */
  method DisableAll(config: DisplayConfig) returns (message: string)
    modifies config
    ensures config.Flags() == AllSet(false)
    ensures message == "All info panel elements disabled."
  {
    config.showLevel := false;
    config.showGamestage := false;
    config.showLootstage := false;
    config.showDay := false;
    config.showBloodMoon := false;
    config.showKills := false;
    config.showNearestEnemy := false;
    message := "All info panel elements disabled.";
  }

  /** One case of the command's switch: negate a flag and report its new state. */
  method ToggleFlag(config: DisplayConfig, f: Flag) returns (message: string)
    modifies config
    ensures config.Flags() == Toggle(old(config.Flags()), f)
    ensures message == Label(f) + ": " + OnOff(config.Flags().Get(f))
  {
    match f {
    case Level =>
      config.showLevel := !config.showLevel;
    case Gamestage =>
      config.showGamestage := !config.showGamestage;
    case Lootstage =>
      config.showLootstage := !config.showLootstage;
    case Day =>
      config.showDay := !config.showDay;
    case BloodMoon =>
      config.showBloodMoon := !config.showBloodMoon;
    case Kills =>
      config.showKills := !config.showKills;
    case NearestEnemy =>
      config.showNearestEnemy := !config.showNearestEnemy;
    }
    message := Label(f) + ": " + OnOff(config.Flags().Get(f));
  }

  /** What one run of the command prints, and the document it saves if it saves one. */
  datatype CommandOutput =
    | Status(lines: seq<string>)
    | Toggled(message: string, saved: Elements)

  /**
   * Execute: with no parameter, the status and nothing else; otherwise the
   * lower-cased first parameter is applied, the configuration is saved
   * (also for an unknown option) and one message is printed.
   */
  method Execute(config: DisplayConfig, hotkeys: HotkeyConfig, params: seq<string>) returns (out: CommandOutput)
    modifies config
    ensures params == [] ==> config.Flags() == old(config.Flags()) && out == Status(StatusLines(config.Flags(), hotkeys))
    ensures params != [] ==>
      && config.Flags() == ApplyOption(old(config.Flags()), Lower(params[0]))
      && out == Toggled(OptionMessage(config.Flags(), Lower(params[0])), SaveDoc(config.Flags()))
  {
    if params == [] {
      return Status(StatusLines(config.Flags(), hotkeys));
    }
    var arg := Lower(params[0]);
    var message: string;
    if arg == "all" {
      message := EnableAll(config);
    } else if arg == "none" {
      message := DisableAll(config);
    } else {
      match OptionFlag(arg)
      case Some(f) =>
        message := ToggleFlag(config, f);
      case None =>
        message := "Unknown option: " + arg + ". Type 'hs' for help.";
    }
    var saved := config.Save();
    out := Toggled(message, saved);
  }
}
