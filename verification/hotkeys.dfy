/**
 * Hotkey bindings and the hotkey configuration (HemSoftQoL.cs):
 * HotkeyBinding, its key-name parsing, IsPressed and ToString, and
 * HotkeyConfig with its defaults and per-attribute loading.
 */
module Hotkeys {
  import opened Text
  import opened Xml

  // ----------------------------------------------------------- key codes

  /** A Unity KeyCode, by its numeric value. */
  type KeyCode = int

  const NoKey: KeyCode := 0
  const KeyC: KeyCode := 99
  const KeyP: KeyCode := 112
  const KeyQ: KeyCode := 113
  const KeyR: KeyCode := 114
  const KeyX: KeyCode := 120
  const UpArrow: KeyCode := 273
  const DownArrow: KeyCode := 274
  const RightArrow: KeyCode := 275
  const LeftArrow: KeyCode := 276
  const F12: KeyCode := 293
  const LeftShift: KeyCode := 304
  const LeftAlt: KeyCode := 308

  /**
   * The part of the KeyCode enumeration's name table that this model knows,
   * keyed by lower-cased name (Enum.TryParse is asked to ignore case).
   */
  const KeyNames: map<string, KeyCode> := map[
    "none" := NoKey, "c" := KeyC, "p" := KeyP, "q" := KeyQ, "r" := KeyR, "x" := KeyX,
    "uparrow" := UpArrow, "downarrow" := DownArrow, "rightarrow" := RightArrow,
    "leftarrow" := LeftArrow, "f12" := F12, "leftshift" := LeftShift, "leftalt" := LeftAlt]

  /** Keys held down and keys that went down this frame (Input.GetKey / Input.GetKeyDown). */
  datatype InputState = InputState(held: set<KeyCode>, down: set<KeyCode>)

  /**
   * ParseKeyCode: the default for an empty name or any casing of "None",
   * the named key for a known name, and the default for an unknown one.
   */
  function ParseKeyCode(value: string, default: KeyCode): (r: KeyCode)
    ensures value == [] || Lower(value) == "none" ==> r == default
    ensures Lower(value) !in KeyNames ==> r == default
    ensures Lower(value) in KeyNames && Lower(value) != "none" ==> r == KeyNames[Lower(value)]
  {
    if value == [] || Lower(value) == "none" then default
    else if Lower(value) in KeyNames then KeyNames[Lower(value)]
    else default
  }

  // ------------------------------------------------------------- binding

  /** HotkeyBinding: the names as configured, the keys they parse to, and the enabled flag. */
  datatype HotkeyBinding = HotkeyBinding(
    modifierName: string, keyName: string, modifier: KeyCode, key: KeyCode, enabled: bool)
  {
    predicate HasModifier() { modifier != NoKey }

    /** True of every binding the constructor builds. */
    predicate WellFormed() {
      modifier == ParseKeyCode(modifierName, NoKey) && key == ParseKeyCode(keyName, NoKey)
    }
  }

  /** The HotkeyBinding constructor. */
  function NewBinding(modifier: string, key: string, enabled: bool): (b: HotkeyBinding)
    ensures b.WellFormed()
    ensures b.modifierName == modifier && b.keyName == key && b.enabled == enabled
  {
    HotkeyBinding(modifier, key, ParseKeyCode(modifier, NoKey), ParseKeyCode(key, NoKey), enabled)
  }

  /**
   * IsPressed: an enabled binding with a key fires when that key went down this
   * frame while its modifier, if it has one, is held.
   */
  predicate IsPressed(b: HotkeyBinding, input: InputState)
    ensures IsPressed(b, input) ==> b.enabled && b.key != NoKey && b.key in input.down
    ensures IsPressed(b, input) && b.HasModifier() ==> b.modifier in input.held
    ensures (b.enabled && b.key != NoKey && b.key in input.down
             && (!b.HasModifier() || b.modifier in input.held)) ==> IsPressed(b, input)
  {
    if !b.enabled || b.key == NoKey then false
    else
      var modifierHeld := !b.HasModifier() || b.modifier in input.held;
      modifierHeld && b.key in input.down
  }

  /** HotkeyBinding.ToString. */
  function BindingText(b: HotkeyBinding): (r: string)
    ensures |r| >= |b.keyName| && r[|r| - |b.keyName|..] == b.keyName
    ensures b.HasModifier() ==> |r| == |b.modifierName| + 1 + |b.keyName|
                                && r[..|b.modifierName|] == b.modifierName && r[|b.modifierName|] == '+'
    ensures !b.HasModifier() ==> r == b.keyName
  {
    if b.HasModifier() then b.modifierName + "+" + b.keyName else b.keyName
  }

  /** A binding without a modifier ignores which keys are held. */
  lemma IsPressedWithoutModifier(b: HotkeyBinding, input: InputState, held: set<KeyCode>)
    requires !b.HasModifier()
    ensures IsPressed(b, input) == IsPressed(b, InputState(held, input.down))
  {
  }

  // -------------------------------------------------------------- config

  /** HotkeyConfig: the five bindings the mod reads. */
  datatype HotkeyConfig = HotkeyConfig(
    quickStack: HotkeyBinding, stashAll: HotkeyBinding, restock: HotkeyBinding,
    sortContainer: HotkeyBinding, sortInventory: HotkeyBinding)

  /** The property initialisers of HotkeyConfig. */
  function DefaultHotkeys(): HotkeyConfig {
    HotkeyConfig(
      NewBinding("LeftAlt", "Q", true), NewBinding("LeftAlt", "X", true),
      NewBinding("LeftAlt", "R", true), NewBinding("LeftAlt", "C", true),
      NewBinding("LeftAlt", "", true))
  }

  /** The defaults are Alt+Q, Alt+X, Alt+R and Alt+C; Sort Inventory has no key and never fires. */
  lemma DefaultHotkeysDecoded(input: InputState)
    ensures var d := DefaultHotkeys();
      && d.quickStack.modifier == LeftAlt && d.quickStack.key == KeyQ && d.quickStack.enabled
      && d.stashAll.modifier == LeftAlt && d.stashAll.key == KeyX && d.stashAll.enabled
      && d.restock.modifier == LeftAlt && d.restock.key == KeyR && d.restock.enabled
      && d.sortContainer.modifier == LeftAlt && d.sortContainer.key == KeyC && d.sortContainer.enabled
      && d.sortInventory.key == NoKey && !IsPressed(d.sortInventory, input)
  {
    assert Lower("LeftAlt") == "leftalt";
    assert Lower("Q") == "q" && Lower("X") == "x" && Lower("R") == "r" && Lower("C") == "c";
  }

  /** The text of an attribute, or a fallback when the attribute is absent (the `?.Value ??` idiom). */
  function AttributeOr(attrs: Attributes, name: string, fallback: string): string {
    if name in attrs then attrs[name] else fallback
  }

  /**
   * ParseHotkey: a missing element keeps the default binding; otherwise each
   * missing attribute falls back on its own (modifier and key to the default's
   * names, enabled to "true"), and the binding is enabled only for "true" in
   * any casing.
   */
  function ParseHotkey(elements: Elements, name: string, default: HotkeyBinding): (b: HotkeyBinding)
    ensures name !in elements ==> b == default
    ensures name in elements ==> b.WellFormed()
    ensures name in elements ==>
      && b.modifierName == AttributeOr(elements[name], "modifier", default.modifierName)
      && b.keyName == AttributeOr(elements[name], "key", default.keyName)
      && (b.enabled <==> Lower(AttributeOr(elements[name], "enabled", "true")) == "true")
  {
    if name !in elements then default
    else
      var attrs := elements[name];
      var enabled := AttributeOr(attrs, "enabled", "true");
      var modifier := AttributeOr(attrs, "modifier", default.modifierName);
      var key := AttributeOr(attrs, "key", default.keyName);
      NewBinding(modifier, key, Lower(enabled) == "true")
  }

  /** The attributes a well-formed binding would be written with. */
  function HotkeyAttributes(b: HotkeyBinding): Attributes {
    map["enabled" := if b.enabled then "true" else "false", "modifier" := b.modifierName, "key" := b.keyName]
  }

  /** An element carrying a binding's own names and flag parses back to that binding. */
  lemma ParseHotkeyRoundTrip(elements: Elements, name: string, b: HotkeyBinding, default: HotkeyBinding)
    requires b.WellFormed()
    ensures ParseHotkey(elements[name := HotkeyAttributes(b)], name, default) == b
  {
    assert Lower("true") == "true";
    assert Lower("false") == "false";
  }

  /** An element with no attributes keeps the default names but is always enabled. */
  lemma ParseHotkeyBareElement(elements: Elements, name: string, default: HotkeyBinding)
    ensures ParseHotkey(elements[name := map[]], name, default)
            == NewBinding(default.modifierName, default.keyName, true)
  {
    assert Lower("true") == "true";
  }

  /** HotkeyConfig.Load: the defaults unless the file exists and parses, then ParseHotkey per binding. */
  function LoadHotkeys(file: XmlFile): (c: HotkeyConfig)
    ensures !file.Parsed? ==> c == DefaultHotkeys()
    ensures file.Parsed? ==> c.quickStack.WellFormed() && c.stashAll.WellFormed() && c.restock.WellFormed()
    ensures file.Parsed? && "QuickStack" !in file.elements ==> c.quickStack == DefaultHotkeys().quickStack
    ensures file.Parsed? && "StashAll" !in file.elements ==> c.stashAll == DefaultHotkeys().stashAll
    ensures file.Parsed? && "Restock" !in file.elements ==> c.restock == DefaultHotkeys().restock
    ensures file.Parsed? && "SortContainer" !in file.elements ==> c.sortContainer == DefaultHotkeys().sortContainer
    ensures file.Parsed? && "SortInventory" !in file.elements ==> c.sortInventory == DefaultHotkeys().sortInventory
    ensures file.Parsed? && "QuickStack" in file.elements ==>
      c.quickStack.keyName == AttributeOr(file.elements["QuickStack"], "key", "Q")
    ensures file.Parsed? ==>
      && c.quickStack == ParseHotkey(file.elements, "QuickStack", DefaultHotkeys().quickStack)
      && c.stashAll == ParseHotkey(file.elements, "StashAll", DefaultHotkeys().stashAll)
      && c.restock == ParseHotkey(file.elements, "Restock", DefaultHotkeys().restock)
      && c.sortContainer == ParseHotkey(file.elements, "SortContainer", DefaultHotkeys().sortContainer)
      && c.sortInventory == ParseHotkey(file.elements, "SortInventory", DefaultHotkeys().sortInventory)
  {
    var d := DefaultHotkeys();
    match file
    case Parsed(elements) =>
      HotkeyConfig(
        ParseHotkey(elements, "QuickStack", d.quickStack),
        ParseHotkey(elements, "StashAll", d.stashAll),
        ParseHotkey(elements, "Restock", d.restock),
        ParseHotkey(elements, "SortContainer", d.sortContainer),
        ParseHotkey(elements, "SortInventory", d.sortInventory))
    case _ => d
  }
}
