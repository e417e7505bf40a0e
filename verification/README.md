# HemSoft QoL, modelled in Dafny

HemSoft QoL is a quality-of-life mod for the game 7 Days to Die. With a
container open, hotkeys move items between the player's backpack and the
container: Quick Stack, Stash All, Restock and Loot All. A HUD info panel
shows the player's level, gamestage, lootstage, the day, the next blood moon,
kills and nearby enemies. The console command `hs` (or `hemsoft`) picks which
of those panel elements are shown and saves the choice to XML. A popup reports
changes of the lootstage.

This project models the parts of the mod that do not depend on the game
engine, and proves what they do:

- `stacks.dfy` (module `Stacks`): item stacks, the empty stack, and the units of
  an item type held by a slot array.
- `inventory_actions.dfy` (module `InventoryActions`): Restock as an in-place
  loop over the two slot arrays. It is proved equal to the specification
  functions `Fill`/`RestockFrom`, and lemmas about those functions prove
  conservation of units per item type, the max-stack bound and greedy filling.
  QuickStack, StashAll and LootAll are in-place loops too. They call the host's
  `TryStackItem` and `AddItem`, which the model takes as function parameters
  with an assumed contract. For each of them the model proves conservation,
  that the reported count equals the units moved, and how each slot may change.
- `hotkey_patches.dfy` (module `InventoryHotkeyPatches`): which action a frame
  triggers, and the sound and log line an action produces.
- `hotkeys.dfy` (module `Hotkeys`): hotkey bindings, key-name parsing, `IsPressed`
  over an abstract input state, `ToString`, the default bindings and the
  per-attribute loading of the hotkey file.
- `display_config.dfy` (module `DisplayConfigs`): the seven display flags as a class
  changed in place by the `hs` command, and their load/save round trip.
- `info_panel.dfy` (module `InfoPanel`): the next blood-moon day (with C#'s
  truncating division), the text and colour bindings, enemy-name cleaning,
  position mode, the cached-value refresh and the row layout loop.
- `lootstage_popup.dfy` (module `LootstagePopup`): the popup's state, its
  countdown and its diff, message and colour bindings.
- `text.dfy`, `xml.dfy` and `wrappers.dfy` are support modules. They model
  ASCII `ToLower`, `TrimStart` and `Int32.ToString`, with a decimal reading
  that proves what a printed number denotes. They also hold the abstract XML
  document (element name to attribute map) and `Option`.

Integers are unbounded. Key codes are Unity's numeric `KeyCode` values, and
their names are looked up in a fixed, lower-cased name table.

Points of the code the model keeps as they are:

- Stash All calls `AddItem` only when `TryStackItem` moved nothing
  (HemSoft_QoL/Harmony/InventoryHotkeyPatches.cs:135-147). A stack that was
  merged in part keeps its remainder in the backpack.
- The console command knows seven flag options plus `all` and `none`
  (HemSoft_QoL/Harmony/HemSoftConfigWindow.cs:82-121). Any other word is
  reported as unknown, and the configuration is still saved.
- The dispatch reads a Loot All binding that the hotkey configuration does
  not declare. The model takes that binding as a parameter.

## Model

| member | source | states |
|---|---|---|
| Text.Lower | HemSoft_QoL/Harmony/HemSoftConfigWindow.cs:80 | Lower-casing keeps the length and maps each character to its lower-case form. |
| Text.TrimStart | HemSoft_QoL/Harmony/HemSoftInfoPanel.cs:517-521 | The result is a suffix of the input. Everything dropped is white space, and the result does not start with white space. |
| Text.IntToString | HemSoft_QoL/Harmony/HemSoftInfoPanel.cs:412 | The printed text is a decimal numeral denoting the number. It starts with '-' exactly for negative numbers and never with '+'. |
| DisplayConfigs.AllSet | HemSoft_QoL/Harmony/HemSoftConfigWindow.cs:129-151 | Every one of the seven flags has the given value. |
| InventoryActions.Restock | HemSoft_QoL/Harmony/InventoryHotkeyPatches.cs:164-228 | With either inventory missing, nothing changes and 0 is reported. Otherwise the arrays end as, and the count equals, the specification `Restocked` of the old contents. |
| InventoryActions.RestockConservesUnits | HemSoft_QoL/Harmony/InventoryHotkeyPatches.cs:197-204 | For every item type, backpack units plus container units are the same before and after Restock. |
| InventoryActions.RestockReportsUnitsMoved | HemSoft_QoL/Harmony/InventoryHotkeyPatches.cs:198-204 | The reported count equals the units the backpack gained and the units the container lost, and is never negative. |
| InventoryActions.RestockSlots | HemSoft_QoL/Harmony/InventoryHotkeyPatches.cs:180-215 | Only non-empty backpack stacks with a known class that are below max are filled, never beyond max, and keep their type. Every other backpack slot is unchanged. A container slot only loses units, keeping its type, and becomes Empty when drained. A container slot changes only when some filled backpack stack has its item type. |
| InventoryActions.RestockFillsGreedily | HemSoft_QoL/Harmony/InventoryHotkeyPatches.cs:190-219 | Every stack Restock tries to fill ends at its max stack, or no non-empty container stack of its type is left. |
| InventoryActions.FillConserves | HemSoft_QoL/Harmony/InventoryHotkeyPatches.cs:197-215 | The inner loop conserves units of every type between the player stack and the container and counts what it moved. |
| InventoryActions.FillGreedy | HemSoft_QoL/Harmony/InventoryHotkeyPatches.cs:190-219 | The inner loop stops only at max stack or after every matching container stack is used up. |
| InventoryActions.RemainderUnits | HemSoft_QoL/Harmony/InventoryHotkeyPatches.cs:89-99 | A stack reduced to `left` units gives up count - left units of its own type only. A slot left with zero units becomes the empty stack. |
| InventoryActions.QuickStack | HemSoft_QoL/Harmony/InventoryHotkeyPatches.cs:58-110 | No-op when an inventory is missing. Units of every type are conserved, and the count is the backpack's loss (≥ 0). Backpack slots only shrink or empty, and a stack whose type the container lacks is untouched. Container slots only grow. |
| InventoryActions.StashAll | HemSoft_QoL/Harmony/InventoryHotkeyPatches.cs:115-159 | No-op when an inventory is missing. Units of every type are conserved, the count is the backpack's loss (≥ 0), and backpack slots only shrink or empty. |
| InventoryActions.LootAll | HemSoft_QoL/Harmony/InventoryHotkeyPatches.cs:233-263 | No-op when an inventory is missing. Units are conserved, and the count is the container's loss (≥ 0). A container slot is either unchanged or was non-empty and is now Empty. |
| InventoryHotkeyPatches.TriggeredAction | HemSoft_QoL/Harmony/InventoryHotkeyPatches.cs:18-47 | Nothing fires unless the game runs, a container is open and the configuration is loaded. Then the first pressed binding wins, in the order QuickStack, StashAll, Restock, LootAll (stated as if-and-only-if per action). |
| InventoryHotkeyPatches.NoKeyDownNoAction | HemSoft_QoL/Harmony/InventoryHotkeyPatches.cs:18-47 | With the default bindings, a frame with no key going down triggers nothing. |
| InventoryHotkeyPatches.ActionFeedback | HemSoft_QoL/Harmony/InventoryHotkeyPatches.cs:105-109 | The "ui_loot" sound and the log line happen exactly when the count is positive. The number in the line denotes the count. |
| Hotkeys.ParseKeyCode | HemSoft_QoL/Harmony/HemSoftQoL.cs:164-173 | Empty, any casing of "None", or an unknown name gives the default. A known name gives its key, case-insensitively. |
| Hotkeys.NewBinding | HemSoft_QoL/Harmony/HemSoftQoL.cs:149-156 | The binding keeps the given names and flag, and its keys are the parsed names (None when unknown). |
| Hotkeys.IsPressed | HemSoft_QoL/Harmony/HemSoftQoL.cs:175-184 | Pressed if and only if the binding is enabled, has a key, and that key went down, with the modifier held when there is one. |
| Hotkeys.IsPressedWithoutModifier | HemSoft_QoL/Harmony/HemSoftQoL.cs:180 | A binding without a modifier does not depend on which keys are held. |
| Hotkeys.BindingText | HemSoft_QoL/Harmony/HemSoftQoL.cs:186 | "Modifier+Key" when a modifier is present, otherwise just the key name. |
| Hotkeys.DefaultHotkeysDecoded | HemSoft_QoL/Harmony/HemSoftQoL.cs:87-91 | The defaults are LeftAlt+Q, X, R and C, all enabled. Sort Inventory has no key and is never pressed. |
| Hotkeys.ParseHotkey | HemSoft_QoL/Harmony/HemSoftQoL.cs:124-134 | A missing element gives the default binding. Otherwise modifier and key fall back to the default's names one by one, and `enabled` defaults to "true" and holds only for "true" in any casing. |
| Hotkeys.ParseHotkeyRoundTrip | HemSoft_QoL/Harmony/HemSoftQoL.cs:124-134 | An element written with a binding's own names and flag parses back to that binding. |
| Hotkeys.ParseHotkeyBareElement | HemSoft_QoL/Harmony/HemSoftQoL.cs:128-133 | An element without attributes keeps the default's names and is enabled. |
| Hotkeys.LoadHotkeys | HemSoft_QoL/Harmony/HemSoftQoL.cs:93-122 | A missing or unreadable file gives the defaults. In a parsed file, each of the five bindings is ParseHotkey of its own element, with the default binding as the fallback. So an absent element keeps its default, and the three action bindings are well formed. |
| DisplayConfigs.Defaults | HemSoft_QoL/Harmony/HemSoftConfigWindow.cs:187-193 | Every flag is on. |
| DisplayConfigs.DisplayConfig.constructor | HemSoft_QoL/Harmony/HemSoftConfigWindow.cs:185-193 | A fresh DisplayConfig has the default flags. |
| DisplayConfigs.Toggle | HemSoft_QoL/Harmony/HemSoftConfigWindow.cs:84-111 | Negates the named flag and leaves the other six unchanged. |
| DisplayConfigs.ToggleTwice | HemSoft_QoL/Harmony/HemSoftConfigWindow.cs:84-111 | Toggling the same flag twice restores the configuration. |
| DisplayConfigs.ParseBool | HemSoft_QoL/Harmony/HemSoftConfigWindow.cs:228-234 | Gives the default when the element or its `enabled` attribute is absent. Otherwise true if and only if the lower-cased value is "true". |
| DisplayConfigs.BoolText | HemSoft_QoL/Harmony/HemSoftConfigWindow.cs:278 | The written value reads back as true exactly for true. |
| DisplayConfigs.SaveDocEntry | HemSoft_QoL/Harmony/HemSoftConfigWindow.cs:258-264 | Save writes each flag under the element name Load reads, as lower-case "true"/"false". |
| DisplayConfigs.LoadDoc | HemSoft_QoL/Harmony/HemSoftConfigWindow.cs:210-216 | Each flag is ParseBool of its own element, with default true. |
| DisplayConfigs.LoadFlags | HemSoft_QoL/Harmony/HemSoftConfigWindow.cs:195-226 | A missing or unreadable file gives the defaults. A parsed one gives LoadDoc. |
| DisplayConfigs.LoadSaveRoundTrip | HemSoft_QoL/Harmony/HemSoftConfigWindow.cs:236-280 | Loading what Save wrote gives back the saved flags. |
| DisplayConfigs.LoadEmptyDisplay | HemSoft_QoL/Harmony/HemSoftConfigWindow.cs:228-234 | A document without display elements loads as the defaults. |
| DisplayConfigs.DisplayConfig.Load | HemSoft_QoL/Harmony/HemSoftConfigWindow.cs:195-226 | Returns a fresh object whose flags are LoadFlags of the file. |
| DisplayConfigs.DisplayConfig.Save | HemSoft_QoL/Harmony/HemSoftConfigWindow.cs:236-273 | Returns the document written, which loads back as this object's flags. |
| DisplayConfigs.OptionFlag | HemSoft_QoL/Harmony/HemSoftConfigWindow.cs:82-111 | A word selects the flag whose option name it is, and an unknown word selects none. |
| DisplayConfigs.OptionNameSelects | HemSoft_QoL/Harmony/HemSoftConfigWindow.cs:84-111 | Option words differ from "all" and "none", and each selects its own flag. |
| DisplayConfigs.ApplyOption | HemSoft_QoL/Harmony/HemSoftConfigWindow.cs:82-121 | "all" turns every flag on and "none" turns every flag off. A flag's word toggles that flag. Any other word changes nothing. |
| DisplayConfigs.AllNoneIdempotent | HemSoft_QoL/Harmony/HemSoftConfigWindow.cs:129-151 | Applying "all" or "none" twice is the same as applying it once. |
| DisplayConfigs.OptionTwiceRestores | HemSoft_QoL/Harmony/HemSoftConfigWindow.cs:84-111 | The same option word given twice restores the configuration. |
| DisplayConfigs.OnOff | HemSoft_QoL/Harmony/HemSoftConfigWindow.cs:179 | "ON" exactly for true and "OFF" exactly for false. |
| DisplayConfigs.ToggleMessageReportsNewState | HemSoft_QoL/Harmony/HemSoftConfigWindow.cs:84-111 | The toggle message names the flag and ends in "ON" exactly when the flag is now on. |
| DisplayConfigs.FormatHotkey | HemSoft_QoL/Harmony/HemSoftConfigWindow.cs:63-68 | "Disabled" for a disabled binding or one without a key. Otherwise the binding's text. |
| DisplayConfigs.FormatHotkeyDisabledIffNeverPressed | HemSoft_QoL/Harmony/HemSoftConfigWindow.cs:63-68 | For a constructed binding, "Disabled" is shown exactly when no input can press it. |
| DisplayConfigs.FlagLines | HemSoft_QoL/Harmony/HemSoftConfigWindow.cs:159-165 | Seven lines, each ending in its flag's ON/OFF. |
| DisplayConfigs.HotkeyLines | HemSoft_QoL/Harmony/HemSoftConfigWindow.cs:168-172 | Five lines, each ending in its binding's formatted hotkey. |
| DisplayConfigs.StatusLines | HemSoft_QoL/Harmony/HemSoftConfigWindow.cs:153-177 | Nineteen lines, with the flag lines at 1-7 and the hotkey lines at 10-14. |
| DisplayConfigs.EnableAll | HemSoft_QoL/Harmony/HemSoftConfigWindow.cs:129-139 | Sets all seven flags on and returns the "enabled" message. |
| DisplayConfigs.DisableAll | HemSoft_QoL/Harmony/HemSoftConfigWindow.cs:141-151 | Sets all seven flags off and returns the "disabled" message. |
| DisplayConfigs.ToggleFlag | HemSoft_QoL/Harmony/HemSoftConfigWindow.cs:84-111 | Toggles one flag in place and reports its new state. |
| DisplayConfigs.Execute | HemSoft_QoL/Harmony/HemSoftConfigWindow.cs:70-127 | Without parameters, prints the status, changes nothing and saves nothing. Otherwise applies the lower-cased first parameter, saves (also for an unknown option) and prints its message. |
| InfoPanel.TruncDiv | HemSoft_QoL/Harmony/HemSoftInfoPanel.cs:567 | C# division, which truncates toward zero, for either sign of the dividend. |
| InfoPanel.Frequency | HemSoft_QoL/Harmony/HemSoftInfoPanel.cs:561-562 | A non-positive frequency setting counts as 7. |
| InfoPanel.NextBloodMoon | HemSoft_QoL/Harmony/HemSoftInfoPanel.cs:559-568 | The result is a multiple of the frequency. For day ≥ 0 it is positive, not before today, and less than a frequency past today (or the first blood moon, on day 0). Negative days are bounded too. |
| InfoPanel.NextBloodMoonIsLeast | HemSoft_QoL/Harmony/HemSoftInfoPanel.cs:564-567 | For day ≥ 0 the result is the least positive multiple of the frequency that is ≥ the day. |
| InfoPanel.NextBloodMoonFixedPoints | HemSoft_QoL/Harmony/HemSoftInfoPanel.cs:564-567 | Day 0 gives the frequency, and a positive blood-moon day gives itself. |
| InfoPanel.BloodMoonText | HemSoft_QoL/Harmony/HemSoftInfoPanel.cs:415-423 | "Tonight!" for ≤ 0 days and "Tomorrow" for 1. Otherwise a decimal number denoting the days, followed by "d". |
| InfoPanel.BloodMoonColor | HemSoft_QoL/Harmony/HemSoftInfoPanel.cs:425-433 | Red if and only if ≤ 0 days, orange if and only if 1-2 days, grey if and only if more. |
| InfoPanel.BloodMoonTextMatchesColor | HemSoft_QoL/Harmony/HemSoftInfoPanel.cs:415-433 | The colour is red exactly when the text is "Tonight!", and orange when it is "Tomorrow". |
| InfoPanel.EnemyCountColor | HemSoft_QoL/Harmony/HemSoftInfoPanel.cs:457-466 | Green for 0, yellow for 1-2, orange for 3-4, red for ≥ 5. |
| InfoPanel.EnemyCountColorMonotone | HemSoft_QoL/Harmony/HemSoftInfoPanel.cs:457-466 | More enemies never give a less alarming colour. |
| InfoPanel.ValueOrOne | HemSoft_QoL/Harmony/HemSoftInfoPanel.cs:395-409 | Prints a decimal number of at least 1: the value when it is positive, "1" otherwise. |
| InfoPanel.PrefixLength | HemSoft_QoL/Harmony/HemSoftInfoPanel.cs:516-521 | "animalzombie" is tested first (12 characters), then "animal" or "zombie" (6), all case-insensitively. |
| InfoPanel.CleanEnemyName | HemSoft_QoL/Harmony/HemSoftInfoPanel.cs:514-522 | No name gives "Enemy", and a non-empty unprefixed name is kept. The result is never empty. |
| InfoPanel.CleanStripsPrefix | HemSoft_QoL/Harmony/HemSoftInfoPanel.cs:516-522 | A prefixed name followed by more than white space shows as the rest of the name. The prefix and the white space after it are dropped, and the result starts with a non-space character. |
| InfoPanel.CleanOnlyPrefixIsZombie | HemSoft_QoL/Harmony/HemSoftInfoPanel.cs:516-522 | An empty name, or a prefix followed only by white space, shows as "Zombie". |
| InfoPanel.ZombiePrefix | HemSoft_QoL/Harmony/HemSoftInfoPanel.cs:520-521 | A name that starts with "zombie" loses exactly six characters. |
| InfoPanel.Nudge | HemSoft_QoL/Harmony/HemSoftInfoPanel.cs:103-125 | Each arrow moves by 5, or by 20 with Shift. Left lowers x, Right raises x, Up raises y, Down lowers y. |
| InfoPanel.NudgeOpposite | HemSoft_QoL/Harmony/HemSoftInfoPanel.cs:106-125 | One arrow press is undone by the opposite arrow with the same Shift state. |
| InfoPanel.NudgeCancels | HemSoft_QoL/Harmony/HemSoftInfoPanel.cs:106-125 | All four arrows in one frame leave the position unchanged. |
| InfoPanel.RowVisibility | HemSoft_QoL/Harmony/HemSoftInfoPanel.cs:244-253 | Eight rows follow their flags, and the enemy-count row shares the enemy row's flag. |
| InfoPanel.PlacedRowsFit | HemSoft_QoL/Harmony/HemSoftInfoPanel.cs:255-274 | Every placed row lies below the title bar and inside the computed panel height. |
| InfoPanel.ConsecutiveRows | HemSoft_QoL/Harmony/HemSoftInfoPanel.cs:263-270 | Two placed rows with no placed row between them are exactly 20 apart. Hidden or missing rows leave no gap. |
| InfoPanel.HidingEnemyDropsTwoRows | HemSoft_QoL/Harmony/HemSoftInfoPanel.cs:251-274 | Hiding the enemy element removes both enemy rows and shortens the panel by 40. |
| InfoPanel.ShowText | HemSoft_QoL/Harmony/HemSoftInfoPanel.cs:372-392 | "true" exactly when a configuration is loaded and shows the element, otherwise "false". |
| InfoPanel.InfoPanelController.constructor | HemSoft_QoL/Harmony/HemSoftInfoPanel.cs:17-55 | A new panel holds no player. All seven cached values (level, gamestage, lootstage, day, kills, blood-moon day, enemy count) are 0. It is dirty, its layout is dirty, position mode is off and the position is (190, 170). |
| InfoPanel.InfoPanelController.HandlePositionKeys | HemSoft_QoL/Harmony/HemSoftInfoPanel.cs:87-129 | Alt+P flips position mode. Leaving the mode saves the position. While the mode is on, the position is nudged. Nothing else changes. |
| InfoPanel.InfoPanelController.RefreshCache | HemSoft_QoL/Harmony/HemSoftInfoPanel.cs:148-164 | Afterwards the cache holds the sample (level defaults to 1). On a change, the blood moon is recomputed and the panel is marked dirty. Otherwise neither changes. |
| InfoPanel.InfoPanelController.UpdateLayout | HemSoft_QoL/Harmony/HemSoftInfoPanel.cs:235-294 | Does nothing unless the layout is dirty and the view exists. Then it clears the flag and, with a configuration, places the k-th shown and present row at -28 - 20k and leaves the other rows alone. The height is 28 + 20·count + 6. |
| InfoPanel.InfoPanelController.Update | HemSoft_QoL/Harmony/HemSoftInfoPanel.cs:73-180 | While the game is not running, no field changes. Otherwise a reloaded settings file marks the bindings and the layout dirty, and the position keys are handled. Without a player, none available stops the frame, and one available is taken and marks the panel dirty. A stopped frame, or one without a sample, leaves the caches, the rows and the height unchanged. With a sample, all stats and the enemy count are cached. The blood-moon day is recomputed exactly when a stat changed. The bindings are refreshed exactly when the panel was dirty, the settings were reloaded, the player was just taken, a stat changed, the enemy count changed or the nearest enemy moved. Afterwards the panel is clean. A dirty layout with the view present is laid out as UpdateLayout states and left clean. Otherwise rows and height are kept. |
| InfoPanel.InfoPanelController.UpdateNearestEnemy | HemSoft_QoL/Harmony/HemSoftInfoPanel.cs:477-535 | Stores the enemy count. Marks the panel dirty exactly when it already was, the count changed or the nearest distance moved. No other field changes. |
| InfoPanel.InfoPanelController.OnOpen | HemSoft_QoL/Harmony/HemSoftInfoPanel.cs:570-576 | Drops the player reference and marks the panel dirty. Caches, layout flag, position, position mode, rows and height are unchanged. |
| InfoPanel.InfoPanelController.OnClose | HemSoft_QoL/Harmony/HemSoftInfoPanel.cs:578-582 | Drops the player reference. The dirty and layout flags, caches, position, position mode, rows and height are unchanged. |
| InfoPanel.InfoPanelController.StatBindingsAtLeastOne | HemSoft_QoL/Harmony/HemSoftInfoPanel.cs:395-409 | The level, gamestage, lootstage and day bindings always print a number ≥ 1. |
| InfoPanel.InfoPanelController.BloodMoonBindingsAfterRefresh | HemSoft_QoL/Harmony/HemSoftInfoPanel.cs:415-423 | After a refresh with day ≥ 0, the days left are between 0 and the frequency. The text reads "Tonight!" exactly on a positive blood-moon day. |
| LootstagePopup.DiffText | HemSoft_QoL/Harmony/HemSoftLootstagePopup.cs:73-76 | Starts with '+' if and only if the change is positive and with '-' if and only if it is negative. The digits denote the change. |
| LootstagePopup.Message | HemSoft_QoL/Harmony/HemSoftLootstagePopup.cs:78-86 | "Increased!", "Decreased" or "Updated" by the sign of the change. |
| LootstagePopup.Color | HemSoft_QoL/Harmony/HemSoftLootstagePopup.cs:88-96 | Green, red or yellow exactly for a positive, negative or zero change. |
| LootstagePopup.PopupBindingsAgree | HemSoft_QoL/Harmony/HemSoftLootstagePopup.cs:73-96 | Message, colour and the sign of the diff text always agree. The diff is "0" exactly when the colour is yellow. |
| LootstagePopup.LootstagePopupController.constructor | HemSoft_QoL/Harmony/HemSoftLootstagePopup.cs:9-13 | A new popup has no values, no timer and is dirty. |
| LootstagePopup.LootstagePopupController.ShowNotification | HemSoft_QoL/Harmony/HemSoftLootstagePopup.cs:24-31 | Records both values, arms the timer at 5 seconds and marks the popup dirty. |
| LootstagePopup.LootstagePopupController.Update | HemSoft_QoL/Harmony/HemSoftLootstagePopup.cs:33-59 | An armed timer counts down. Close is requested exactly on the frame it runs out, when a window manager exists. A dirty popup is refreshed and made clean. |
| LootstagePopup.LootstagePopupController.OnOpen | HemSoft_QoL/Harmony/HemSoftLootstagePopup.cs:103-107 | Marks the popup dirty. |
| LootstagePopup.LootstagePopupController.OnClose | HemSoft_QoL/Harmony/HemSoftLootstagePopup.cs:109-113 | Disarms the timer. |
| LootstagePopup.LootstagePopupController.Binding | HemSoft_QoL/Harmony/HemSoftLootstagePopup.cs:61-101 | The diff, message and colour bindings are those of the stored change, new minus old. |
| LootstagePopup.LootstagePopupController.ValueBindingsDenoteValues | HemSoft_QoL/Harmony/HemSoftLootstagePopup.cs:65-71 | The new and old bindings print the stored numbers. |

## Left out

- Unity and host UI calls are not modelled: key polling, view components, child lookup, the window manager, `RefreshBindings`, `PlayOneShot` and console output. Input state, view presence and the window manager's presence are parameters. Sounds, log lines and console lines are return values.
- File I/O and XmlDocument are not modelled. A configuration file is `Missing`, `Malformed` (an exception while loading) or a map from element name to attributes. Only the file's elements are modelled, not its comments or declaration.
- Floating point is not modelled: the nearest-enemy distance, its text and the `nearestenemycolor` thresholds (the binding yields `FloatValued`), and the `_updateTimer` and `_configCheckTimer` throttles. A frame on which the throttle holds back the refresh is a frame with no sample.
- LootstagePopup.LootstagePopupController.Update: the countdown uses exact real arithmetic, not 32-bit float rounding.
- The world entity query, the hostility test and the distance arithmetic in `UpdateNearestEnemy` belong to the host's object model and to floating point, and are not modelled. Each refresh sample carries the scan's outcome: the hostile count and whether the nearest distance moved by more than one metre. The nearest enemy's name and distance are not cached, and only the enemy-name cleaning is modelled.
- The internals of `TryStackItem` and `AddItem` belong to the host and are not modelled. They are parameters with an assumed contract: merging only into non-empty stacks of the same type, `anyMoved` exactly when units moved, and `AddItem` all-or-nothing. The toolbelt is not part of the player's inventory in this model.
- InventoryActions.StashAll: says nothing about individual container slots. Under the assumed AddItem contract, a stack may land in any slot, so only conservation of units is stated.
- InventoryActions.LootAll: says nothing about individual backpack slots, for the same reason.
- `Enum.TryParse<KeyCode>` is not modelled beyond a fixed table of lower-cased key names. Numeric key names and the many other Unity key names are not recognised.
- The hotkey configuration has no Loot All binding, so the dispatch takes it as a parameter instead of inventing a default.
- The Sort Container and Sort Inventory bindings exist, but no action in the code uses them.
- `CheckConfigReload`'s timer and the settings file's write-time comparison are not modelled. Whether the file was found newer this frame is Update's `configReloaded` parameter, and the reloaded configuration is its `config` parameter. Neither are the contents of `LoadPosition`/`SavePosition` and `ApplyPosition` modelled. Leaving position mode returns the position that is saved.
- The position mode and the position are static fields shared by all panels. The model keeps them on the one panel.
- The panel's `_player` reference is a flag, `hasPlayer`. Whether the UI offers a player is a parameter of Update. The stats are read from the sample, not from the player object.
- Harmony patching, `InitMod`, `OpenConfigWindow`, the config-window hotkey and the help text of the console command are plumbing and are not modelled.
- 32-bit overflow of counts, days and positions is not modelled, because integers are unbounded.
- Case folding covers ASCII letters only. Culture-sensitive `ToLower()` is not modelled: the console argument and the `enabled` attribute are lower-cased the same way in every culture, so, for example, the Turkish dotted/dotless i is not modelled.
