/**
 * InventoryHotkeyPatches.Postfix (InventoryHotkeyPatches.cs): the per-frame
 * choice of inventory action while a container is open, and the sound and
 * log line each action produces after its transfer loop.
 */
module InventoryHotkeyPatches {
  import opened Wrappers
  import opened Text
  import opened Hotkeys

  datatype InventoryAction = QuickStackAction | StashAllAction | RestockAction | LootAllAction

  /**
   * Postfix: nothing unless the game runs, a container is open and the hotkey
   * configuration is loaded; then the first pressed binding in the order
   * QuickStack, StashAll, Restock, LootAll wins. HotkeyConfig declares no
   * LootAll binding, so that binding is a parameter.
   */
  function TriggeredAction(gameRunning: bool, containerOpen: bool, config: Option<HotkeyConfig>,
                           lootAll: HotkeyBinding, input: InputState): (r: Option<InventoryAction>)
    ensures r.Some? ==> gameRunning && containerOpen && config.Some?
    ensures r == Some(QuickStackAction) <==>
      gameRunning && containerOpen && config.Some? && IsPressed(config.value.quickStack, input)
    ensures r == Some(StashAllAction) <==>
      gameRunning && containerOpen && config.Some? && !IsPressed(config.value.quickStack, input)
      && IsPressed(config.value.stashAll, input)
    ensures r == Some(RestockAction) <==>
      gameRunning && containerOpen && config.Some? && !IsPressed(config.value.quickStack, input)
      && !IsPressed(config.value.stashAll, input) && IsPressed(config.value.restock, input)
    ensures r == Some(LootAllAction) <==>
      gameRunning && containerOpen && config.Some? && !IsPressed(config.value.quickStack, input)
      && !IsPressed(config.value.stashAll, input) && !IsPressed(config.value.restock, input)
      && IsPressed(lootAll, input)
  {
    if !gameRunning || !containerOpen || config.None? then None
    else
      var c := config.value;
      if IsPressed(c.quickStack, input) then Some(QuickStackAction)
      else if IsPressed(c.stashAll, input) then Some(StashAllAction)
      else if IsPressed(c.restock, input) then Some(RestockAction)
      else if IsPressed(lootAll, input) then Some(LootAllAction)
      else None
  }

  /** With the default bindings, a frame in which no key went down triggers nothing. */
  lemma NoKeyDownNoAction(gameRunning: bool, containerOpen: bool, lootAll: HotkeyBinding, held: set<KeyCode>)
    ensures TriggeredAction(gameRunning, containerOpen, Some(DefaultHotkeys()), lootAll, InputState(held, {})) == None
  {
  }

  /** The sound an action plays and the line it logs. */
  datatype Feedback = Feedback(sound: string, log: string)

  function LogPrefix(action: InventoryAction): string {
    match action
    case QuickStackAction => "Quick Stack: Moved "
    case StashAllAction => "Stash All: Moved "
    case RestockAction => "Restock: Moved "
    case LootAllAction => "Loot All: Took "
  }

  /**
   * After its loop, an action plays "ui_loot" and logs the count it moved,
   * and does so only when that count is positive.
   */
  function ActionFeedback(action: InventoryAction, moved: int): (r: Option<Feedback>)
    ensures r.Some? <==> moved > 0
    ensures r.Some? ==> r.value.sound == "ui_loot"
    ensures r.Some? ==>
      var p := LogPrefix(action);
      && |r.value.log| > |p| + |" items"|
      && r.value.log[..|p|] == p
      && r.value.log[|r.value.log| - |" items"|..] == " items"
      && IsDecimal(r.value.log[|p|..|r.value.log| - |" items"|])
      && DecimalValue(r.value.log[|p|..|r.value.log| - |" items"|]) == moved
  {
    if moved > 0 then
      var p, n := LogPrefix(action), IntToString(moved);
      var log := p + n + " items";
      assert log[|p|..|log| - |" items"|] == n;
      Some(Feedback("ui_loot", log))
    else None
  }
}
