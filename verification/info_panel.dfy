/**
 * The HUD info panel (HemSoftInfoPanel.cs): the next blood-moon day, the
 * text and colour of its bindings, enemy-name cleaning, position mode with
 * arrow-key nudging, the refresh of the cached player values and the
 * stacking of the visible rows.
 */
module InfoPanel {
  import opened Wrappers
  import opened Text
  import opened Hotkeys
  import opened DisplayConfigs

  // ----------------------------------------------------------- blood moon

  /** C#'s integer division, which truncates toward zero. */
  function TruncDiv(a: int, b: int): (q: int)
    requires b > 0
    ensures a >= 0 ==> q * b <= a < q * b + b
    ensures a < 0 ==> q * b - b < a <= q * b
  {
    if a >= 0 then a / b else -((-a) / b)
  }

  /** The BloodMoonFrequency game preference, with a non-positive setting read as 7. */
  function Frequency(setting: int): (f: int)
    ensures f > 0
    ensures setting <= 0 ==> f == 7
    ensures setting > 0 ==> f == setting
  {
    if setting <= 0 then 7 else setting
  }

  /** A multiple of f leaves no remainder. */
  lemma MultipleHasNoRemainder(q: int, f: int)
    requires f > 0
    ensures (q * f) % f == 0
  {
    var m := q * f;
    assert m == f * (m / f) + m % f;
    if m % f != 0 {
      // m % f = f * (q - m / f) is a multiple of f strictly between 0 and f
      assert m % f == f * (q - m / f);
      MultipliedBounds(q - m / f, f);
    }
  }

  /** A multiple of f lies at 0 or at least f away from it. */
  lemma MultipliedBounds(c: int, f: int)
    requires f > 0
    ensures c == 0 || f * c >= f || f * c <= -f
  {
    if c > 0 {
      MulMono(1, c, f);
    } else if c < 0 {
      MulMono(c, -1, f);
    }
  }

  lemma MulMono(a: int, b: int, f: int)
    requires f > 0 && a <= b
    ensures a * f <= b * f && f * a <= f * b
  {
  }

  /**
   * CalculateNextBloodMoon: a positive day that is a blood-moon day is its own
   * answer, otherwise the multiple of the frequency after the truncated quotient.
   */
  function NextBloodMoon(currentDay: int, setting: int): (r: int)
    ensures r % Frequency(setting) == 0
    ensures currentDay >= 0 ==> r > 0 && r >= currentDay && (r - Frequency(setting) < currentDay || r == Frequency(setting))
    ensures currentDay < 0 ==> currentDay < r < currentDay + 2 * Frequency(setting)
  {
    var f := Frequency(setting);
    if currentDay > 0 && currentDay % f == 0 then currentDay
    else
      var q := TruncDiv(currentDay, f);
      MultipleHasNoRemainder(q + 1, f);
      MultipleHasNoRemainder(q, f);
      assert (q + 1) * f == q * f + f;
      (q + 1) * f
  }

  /** For days from 0 on, the next blood moon is the least positive multiple of the frequency not before today. */
  lemma NextBloodMoonIsLeast(currentDay: int, setting: int, m: int)
    requires currentDay >= 0
    requires m > 0 && m % Frequency(setting) == 0 && m >= currentDay
    ensures NextBloodMoon(currentDay, setting) <= m
  {
    var f, r := Frequency(setting), NextBloodMoon(currentDay, setting);
    if m < r {
      MultiplesApart(m, r, f);
    }
  }

  /** Two different multiples of f lie at least f apart. */
  lemma MultiplesApart(m: int, r: int, f: int)
    requires f > 0 && m % f == 0 && r % f == 0 && m < r
    ensures m <= r - f
  {
    var a, b := m / f, r / f;
    assert m == f * a && r == f * b;
    assert a < b by {
      if a >= b {
        MulMono(b, a, f);
      }
    }
    MulMono(a, b - 1, f);
    assert f * (b - 1) == f * b - f;
  }

  /** Day 0 gives the first blood moon; a blood-moon day is its own answer. */
  lemma NextBloodMoonFixedPoints(setting: int, k: int)
    requires k > 0
    ensures NextBloodMoon(0, setting) == Frequency(setting)
    ensures NextBloodMoon(k * Frequency(setting), setting) == k * Frequency(setting)
  {
    var f := Frequency(setting);
    MultipleHasNoRemainder(k, f);
    MulMono(1, k, f);
  }

  // -------------------------------------------------------------- colours

  const Red := "255,60,60,255"
  const Orange := "255,180,50,255"
  const Grey := "200,200,200,255"
  const Green := "100,200,100,255"
  const Yellow := "255,255,100,255"

  /** bloodmoontext: "Tonight!" from the day itself on, "Tomorrow" the day before, else "<n>d". */
  function BloodMoonText(daysUntil: int): (r: string)
    ensures daysUntil <= 0 ==> r == "Tonight!"
    ensures daysUntil == 1 ==> r == "Tomorrow"
    ensures daysUntil > 1 ==>
      && |r| >= 2 && r[|r| - 1] == 'd'
      && IsDecimal(r[..|r| - 1]) && DecimalValue(r[..|r| - 1]) == daysUntil
  {
    if daysUntil <= 0 then "Tonight!"
    else if daysUntil == 1 then "Tomorrow"
    else
      var n := IntToString(daysUntil);
      assert (n + "d")[..|n|] == n;
      n + "d"
  }

  /** bloodmooncolor: red from the day itself on, orange one or two days before, grey otherwise. */
  function BloodMoonColor(daysUntil: int): (r: string)
    ensures r == Red <==> daysUntil <= 0
    ensures r == Orange <==> 1 <= daysUntil <= 2
    ensures r == Grey <==> daysUntil > 2
  {
    if daysUntil <= 0 then Red
    else if daysUntil <= 2 then Orange
    else Grey
  }

  /** The colour and the text agree: red exactly on "Tonight!", orange on "Tomorrow". */
  lemma BloodMoonTextMatchesColor(daysUntil: int)
    ensures BloodMoonText(daysUntil) == "Tonight!" <==> BloodMoonColor(daysUntil) == Red
    ensures BloodMoonText(daysUntil) == "Tomorrow" ==> BloodMoonColor(daysUntil) == Orange
  {
    if daysUntil > 1 {
      var r := BloodMoonText(daysUntil);
      assert r[|r| - 1] == 'd';
      assert "Tonight!"[7] == '!' && "Tomorrow"[7] == 'w';
    }
  }

  /** enemycountcolor: green for none, yellow for one or two, orange for three or four, red from five. */
  function EnemyCountColor(count: int): (r: string)
    ensures count == 0 ==> r == Green
    ensures (1 <= count <= 2 || count < 0) ==> r == Yellow
    ensures 3 <= count <= 4 ==> r == Orange
    ensures count >= 5 ==> r == Red
  {
    if count == 0 then Green
    else if count >= 5 then Red
    else if count >= 3 then Orange
    else Yellow
  }

  /** How alarming a colour is. */
  function Severity(colour: string): nat {
    if colour == Green then 0
    else if colour == Yellow then 1
    else if colour == Orange then 2
    else 3
  }

  /** More enemies never make the count colour less alarming. */
  lemma EnemyCountColorMonotone(a: nat, b: nat)
    requires a <= b
    ensures Severity(EnemyCountColor(a)) <= Severity(EnemyCountColor(b))
  {
    assert Green != Yellow && Green != Orange && Yellow != Orange by {
      assert Green[0] != Yellow[0] && Green[0] != Orange[0] && Yellow[4] != Orange[4];
    }
  }

  // --------------------------------------------------------------- values

  /** The level, gamestage, lootstage and day bindings: the value when positive, else "1". */
  function ValueOrOne(v: int): (r: string)
    ensures IsDecimal(r) && DecimalValue(r) >= 1
    ensures v > 0 ==> DecimalValue(r) == v
    ensures v <= 0 ==> r == "1"
  {
    if v > 0 then IntToString(v) else "1"
  }

  // ----------------------------------------------------------- enemy name

  /** How many leading characters the name loses: "animalzombie" is tested before "animal" and "zombie". */
  function PrefixLength(name: string): (k: nat)
    ensures k <= |name|
    ensures k == 12 <==> StartsWithIgnoreCase(name, "animalzombie")
    ensures k == 6 <==> !StartsWithIgnoreCase(name, "animalzombie")
                        && (StartsWithIgnoreCase(name, "animal") || StartsWithIgnoreCase(name, "zombie"))
    ensures k == 0 || k == 6 || k == 12
  {
    if StartsWithIgnoreCase(name, "animalzombie") then 12
    else if StartsWithIgnoreCase(name, "animal") then 6
    else if StartsWithIgnoreCase(name, "zombie") then 6
    else 0
  }

  /**
   * The name shown for the nearest enemy: "Enemy" when the entity has no name;
   * otherwise the name without its prefix and the white space after it, or
   * "Zombie" when nothing is left.
   */
  function CleanEnemyName(name: Option<string>): (r: string)
    ensures r != []
    ensures name.None? ==> r == "Enemy"
    ensures name.Some? && PrefixLength(name.value) == 0 && name.value != [] ==> r == name.value
  {
    match name
    case None => "Enemy"
    case Some(n) => StripPrefix(n, PrefixLength(n))
  }

  /** The name without its first k characters and the white space after them; "Zombie" when nothing is left. */
  function StripPrefix(n: string, k: nat): (r: string)
    requires k <= |n|
    ensures r != []
  {
    var stripped := if k == 0 then n else TrimStart(n[k..]);
    if stripped == [] then "Zombie" else stripped
  }

  /**
   * A prefix followed by more than white space is dropped together with the
   * white space after it, and what remains is the rest of the name.
   */
  lemma StripsPrefix(n: string, k: nat, j: nat)
    requires 0 < k <= j < |n| && !IsWhiteSpace(n[j])
    ensures var r := StripPrefix(n, k);
      && |r| <= |n| - k && r == n[|n| - |r|..]
      && (forall i :: k <= i < |n| - |r| ==> IsWhiteSpace(n[i]))
      && !IsWhiteSpace(r[0])
  {
    StripIsTrim(n, k, j);
    TrimAfterPrefix(n, k);
  }

  /** With something other than white space after the prefix, stripping is trimming what follows it. */
  lemma StripIsTrim(n: string, k: nat, j: nat)
    requires 0 < k <= j < |n| && !IsWhiteSpace(n[j])
    ensures StripPrefix(n, k) == TrimStart(n[k..])
  {
    var m := n[k..];
    assert m[j - k] == n[j];
  }

  /** A prefix followed only by white space leaves nothing, which shows as "Zombie". */
  lemma StripOnlyPrefix(n: string, k: nat)
    requires 0 < k <= |n|
    requires forall i :: k <= i < |n| ==> IsWhiteSpace(n[i])
    ensures StripPrefix(n, k) == "Zombie"
  {
    TrimAllSpace(n, k);
  }

  /** CleanEnemyName strips the prefix PrefixLength finds: the rest of the name, or "Zombie" when no more than white space follows. */
  lemma CleanStripsPrefix(n: string, j: nat)
    requires PrefixLength(n) > 0
    requires PrefixLength(n) <= j < |n| && !IsWhiteSpace(n[j])
    ensures var r, k := CleanEnemyName(Some(n)), PrefixLength(n);
      && |r| <= |n| - k && r == n[|n| - |r|..]
      && (forall i :: k <= i < |n| - |r| ==> IsWhiteSpace(n[i]))
      && !IsWhiteSpace(r[0])
  {
    StripsPrefix(n, PrefixLength(n), j);
  }

  /** An empty name, or a prefix followed only by white space, shows as "Zombie". */
  lemma CleanOnlyPrefixIsZombie(n: string)
    requires PrefixLength(n) > 0 || n == []
    requires forall i :: PrefixLength(n) <= i < |n| ==> IsWhiteSpace(n[i])
    ensures CleanEnemyName(Some(n)) == "Zombie"
  {
    if n != [] {
      StripOnlyPrefix(n, PrefixLength(n));
    }
  }

  /** Trimming what follows a prefix of length k leaves a suffix of the whole name. */
  lemma TrimAfterPrefix(n: string, k: nat)
    requires k <= |n|
    ensures var r := TrimStart(n[k..]);
      && |r| <= |n| - k && r == n[|n| - |r|..]
      && (forall i :: k <= i < |n| - |r| ==> IsWhiteSpace(n[i]))
      && (r == [] || !IsWhiteSpace(r[0]))
  {
    var m := n[k..];
    var r := TrimStart(m);
    assert m[|m| - |r|..] == n[|n| - |r|..];
    forall i | k <= i < |n| - |r|
      ensures IsWhiteSpace(n[i])
    {
      assert n[i] == m[i - k];
    }
  }

  /** Trimming white space only leaves nothing. */
  lemma TrimAllSpace(n: string, k: nat)
    requires k <= |n|
    requires forall i :: k <= i < |n| ==> IsWhiteSpace(n[i])
    ensures TrimStart(n[k..]) == []
  {
    var m := n[k..];
    assert forall i :: 0 <= i < |m| ==> IsWhiteSpace(m[i]);
  }

  /** A name starting with "zombie" in lower case loses six characters. */
  lemma ZombiePrefix(n: string)
    requires |n| >= 6 && n[..6] == "zombie"
    ensures PrefixLength(n) == 6
  {
    if |n| >= 12 {
      assert Lower(n[..12])[0] == 'z';
    }
    assert Lower(n[..6])[0] == 'z';
    assert Lower("zombie") == "zombie";
  }

  // ------------------------------------------------------------- position

  datatype Position = Position(x: int, y: int)

  const DefaultPosition := Position(190, 170)
  const MoveStep := 5
  const MoveStepFast := 20

  /** Alt+P: the position-mode toggle. */
  predicate TogglesPositionMode(input: InputState) {
    LeftAlt in input.held && KeyP in input.down
  }

  /** One frame of arrow keys in position mode: 5 per press, 20 with Shift held; up raises y. */
  function Nudge(p: Position, input: InputState): (r: Position)
    ensures var step := if LeftShift in input.held then MoveStepFast else MoveStep;
      && r.x == p.x + (if RightArrow in input.down then step else 0) - (if LeftArrow in input.down then step else 0)
      && r.y == p.y + (if UpArrow in input.down then step else 0) - (if DownArrow in input.down then step else 0)
  {
    var step := if LeftShift in input.held then MoveStepFast else MoveStep;
    var x := if LeftArrow in input.down then p.x - step else p.x;
    var x := if RightArrow in input.down then x + step else x;
    var y := if UpArrow in input.down then p.y + step else p.y;
    var y := if DownArrow in input.down then y - step else y;
    Position(x, y)
  }

  /** A press of one arrow is undone by a press of the opposite arrow with the same Shift state. */
  lemma NudgeOpposite(p: Position, held: set<KeyCode>, a: KeyCode, b: KeyCode)
    requires (a == LeftArrow && b == RightArrow) || (a == UpArrow && b == DownArrow)
    ensures Nudge(Nudge(p, InputState(held, {a})), InputState(held, {b})) == p
  {
  }

  /** Opposite arrows pressed in the same frame cancel out. */
  lemma NudgeCancels(p: Position, held: set<KeyCode>)
    ensures Nudge(p, InputState(held, {LeftArrow, RightArrow, UpArrow, DownArrow})) == p
  {
  }

  // ----------------------------------------------------------------- rows

  const TitleHeight := 28
  const RowHeight := 20
  const PanelPadding := 6
  const RowCount := 8

  /** The visibility of the eight rows; the enemy-count row follows the nearest-enemy flag. */
  function RowVisibility(flags: DisplayFlags): (r: seq<bool>)
    ensures |r| == RowCount
    ensures r[0] == flags.level && r[1] == flags.gamestage && r[2] == flags.lootstage && r[3] == flags.day
    ensures r[4] == flags.bloodMoon && r[5] == flags.kills
    ensures r[6] == flags.nearestEnemy && r[7] == flags.nearestEnemy
  {
    [flags.level, flags.gamestage, flags.lootstage, flags.day, flags.bloodMoon, flags.kills,
     flags.nearestEnemy, flags.nearestEnemy]
  }

  /** How many of the first k rows are both shown and present in the view. */
  function Shown(visible: seq<bool>, present: seq<bool>, k: nat): (n: nat)
    requires k <= |visible| && k <= |present|
    ensures n <= k
  {
    if k == 0 then 0
    else Shown(visible, present, k - 1) + (if visible[k - 1] && present[k - 1] then 1 else 0)
  }

  /** The y offset of a row placed after `before` other placed rows. */
  function RowY(before: nat): int {
    -TitleHeight - RowHeight * before
  }

  /** The panel height for `count` placed rows. */
  function PanelHeight(count: nat): int {
    TitleHeight + RowHeight * count + PanelPadding
  }

  /** Every placed row lies inside the panel, below the title bar and above the padding. */
  lemma PlacedRowsFit(visible: seq<bool>, present: seq<bool>, k: nat)
    requires |visible| == |present| && k < |visible| && visible[k] && present[k]
    ensures RowY(Shown(visible, present, k)) <= -TitleHeight
    ensures RowY(Shown(visible, present, k)) - RowHeight
            >= -PanelHeight(Shown(visible, present, |visible|)) + PanelPadding
  {
    ShownGrows(visible, present, k + 1, |visible|);
  }

  /** Shown only counts up. */
  lemma {:induction false} ShownGrows(visible: seq<bool>, present: seq<bool>, j: nat, k: nat)
    requires j <= k <= |visible| && k <= |present|
    ensures Shown(visible, present, j) <= Shown(visible, present, k)
    decreases k - j
  {
    if j < k {
      ShownGrows(visible, present, j, k - 1);
    }
  }

  /** Two placed rows with no placed row between them are exactly one row height apart. */
  lemma ConsecutiveRows(visible: seq<bool>, present: seq<bool>, j: nat, k: nat)
    requires j < k < |visible| && k < |present|
    requires visible[j] && present[j] && visible[k] && present[k]
    requires forall i :: j < i < k ==> !(visible[i] && present[i])
    ensures RowY(Shown(visible, present, j)) - RowY(Shown(visible, present, k)) == RowHeight
  {
    NothingShownBetween(visible, present, j + 1, k);
  }

  lemma {:induction false} NothingShownBetween(visible: seq<bool>, present: seq<bool>, j: nat, k: nat)
    requires 0 < j <= k <= |visible| && k <= |present|
    requires forall i :: j <= i < k ==> !(visible[i] && present[i])
    requires visible[j - 1] && present[j - 1]
    ensures Shown(visible, present, k) == Shown(visible, present, j - 1) + 1
    decreases k - j
  {
    if j < k {
      NothingShownBetween(visible, present, j, k - 1);
    }
  }

  /** Hiding the nearest-enemy element removes both enemy rows and shortens the panel by two rows when both are present. */
  lemma HidingEnemyDropsTwoRows(flags: DisplayFlags, present: seq<bool>)
    requires |present| == RowCount && present[6] && present[7] && flags.nearestEnemy
    ensures var shown := RowVisibility(flags);
      var hidden := RowVisibility(flags.(nearestEnemy := false));
      PanelHeight(Shown(hidden, present, RowCount)) == PanelHeight(Shown(shown, present, RowCount)) - 2 * RowHeight
  {
    var shown := RowVisibility(flags);
    var hidden := RowVisibility(flags.(nearestEnemy := false));
    SameShown(shown, hidden, present, 6);
  }

  lemma {:induction false} SameShown(a: seq<bool>, b: seq<bool>, present: seq<bool>, k: nat)
    requires k <= |a| && k <= |b| && k <= |present|
    requires forall i :: 0 <= i < k ==> a[i] == b[i]
    ensures Shown(a, present, k) == Shown(b, present, k)
  {
    if k > 0 {
      SameShown(a, b, present, k - 1);
    }
  }

  // ------------------------------------------------------------ the panel

  /**
   * What one refresh reads from the game: the player's stats, and the outcome
   * of the nearest-enemy scan (how many hostiles are near, and whether the
   * nearest one's distance moved by more than one metre).
   */
  datatype Sample = Sample(level: Option<int>, gamestage: int, lootstage: int, day: int, kills: int,
                           enemyCount: int, enemyDistanceMoved: bool)

  /** A binding value: text, a value computed from float state this model leaves out, or not handled here. */
  datatype BindingValue = Value(text: string) | FloatValued | Inherited

  /** The panel's cached values: level, gamestage, lootstage, day, kills, blood-moon day and enemy count. */
  datatype Caches = Caches(level: int, gamestage: int, lootstage: int, day: int, kills: int,
                           bloodMoonDay: int, enemyCount: int)

  /** XUiC_HemSoftInfoPanel. The position fields are static in the game; the model holds them on the panel. */
  class InfoPanelController {
    var cachedLevel: int
    var cachedGamestage: int
    var cachedLootstage: int
    var cachedDay: int
    var cachedZombieKills: int
    var cachedBloodMoonDay: int
    var cachedEnemyCount: int
    /** Whether the panel holds the local player (the game's _player is not null). */
    var hasPlayer: bool
    var isDirty: bool
    var layoutDirty: bool
    var positionMode: bool
    var position: Position
    /** The y offset of each of the eight rows, and the panel's height. */
    var rowY: seq<int>
    var panelHeight: int

    predicate Valid()
      reads this
    {
      |rowY| == RowCount
    }

    function Cached(): Caches
      reads this
    {
      Caches(cachedLevel, cachedGamestage, cachedLootstage, cachedDay, cachedZombieKills,
             cachedBloodMoonDay, cachedEnemyCount)
    }

    /** A new panel, with the rows where the window definition puts them. */
    constructor (initialRows: seq<int>, initialHeight: int)
      requires |initialRows| == RowCount
      ensures Valid()
      ensures isDirty && layoutDirty && !positionMode && position == DefaultPosition
      ensures rowY == initialRows && panelHeight == initialHeight
      ensures Cached() == Caches(0, 0, 0, 0, 0, 0, 0)
      ensures !hasPlayer
    {
      hasPlayer := false;
      cachedLevel, cachedGamestage, cachedLootstage, cachedDay := 0, 0, 0, 0;
      cachedZombieKills, cachedBloodMoonDay, cachedEnemyCount := 0, 0, 0;
      isDirty, layoutDirty, positionMode := true, true, false;
      position := DefaultPosition;
      rowY, panelHeight := initialRows, initialHeight;
    }

    /**
     * The position-mode part of Update: Alt+P flips the mode, and turning it
     * off saves the position; while the mode is on, arrow keys move the panel.
     */
    method HandlePositionKeys(input: InputState) returns (saved: Option<Position>)
      modifies this
      ensures positionMode == (old(positionMode) != TogglesPositionMode(input))
      ensures saved.Some? <==> old(positionMode) && TogglesPositionMode(input)
      ensures saved.Some? ==> saved.value == old(position)
      ensures position == if positionMode then Nudge(old(position), input) else old(position)
      ensures rowY == old(rowY) && panelHeight == old(panelHeight)
      ensures cachedLevel == old(cachedLevel) && cachedGamestage == old(cachedGamestage)
      ensures cachedLootstage == old(cachedLootstage) && cachedDay == old(cachedDay)
      ensures cachedZombieKills == old(cachedZombieKills) && cachedBloodMoonDay == old(cachedBloodMoonDay)
      ensures cachedEnemyCount == old(cachedEnemyCount) && hasPlayer == old(hasPlayer)
      ensures isDirty == old(isDirty) && layoutDirty == old(layoutDirty)
    {
      saved := None;
      if TogglesPositionMode(input) {
        positionMode := !positionMode;
        if !positionMode {
          saved := Some(position);
        }
      }
      if positionMode {
        var step := if LeftShift in input.held then MoveStepFast else MoveStep;
        var x, y := position.x, position.y;
        if LeftArrow in input.down {
          x := x - step;
        }
        if RightArrow in input.down {
          x := x + step;
        }
        if UpArrow in input.down {
          y := y + step;
        }
        if DownArrow in input.down {
          y := y - step;
        }
        position := Position(x, y);
      }
    }

    /**
     * The cached-value part of Update: when any of level, gamestage,
     * lootstage, day or kills changed, all five are stored, the next blood
     * moon is recomputed and the panel is marked dirty.
     */
    method RefreshCache(sample: Sample, frequencySetting: int)
      modifies this
      ensures cachedLevel == sample.level.GetOr(1) && cachedGamestage == sample.gamestage
      ensures cachedLootstage == sample.lootstage && cachedDay == sample.day
      ensures cachedZombieKills == sample.kills
      ensures var changed := sample.level.GetOr(1) != old(cachedLevel) || sample.gamestage != old(cachedGamestage)
          || sample.lootstage != old(cachedLootstage) || sample.day != old(cachedDay)
          || sample.kills != old(cachedZombieKills);
        && (changed ==> cachedBloodMoonDay == NextBloodMoon(sample.day, frequencySetting) && isDirty)
        && (!changed ==> cachedBloodMoonDay == old(cachedBloodMoonDay) && isDirty == old(isDirty))
      ensures cachedEnemyCount == old(cachedEnemyCount) && layoutDirty == old(layoutDirty)
      ensures hasPlayer == old(hasPlayer)
      ensures positionMode == old(positionMode) && position == old(position)
      ensures rowY == old(rowY) && panelHeight == old(panelHeight)
    {
      var newLevel := sample.level.GetOr(1);
      if newLevel != cachedLevel || sample.gamestage != cachedGamestage
         || sample.lootstage != cachedLootstage || sample.day != cachedDay || sample.kills != cachedZombieKills
      {
        cachedLevel := newLevel;
        cachedGamestage := sample.gamestage;
        cachedLootstage := sample.lootstage;
        cachedDay := sample.day;
        cachedZombieKills := sample.kills;
        cachedBloodMoonDay := NextBloodMoon(sample.day, frequencySetting);
        isDirty := true;
      }
    }

    /**
     * UpdateLayout: nothing unless the layout is dirty and the view exists;
     * then the flag is cleared and, with a display configuration, each row
     * that is shown and present is placed one row height below the previous
     * one, and the panel is sized to the rows placed.
     */
    method UpdateLayout(config: Option<DisplayFlags>, present: seq<bool>, viewPresent: bool)
      requires Valid() && |present| == RowCount
      modifies this
      ensures Valid()
      ensures !old(layoutDirty) || !viewPresent ==>
        rowY == old(rowY) && panelHeight == old(panelHeight) && layoutDirty == old(layoutDirty)
      ensures old(layoutDirty) && viewPresent ==> !layoutDirty
      ensures old(layoutDirty) && viewPresent && config.None? ==> rowY == old(rowY) && panelHeight == old(panelHeight)
      ensures old(layoutDirty) && viewPresent && config.Some? ==>
        var visible := RowVisibility(config.value);
        && (forall k :: 0 <= k < RowCount && visible[k] && present[k] ==> rowY[k] == RowY(Shown(visible, present, k)))
        && (forall k :: 0 <= k < RowCount && !(visible[k] && present[k]) ==> rowY[k] == old(rowY)[k])
        && panelHeight == PanelHeight(Shown(visible, present, RowCount))
      ensures cachedLevel == old(cachedLevel) && cachedDay == old(cachedDay) && isDirty == old(isDirty)
      ensures cachedBloodMoonDay == old(cachedBloodMoonDay) && positionMode == old(positionMode)
      ensures position == old(position) && cachedEnemyCount == old(cachedEnemyCount) && hasPlayer == old(hasPlayer)
      ensures cachedGamestage == old(cachedGamestage) && cachedLootstage == old(cachedLootstage)
      ensures cachedZombieKills == old(cachedZombieKills)
    {
      if !layoutDirty || !viewPresent {
        return;
      }
      layoutDirty := false;
      if config.None? {
        return;
      }
      var visible := RowVisibility(config.value);
      var visibleCount := 0;
      var yPos := -TitleHeight;
      for k := 0 to RowCount
        invariant |rowY| == RowCount
        invariant visibleCount == Shown(visible, present, k)
        invariant yPos == RowY(visibleCount)
        invariant forall i :: 0 <= i < k && visible[i] && present[i] ==> rowY[i] == RowY(Shown(visible, present, i))
        invariant forall i :: k <= i < RowCount || (0 <= i < k && !(visible[i] && present[i])) ==> rowY[i] == old(rowY)[i]
        invariant !layoutDirty && cachedLevel == old(cachedLevel) && cachedDay == old(cachedDay)
        invariant isDirty == old(isDirty) && cachedBloodMoonDay == old(cachedBloodMoonDay)
        invariant positionMode == old(positionMode) && position == old(position)
        invariant cachedEnemyCount == old(cachedEnemyCount) && hasPlayer == old(hasPlayer)
        invariant cachedGamestage == old(cachedGamestage) && cachedLootstage == old(cachedLootstage)
        invariant cachedZombieKills == old(cachedZombieKills)
      {
        if !present[k] {
          continue;
        }
        if visible[k] {
          rowY := rowY[k := yPos];
          yPos := yPos - RowHeight;
          visibleCount := visibleCount + 1;
        }
      }
      panelHeight := PanelHeight(visibleCount);
    }

    /**
     * The bookkeeping of UpdateNearestEnemy: the enemy count is stored, and
     * the panel is marked dirty when the count changed or the nearest enemy's
     * distance moved by more than one metre.
     */
    method UpdateNearestEnemy(enemyCount: int, distanceMoved: bool)
      modifies this
      ensures cachedEnemyCount == enemyCount
      ensures isDirty == (old(isDirty) || distanceMoved || enemyCount != old(cachedEnemyCount))
      ensures cachedLevel == old(cachedLevel) && cachedGamestage == old(cachedGamestage)
      ensures cachedLootstage == old(cachedLootstage) && cachedDay == old(cachedDay)
      ensures cachedZombieKills == old(cachedZombieKills) && cachedBloodMoonDay == old(cachedBloodMoonDay)
      ensures hasPlayer == old(hasPlayer) && layoutDirty == old(layoutDirty)
      ensures positionMode == old(positionMode) && position == old(position)
      ensures rowY == old(rowY) && panelHeight == old(panelHeight)
    {
      var oldCount := cachedEnemyCount;
      cachedEnemyCount := enemyCount;
      if distanceMoved || oldCount != cachedEnemyCount {
        isDirty := true;
      }
    }

    /**
     * Update, for one frame. `configReloaded` says whether the periodic check
     * of the settings file found it changed this frame, in which case the
     * display configuration was reloaded (as `config`) and both the bindings
     * and the layout are marked dirty. `playerAvailable` says whether the UI
     * offers the local player this frame; it matters only while the panel
     * holds none. `sample` is None on frames where the refresh interval has
     * not elapsed or the world is missing; then nothing after acquiring the
     * player happens. Returns the position saved, if any, and whether the
     * bindings were refreshed.
     */
    method Update(input: InputState, gameRunning: bool, configReloaded: bool, playerAvailable: bool,
                  sample: Option<Sample>, frequencySetting: int, config: Option<DisplayFlags>,
                  present: seq<bool>, viewPresent: bool)
      returns (saved: Option<Position>, refreshed: bool)
      requires Valid() && |present| == RowCount
      modifies this
      ensures Valid()
      ensures !gameRunning ==>
        && saved.None? && !refreshed && positionMode == old(positionMode) && position == old(position)
        && isDirty == old(isDirty) && layoutDirty == old(layoutDirty) && hasPlayer == old(hasPlayer)
        && Cached() == old(Cached()) && rowY == old(rowY) && panelHeight == old(panelHeight)
      ensures gameRunning ==> positionMode == (old(positionMode) != TogglesPositionMode(input))
      ensures gameRunning ==> (saved.Some? <==> old(positionMode) && TogglesPositionMode(input))
      ensures gameRunning ==> position == if positionMode then Nudge(old(position), input) else old(position)
      ensures gameRunning ==> hasPlayer == (old(hasPlayer) || playerAvailable)
      ensures gameRunning && (!hasPlayer || sample.None?) ==>
        && !refreshed && Cached() == old(Cached()) && rowY == old(rowY) && panelHeight == old(panelHeight)
        && isDirty == (old(isDirty) || configReloaded || (hasPlayer && !old(hasPlayer)))
        && layoutDirty == (old(layoutDirty) || configReloaded)
      ensures gameRunning && hasPlayer && sample.Some? ==>
        var v := sample.value;
        var changed := v.level.GetOr(1) != old(cachedLevel) || v.gamestage != old(cachedGamestage)
          || v.lootstage != old(cachedLootstage) || v.day != old(cachedDay) || v.kills != old(cachedZombieKills);
        && cachedLevel == v.level.GetOr(1) && cachedGamestage == v.gamestage && cachedLootstage == v.lootstage
        && cachedDay == v.day && cachedZombieKills == v.kills && cachedEnemyCount == v.enemyCount
        && cachedBloodMoonDay == (if changed then NextBloodMoon(v.day, frequencySetting) else old(cachedBloodMoonDay))
        && !isDirty
        && (refreshed <==>
              (old(isDirty) || configReloaded || !old(hasPlayer) || changed
               || v.enemyDistanceMoved || v.enemyCount != old(cachedEnemyCount)))
      ensures gameRunning && hasPlayer && sample.Some? ==>
        var relayout := old(layoutDirty) || configReloaded;
        && (!relayout || !viewPresent ==>
              rowY == old(rowY) && panelHeight == old(panelHeight) && layoutDirty == relayout)
        && (relayout && viewPresent ==> !layoutDirty)
        && (relayout && viewPresent && config.None? ==> rowY == old(rowY) && panelHeight == old(panelHeight))
        && (relayout && viewPresent && config.Some? ==>
              var visible := RowVisibility(config.value);
              && (forall k :: 0 <= k < RowCount && visible[k] && present[k] ==>
                    rowY[k] == RowY(Shown(visible, present, k)))
              && (forall k :: 0 <= k < RowCount && !(visible[k] && present[k]) ==> rowY[k] == old(rowY)[k])
              && panelHeight == PanelHeight(Shown(visible, present, RowCount)))
    {
      saved, refreshed := None, false;
      if !gameRunning {
        return;
      }
      if configReloaded {
        isDirty, layoutDirty := true, true;
      }
      saved := HandlePositionKeys(input);
      if !hasPlayer {
        if !playerAvailable {
          return;
        }
        hasPlayer := true;
        isDirty := true;
      }
      if sample.None? {
        return;
      }
      RefreshCache(sample.value, frequencySetting);
      UpdateNearestEnemy(sample.value.enemyCount, sample.value.enemyDistanceMoved);
      if isDirty {
        refreshed := true;
        isDirty := false;
      }
      if layoutDirty {
        UpdateLayout(config, present, viewPresent);
      }
    }

    /** OnOpen: the player reference is dropped and the panel is marked dirty, so the next refresh redraws it. */
    method OnOpen()
      modifies this
      ensures isDirty && !hasPlayer
      ensures Cached() == old(Cached()) && layoutDirty == old(layoutDirty)
      ensures position == old(position) && positionMode == old(positionMode)
      ensures rowY == old(rowY) && panelHeight == old(panelHeight)
    {
      hasPlayer := false;
      isDirty := true;
    }

    /** OnClose: the player reference is dropped; it is looked up again on the next frame the panel is open. */
    method OnClose()
      modifies this
      ensures !hasPlayer
      ensures isDirty == old(isDirty) && layoutDirty == old(layoutDirty) && Cached() == old(Cached())
      ensures position == old(position) && positionMode == old(positionMode)
      ensures rowY == old(rowY) && panelHeight == old(panelHeight)
    {
      hasPlayer := false;
    }

    /** GetBindingValueInternal, for the bindings whose values are integers, flags or fixed text. */
    function Binding(config: Option<DisplayFlags>, name: string): BindingValue
      reads this
    {
      if name == "showlevel" then Value(ShowText(config, Level))
      else if name == "showgamestage" then Value(ShowText(config, Gamestage))
      else if name == "showlootstage" then Value(ShowText(config, Lootstage))
      else if name == "showday" then Value(ShowText(config, Day))
      else if name == "showbloodmoon" then Value(ShowText(config, BloodMoon))
      else if name == "showkills" then Value(ShowText(config, Kills))
      else if name == "shownearestenemy" then Value(ShowText(config, NearestEnemy))
      else if name == "playerlevel" then Value(ValueOrOne(cachedLevel))
      else if name == "gamestage" then Value(ValueOrOne(cachedGamestage))
      else if name == "lootstage" then Value(ValueOrOne(cachedLootstage))
      else if name == "currentday" then Value(ValueOrOne(cachedDay))
      else if name == "zombiekills" then Value(IntToString(cachedZombieKills))
      else if name == "bloodmoontext" then Value(BloodMoonText(cachedBloodMoonDay - cachedDay))
      else if name == "bloodmooncolor" then Value(BloodMoonColor(cachedBloodMoonDay - cachedDay))
      else if name == "nearestenemy" || name == "nearestenemycolor" then FloatValued
      else if name == "enemycount" then Value(IntToString(cachedEnemyCount))
      else if name == "enemycountcolor" then Value(EnemyCountColor(cachedEnemyCount))
      else if name == "positionmode" then Value(if positionMode then "true" else "false")
      else Inherited
    }

    /** The four stat bindings never show a number below 1. */
    lemma StatBindingsAtLeastOne(config: Option<DisplayFlags>)
      ensures forall name :: name in {"playerlevel", "gamestage", "lootstage", "currentday"} ==>
        Binding(config, name).Value? && IsDecimal(Binding(config, name).text)
        && DecimalValue(Binding(config, name).text) >= 1
    {
    }

    /** Right after a refresh with a fresh day, the blood-moon text counts down to the blood-moon day. */
    lemma BloodMoonBindingsAfterRefresh(config: Option<DisplayFlags>, setting: int)
      requires cachedBloodMoonDay == NextBloodMoon(cachedDay, setting) && cachedDay >= 0
      ensures var days := cachedBloodMoonDay - cachedDay;
        && 0 <= days <= Frequency(setting)
        && (Binding(config, "bloodmoontext") == Value("Tonight!") <==> cachedDay % Frequency(setting) == 0 && cachedDay > 0)
    {
      var f := Frequency(setting);
      var days := cachedBloodMoonDay - cachedDay;
      if cachedDay > 0 && cachedDay % f == 0 {
        assert days == 0;
      }
    }
  }

  /** A visibility binding: "true" exactly when the configuration is loaded and shows the element. */
  function ShowText(config: Option<DisplayFlags>, f: Flag): (r: string)
    ensures r == "true" <==> config.Some? && config.value.Get(f)
    ensures r == "true" || r == "false"
  {
    if config.Some? && config.value.Get(f) then "true" else "false"
  }
}
