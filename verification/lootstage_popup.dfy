/**
 * The lootstage popup (HemSoftLootstagePopup.cs): the notification state
 * the info panel sets, its countdown, and the text and colour of the
 * change it reports.
 */
module LootstagePopup {
  import opened Wrappers
  import opened Text

  const PopupGreen := "100,255,100,255"
  const PopupRed := "255,100,100,255"
  const PopupYellow := "255,255,100,255"

  /** lootstagediff: the change with a '+' in front when it is an increase; a decrease keeps its '-'. */
  function DiffText(diff: int): (r: string)
    ensures r != []
    ensures r[0] == '+' <==> diff > 0
    ensures r[0] == '-' <==> diff < 0
    ensures diff > 0 ==> IsDecimal(r[1..]) && DecimalValue(r[1..]) == diff
    ensures diff <= 0 ==> IsDecimal(r) && DecimalValue(r) == diff
  {
    if diff > 0 then
      var n := IntToString(diff);
      assert ("+" + n)[1..] == n;
      "+" + n
    else IntToString(diff)
  }

  /** lootstagemessage. */
  function Message(diff: int): (r: string)
    ensures diff > 0 ==> r == "Lootstage Increased!"
    ensures diff < 0 ==> r == "Lootstage Decreased"
    ensures diff == 0 ==> r == "Lootstage Updated"
  {
    if diff > 0 then "Lootstage Increased!"
    else if diff < 0 then "Lootstage Decreased"
    else "Lootstage Updated"
  }

  /** lootstagecolor. */
  function Color(diff: int): (r: string)
    ensures r == PopupGreen <==> diff > 0
    ensures r == PopupRed <==> diff < 0
    ensures r == PopupYellow <==> diff == 0
  {
    if diff > 0 then PopupGreen
    else if diff < 0 then PopupRed
    else PopupYellow
  }

  /** The message, the colour and the sign of the diff text always tell the same story. */
  lemma PopupBindingsAgree(diff: int)
    ensures Message(diff) == "Lootstage Increased!" <==> Color(diff) == PopupGreen
    ensures Message(diff) == "Lootstage Decreased" <==> Color(diff) == PopupRed
    ensures Color(diff) == PopupGreen <==> DiffText(diff)[0] == '+'
    ensures Color(diff) == PopupRed <==> DiffText(diff)[0] == '-'
    ensures Color(diff) == PopupYellow <==> DiffText(diff) == "0"
  {
    assert |"Lootstage Increased!"| != |"Lootstage Decreased"| && |"Lootstage Decreased"| != |"Lootstage Updated"|;
    if diff == 0 {
      assert DiffText(0) == NatToString(0);
    } else {
      assert DiffText(diff) != "0" by {
        if diff < 0 {
          assert DiffText(diff)[0] == '-';
        } else {
          assert DiffText(diff)[0] == '+';
        }
      }
    }
  }

  /** The popup shows for five seconds. */
  const DisplayDuration: real := 5.0

  /** XUiC_HemSoftLootstagePopup. */
  class LootstagePopupController {
    var newLootstage: int
    var oldLootstage: int
    var displayTimer: real
    var isDirty: bool

    constructor ()
      ensures newLootstage == 0 && oldLootstage == 0 && displayTimer == 0.0 && isDirty
    {
      newLootstage, oldLootstage, displayTimer, isDirty := 0, 0, 0.0, true;
    }

    /** ShowNotification: record both values, arm the timer and mark the popup dirty. */
    method ShowNotification(newValue: int, oldValue: int)
      modifies this
      ensures newLootstage == newValue && oldLootstage == oldValue
      ensures displayTimer == DisplayDuration && isDirty
    {
      newLootstage := newValue;
      oldLootstage := oldValue;
      displayTimer := DisplayDuration;
      isDirty := true;
    }

    /**
     * Update: an armed timer counts down, and the frame on which it runs out
     * asks the window manager, when there is one, to close the popup; a dirty
     * popup is refreshed and marked clean.
     */
    method Update(dt: real, windowManagerPresent: bool) returns (closeRequested: bool, refreshed: bool)
      modifies this
      ensures old(displayTimer) > 0.0 ==> displayTimer == old(displayTimer) - dt
      ensures old(displayTimer) <= 0.0 ==> displayTimer == old(displayTimer)
      ensures closeRequested <==> old(displayTimer) > 0.0 && old(displayTimer) - dt <= 0.0 && windowManagerPresent
      ensures refreshed == old(isDirty) && !isDirty
      ensures newLootstage == old(newLootstage) && oldLootstage == old(oldLootstage)
    {
      closeRequested, refreshed := false, false;
      if displayTimer > 0.0 {
        displayTimer := displayTimer - dt;
        if displayTimer <= 0.0 && windowManagerPresent {
          closeRequested := true;
        }
      }
      if isDirty {
        refreshed := true;
        isDirty := false;
      }
    }

    /** OnOpen: the popup is marked dirty. */
    method OnOpen()
      modifies this
      ensures isDirty
      ensures newLootstage == old(newLootstage) && oldLootstage == old(oldLootstage) && displayTimer == old(displayTimer)
    {
      isDirty := true;
    }

    /** OnClose: the timer is disarmed, so a closed popup never asks to close again. */
    method OnClose()
      modifies this
      ensures displayTimer == 0.0
      ensures newLootstage == old(newLootstage) && oldLootstage == old(oldLootstage) && isDirty == old(isDirty)
    {
      displayTimer := 0.0;
    }

    /** GetBindingValueInternal: the five popup bindings; any other name is left to the base controller. */
    function Binding(name: string): (r: Option<string>)
      reads this
      ensures name == "lootstagediff" ==> r == Some(DiffText(newLootstage - oldLootstage))
      ensures name == "lootstagemessage" ==> r == Some(Message(newLootstage - oldLootstage))
      ensures name == "lootstagecolor" ==> r == Some(Color(newLootstage - oldLootstage))
    {
      if name == "newlootstage" then Some(IntToString(newLootstage))
      else if name == "oldlootstage" then Some(IntToString(oldLootstage))
      else if name == "lootstagediff" then Some(DiffText(newLootstage - oldLootstage))
      else if name == "lootstagemessage" then Some(Message(newLootstage - oldLootstage))
      else if name == "lootstagecolor" then Some(Color(newLootstage - oldLootstage))
      else None
    }

    /** The old and new values print back as the numbers stored. */
    lemma ValueBindingsDenoteValues()
      ensures Binding("newlootstage").Some? && DecimalValue(Binding("newlootstage").value) == newLootstage
      ensures Binding("oldlootstage").Some? && DecimalValue(Binding("oldlootstage").value) == oldLootstage
    {
    }
  }
}
