/**
 * Item stacks and slot arrays as the inventory actions see them: a stack is
 * an item type and a count; the host's empty stack has type 0 and count 0.
 */
module Stacks {

  type ItemType = int

  /** The item type of ItemValue.None. */
  const NoItem: ItemType := 0

  datatype ItemStack = ItemStack(itemType: ItemType, count: int)

  /** ItemStack.Empty. */
  const Empty: ItemStack := ItemStack(NoItem, 0)

  /** ItemStack.IsEmpty(): no units, or no item. */
  predicate IsEmpty(s: ItemStack) {
    s.count < 1 || s.itemType == NoItem
  }

  /** The units a stack holds of type t. */
  function Contrib(s: ItemStack, t: ItemType): int {
    if s.itemType == t then s.count else 0
  }

  /** The units of type t held across a slot array. */
  function Units(slots: seq<ItemStack>, t: ItemType): int {
    if slots == [] then 0 else Contrib(slots[0], t) + Units(slots[1..], t)
  }

  /** The sum of all counts of a slot array. */
  function Total(slots: seq<ItemStack>): int {
    if slots == [] then 0 else slots[0].count + Total(slots[1..])
  }

  /** Some non-empty slot holds type t. */
  predicate HasMatch(slots: seq<ItemStack>, t: ItemType) {
    exists k :: 0 <= k < |slots| && !IsEmpty(slots[k]) && slots[k].itemType == t
  }

  /** Replacing one slot changes the units of each type by the difference of the two stacks. */
  lemma {:induction false} UnitsUpdate(slots: seq<ItemStack>, j: nat, x: ItemStack, t: ItemType)
    requires j < |slots|
    ensures Units(slots[j := x], t) == Units(slots, t) - Contrib(slots[j], t) + Contrib(x, t)
  {
    if j > 0 {
      assert slots[j := x][1..] == slots[1..][j - 1 := x];
      UnitsUpdate(slots[1..], j - 1, x, t);
    }
  }

  /** Replacing one slot changes the total by the difference of the two counts. */
  lemma {:induction false} TotalUpdate(slots: seq<ItemStack>, j: nat, x: ItemStack)
    requires j < |slots|
    ensures Total(slots[j := x]) == Total(slots) - slots[j].count + x.count
  {
    if j > 0 {
      assert slots[j := x][1..] == slots[1..][j - 1 := x];
      TotalUpdate(slots[1..], j - 1, x);
    }
  }

  /** Slots that differ only in stacks of type u hold the same units of every other type. */
  lemma {:induction false} UnitsOtherTypes(a: seq<ItemStack>, b: seq<ItemStack>, u: ItemType, t: ItemType)
    requires |a| == |b| && t != u
    requires forall k :: 0 <= k < |a| ==> a[k] == b[k] || (a[k].itemType == u && b[k].itemType == u)
    ensures Units(a, t) == Units(b, t)
  {
    if a != [] {
      UnitsOtherTypes(a[1..], b[1..], u, t);
    }
  }
}
