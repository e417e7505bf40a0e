/**
 * InventoryActions (InventoryHotkeyPatches.cs): the four transfers between the
 * player's backpack and the open container, over their slot arrays.
 *
 * Restock does its own arithmetic and is specified by the functions Fill and
 * RestockFrom. QuickStack, StashAll and LootAll hand each stack to the host
 * (TryStackItem, AddItem); those calls are parameters whose behaviour the
 * methods assume through the contracts TryStackContract and AddContract.
 */
module InventoryActions {
  import opened Stacks
  import opened Wrappers

  function Min(a: int, b: int): int {
    if a <= b then a else b
  }

  // ================================================================ Restock

  /** The inner loop's state: the player stack being filled, the container, the units moved so far. */
  datatype FillState = FillState(stack: ItemStack, container: seq<ItemStack>, moved: int)

  /**
   * The inner loop of Restock from container slot j on: take min(space,
   * available) from each non-empty slot of the stack's type, empty a drained
   * slot, and stop as soon as the stack reaches maxStack.
   */
  function Fill(st: FillState, maxStack: int, j: nat): FillState
    decreases |st.container| - j
  {
    if j >= |st.container| then st
    else
      var cs := st.container[j];
      if IsEmpty(cs) || cs.itemType != st.stack.itemType then Fill(st, maxStack, j + 1)
      else
        var toTransfer := Min(maxStack - st.stack.count, cs.count);
        if toTransfer <= 0 then Fill(st, maxStack, j + 1)
        else
          var stack := st.stack.(count := st.stack.count + toTransfer);
          var rest := cs.(count := cs.count - toTransfer);
          var container := st.container[j := if rest.count <= 0 then Empty else rest];
          var next := FillState(stack, container, st.moved + toTransfer);
          if stack.count >= maxStack then next else Fill(next, maxStack, j + 1)
  }

  /** The outer loop's state: both slot arrays and the transfer count. */
  datatype RestockState = RestockState(backpack: seq<ItemStack>, container: seq<ItemStack>, moved: int)

  /** Whether Restock tries to fill backpack stack ps: non-empty, known item class, below its max stack. */
  predicate Fillable(ps: ItemStack, maxStacks: map<ItemType, int>) {
    !IsEmpty(ps) && ps.itemType in maxStacks && ps.count < maxStacks[ps.itemType]
  }

  /** The outer loop of Restock from backpack slot i on. */
  function RestockFrom(st: RestockState, maxStacks: map<ItemType, int>, i: nat): RestockState
    decreases |st.backpack| - i
  {
    if i >= |st.backpack| then st
    else
      var ps := st.backpack[i];
      if !Fillable(ps, maxStacks) then RestockFrom(st, maxStacks, i + 1)
      else
        var f := Fill(FillState(ps, st.container, st.moved), maxStacks[ps.itemType], 0);
        RestockFrom(RestockState(st.backpack[i := f.stack], f.container, f.moved), maxStacks, i + 1)
  }

  /** What Restock does to a backpack and a container, with the units it reports. */
  function Restocked(backpack: seq<ItemStack>, container: seq<ItemStack>, maxStacks: map<ItemType, int>): RestockState {
    RestockFrom(RestockState(backpack, container, 0), maxStacks, 0)
  }

  /**
   * Restock, in place. maxStacks maps each item type whose ItemClass is known
   * to its Stacknumber. Nothing happens when either inventory is missing.
   */
  method Restock(backpack: array?<ItemStack>, container: array?<ItemStack>, maxStacks: map<ItemType, int>)
    returns (moved: int)
    requires backpack == null || backpack != container
    modifies backpack, container
    ensures backpack == null || container == null ==> moved == 0
    ensures backpack != null ==> container == null ==> backpack[..] == old(backpack[..])
    ensures container != null ==> backpack == null ==> container[..] == old(container[..])
    ensures backpack != null && container != null ==>
      Restocked(old(backpack[..]), old(container[..]), maxStacks)
        == RestockState(backpack[..], container[..], moved)
  {
    moved := 0;
    if backpack == null || container == null {
      return;
    }
    ghost var backpack0, container0 := backpack[..], container[..];
    for i := 0 to backpack.Length
      invariant RestockFrom(RestockState(backpack[..], container[..], moved), maxStacks, i)
                == Restocked(backpack0, container0, maxStacks)
    {
      var playerStack := backpack[i];
      if IsEmpty(playerStack) || playerStack.itemType !in maxStacks {
        assert !Fillable(backpack[..][i], maxStacks);
        continue;
      }
      var maxStack := maxStacks[playerStack.itemType];
      if playerStack.count >= maxStack {
        assert !Fillable(backpack[..][i], maxStacks);
        continue;
      }
      ghost var backpackI := backpack[..];
      ghost var start := FillState(playerStack, container[..], moved);
      assert RestockFrom(RestockState(backpackI, container[..], moved), maxStacks, i)
          == RestockFrom(RestockState(backpackI[i := Fill(start, maxStack, 0).stack],
                                      Fill(start, maxStack, 0).container, Fill(start, maxStack, 0).moved), maxStacks, i + 1);
      var j := 0;
      while j < container.Length
        invariant 0 <= j <= container.Length
        invariant backpack[..] == backpackI[i := playerStack]
        invariant Fill(FillState(playerStack, container[..], moved), maxStack, j) == Fill(start, maxStack, 0)
      {
        var containerStack := container[j];
        if IsEmpty(containerStack) || containerStack.itemType != playerStack.itemType {
          j := j + 1;
          continue;
        }
        var spaceAvailable := maxStack - playerStack.count;
        var toTransfer := Min(spaceAvailable, containerStack.count);
        if toTransfer > 0 {
          playerStack := playerStack.(count := playerStack.count + toTransfer);
          containerStack := containerStack.(count := containerStack.count - toTransfer);
          moved := moved + toTransfer;
          backpack[i] := playerStack;
          if containerStack.count <= 0 {
            container[j] := Empty;
          } else {
            container[j] := containerStack;
          }
          if playerStack.count >= maxStack {
            assert Fill(start, maxStack, 0) == FillState(playerStack, container[..], moved);
            break;
          }
        }
        j := j + 1;
      }
      assert Fill(start, maxStack, 0) == FillState(playerStack, container[..], moved);
      assert backpack[..] == backpackI[i := playerStack];
    }
  }

  // ------------------------------------------------------ Restock: proofs

  /**
   * How a slot that gives units away may change: it stays, or a non-empty
   * stack loses units and keeps a positive count, or it is drained and becomes
   * the empty stack.
   */
  predicate Reduced(before: ItemStack, after: ItemStack) {
    after == before
    || (!IsEmpty(before)
        && (after == Empty || (after.itemType == before.itemType && 0 < after.count < before.count)))
  }

  /** No non-empty slot of type t in positions below j. */
  predicate NoMatchBelow(slots: seq<ItemStack>, t: ItemType, j: nat) {
    forall k :: 0 <= k < j && k < |slots| ==> IsEmpty(slots[k]) || slots[k].itemType != t
  }

  /** Fill keeps the stack's type, raises its count to at most maxStack, and only draws from slots of that type. */
  lemma {:induction false} FillShape(st: FillState, maxStack: int, j: nat)
    requires st.stack.count < maxStack
    ensures var f := Fill(st, maxStack, j);
      && f.stack.itemType == st.stack.itemType
      && st.stack.count <= f.stack.count <= maxStack
      && f.moved - st.moved == f.stack.count - st.stack.count
      && |f.container| == |st.container|
      && forall k :: 0 <= k < |st.container| ==>
           Reduced(st.container[k], f.container[k])
           && (f.container[k] != st.container[k] ==> st.container[k].itemType == st.stack.itemType)
    decreases |st.container| - j
  {
    if j < |st.container| {
      var cs := st.container[j];
      if IsEmpty(cs) || cs.itemType != st.stack.itemType {
        FillShape(st, maxStack, j + 1);
      } else {
        var toTransfer := Min(maxStack - st.stack.count, cs.count);
        var stack := st.stack.(count := st.stack.count + toTransfer);
        var rest := cs.(count := cs.count - toTransfer);
        var container := st.container[j := if rest.count <= 0 then Empty else rest];
        var next := FillState(stack, container, st.moved + toTransfer);
        if stack.count < maxStack {
          FillShape(next, maxStack, j + 1);
        }
      }
    }
  }

  /** Every unit Fill adds to the stack leaves the container: per type, and in the total count. */
  lemma {:induction false} FillConserves(st: FillState, maxStack: int, j: nat, t: ItemType)
    ensures var f := Fill(st, maxStack, j);
      && Contrib(f.stack, t) + Units(f.container, t) == Contrib(st.stack, t) + Units(st.container, t)
      && f.stack.count + Total(f.container) == st.stack.count + Total(st.container)
      && f.stack.itemType == st.stack.itemType
      && f.moved - st.moved == f.stack.count - st.stack.count
    decreases |st.container| - j
  {
    if j < |st.container| {
      var cs := st.container[j];
      if IsEmpty(cs) || cs.itemType != st.stack.itemType {
        FillConserves(st, maxStack, j + 1, t);
      } else {
        var toTransfer := Min(maxStack - st.stack.count, cs.count);
        if toTransfer <= 0 {
          FillConserves(st, maxStack, j + 1, t);
        } else {
          var stack := st.stack.(count := st.stack.count + toTransfer);
          var rest := cs.(count := cs.count - toTransfer);
          var slot := if rest.count <= 0 then Empty else rest;
          var next := FillState(stack, st.container[j := slot], st.moved + toTransfer);
          UnitsUpdate(st.container, j, slot, t);
          TotalUpdate(st.container, j, slot);
          if stack.count < maxStack {
            FillConserves(next, maxStack, j + 1, t);
          }
        }
      }
    }
  }

  /**
   * Fill is greedy: when it returns, the stack is full or the container holds
   * no more non-empty stacks of its type.
   */
  lemma {:induction false} FillGreedy(st: FillState, maxStack: int, j: nat)
    requires st.stack.count < maxStack
    requires NoMatchBelow(st.container, st.stack.itemType, j)
    ensures var f := Fill(st, maxStack, j);
      f.stack.count == maxStack || !HasMatch(f.container, st.stack.itemType)
    decreases |st.container| - j
  {
    var t := st.stack.itemType;
    if j < |st.container| {
      var cs := st.container[j];
      if IsEmpty(cs) || cs.itemType != t {
        FillGreedy(st, maxStack, j + 1);
      } else {
        var toTransfer := Min(maxStack - st.stack.count, cs.count);
        var stack := st.stack.(count := st.stack.count + toTransfer);
        var rest := cs.(count := cs.count - toTransfer);
        var container := st.container[j := if rest.count <= 0 then Empty else rest];
        var next := FillState(stack, container, st.moved + toTransfer);
        if stack.count < maxStack {
          assert rest.count == 0;
          FillGreedy(next, maxStack, j + 1);
        }
      }
    } else {
      assert !HasMatch(st.container, t);
    }
  }

  /** Restock conserves units: per item type, the backpack and the container together hold what they held before. */
  lemma {:induction false} RestockFromConserves(st: RestockState, maxStacks: map<ItemType, int>, i: nat, t: ItemType)
    ensures var r := RestockFrom(st, maxStacks, i);
      && Units(r.backpack, t) + Units(r.container, t) == Units(st.backpack, t) + Units(st.container, t)
      && r.moved - st.moved == Total(r.backpack) - Total(st.backpack)
      && r.moved - st.moved == Total(st.container) - Total(r.container)
    decreases |st.backpack| - i
  {
    if i < |st.backpack| {
      var ps := st.backpack[i];
      if !Fillable(ps, maxStacks) {
        RestockFromConserves(st, maxStacks, i + 1, t);
      } else {
        var f := Fill(FillState(ps, st.container, st.moved), maxStacks[ps.itemType], 0);
        FillConserves(FillState(ps, st.container, st.moved), maxStacks[ps.itemType], 0, t);
        UnitsUpdate(st.backpack, i, f.stack, t);
        TotalUpdate(st.backpack, i, f.stack);
        RestockFromConserves(RestockState(st.backpack[i := f.stack], f.container, f.moved), maxStacks, i + 1, t);
      }
    }
  }

  /** Reduced is transitive. */
  lemma ReducedTrans(a: ItemStack, b: ItemStack, c: ItemStack)
    requires Reduced(a, b) && Reduced(b, c)
    ensures Reduced(a, c)
  {
  }

  /**
   * The slots Restock touches: backpack slots below i stay, later ones keep
   * their type, only grow, and only when fillable, never beyond the max
   * stack; each container slot is only drawn from.
   */
  lemma {:induction false} RestockFromSlots(st: RestockState, maxStacks: map<ItemType, int>, i: nat)
    ensures var r := RestockFrom(st, maxStacks, i);
      && |r.backpack| == |st.backpack| && |r.container| == |st.container|
      && (forall k :: 0 <= k < |st.backpack| ==>
            && r.backpack[k].itemType == st.backpack[k].itemType
            && r.backpack[k].count >= st.backpack[k].count
            && (k < i || !Fillable(st.backpack[k], maxStacks) ==> r.backpack[k] == st.backpack[k])
            && (k >= i && Fillable(st.backpack[k], maxStacks) ==>
                  r.backpack[k].count <= maxStacks[st.backpack[k].itemType]))
      && (forall k :: 0 <= k < |st.container| ==> Reduced(st.container[k], r.container[k]))
    decreases |st.backpack| - i
  {
    if i < |st.backpack| {
      var ps := st.backpack[i];
      if !Fillable(ps, maxStacks) {
        RestockFromSlots(st, maxStacks, i + 1);
      } else {
        var f := Fill(FillState(ps, st.container, st.moved), maxStacks[ps.itemType], 0);
        FillShape(FillState(ps, st.container, st.moved), maxStacks[ps.itemType], 0);
        var next := RestockState(st.backpack[i := f.stack], f.container, f.moved);
        RestockFromSlots(next, maxStacks, i + 1);
        var r := RestockFrom(st, maxStacks, i);
        forall k | 0 <= k < |st.container|
          ensures Reduced(st.container[k], r.container[k])
        {
          ReducedTrans(st.container[k], f.container[k], r.container[k]);
        }
      }
    }
  }

  /** Some backpack stack from slot i on that Restock fills has item type t. */
  predicate FilledTypeFrom(backpack: seq<ItemStack>, maxStacks: map<ItemType, int>, i: nat, t: ItemType) {
    exists b :: i <= b < |backpack| && Fillable(backpack[b], maxStacks) && backpack[b].itemType == t
  }

  /** Restock draws only on container stacks whose type is that of a backpack stack it fills. */
  lemma {:induction false} RestockFromDrawsFilledTypes(st: RestockState, maxStacks: map<ItemType, int>, i: nat)
    ensures var r := RestockFrom(st, maxStacks, i);
      && |r.container| == |st.container|
      && forall k :: 0 <= k < |st.container| && r.container[k] != st.container[k] ==>
           FilledTypeFrom(st.backpack, maxStacks, i, st.container[k].itemType)
    decreases |st.backpack| - i
  {
    if i < |st.backpack| {
      var ps := st.backpack[i];
      if !Fillable(ps, maxStacks) {
        RestockFromDrawsFilledTypes(st, maxStacks, i + 1);
        var r := RestockFrom(st, maxStacks, i);
        forall k | 0 <= k < |st.container| && r.container[k] != st.container[k]
          ensures FilledTypeFrom(st.backpack, maxStacks, i, st.container[k].itemType)
        {
          var b :| i + 1 <= b < |st.backpack| && Fillable(st.backpack[b], maxStacks)
                   && st.backpack[b].itemType == st.container[k].itemType;
        }
      } else {
        var f := Fill(FillState(ps, st.container, st.moved), maxStacks[ps.itemType], 0);
        FillShape(FillState(ps, st.container, st.moved), maxStacks[ps.itemType], 0);
        var next := RestockState(st.backpack[i := f.stack], f.container, f.moved);
        RestockFromDrawsFilledTypes(next, maxStacks, i + 1);
        var r := RestockFrom(st, maxStacks, i);
        assert r == RestockFrom(next, maxStacks, i + 1);
        forall k | 0 <= k < |st.container| && r.container[k] != st.container[k]
          ensures FilledTypeFrom(st.backpack, maxStacks, i, st.container[k].itemType)
        {
          if f.container[k] != st.container[k] {
            assert st.container[k].itemType == ps.itemType;
          } else {
            var b :| i + 1 <= b < |next.backpack| && Fillable(next.backpack[b], maxStacks)
                     && next.backpack[b].itemType == f.container[k].itemType;
            assert next.backpack[b] == st.backpack[b];
          }
        }
      }
    }
  }

  /** A type absent from a container stays absent while its slots are only drawn from. */
  lemma NoMatchStays(before: seq<ItemStack>, after: seq<ItemStack>, t: ItemType)
    requires |before| == |after|
    requires forall k :: 0 <= k < |before| ==> Reduced(before[k], after[k])
    requires !HasMatch(before, t)
    ensures !HasMatch(after, t)
  {
    forall k | 0 <= k < |after|
      ensures IsEmpty(after[k]) || after[k].itemType != t
    {
      assert Reduced(before[k], after[k]);
    }
  }

  /**
   * Restock is greedy: every backpack stack from slot i on that it tries to fill
   * ends full, or the container has no non-empty stack of its type left.
   */
  lemma {:induction false} RestockFromGreedy(st: RestockState, maxStacks: map<ItemType, int>, i: nat)
    ensures var r := RestockFrom(st, maxStacks, i);
      |r.backpack| == |st.backpack| &&
      forall k :: i <= k < |st.backpack| && Fillable(st.backpack[k], maxStacks) ==>
        r.backpack[k].count == maxStacks[st.backpack[k].itemType]
        || !HasMatch(r.container, st.backpack[k].itemType)
    decreases |st.backpack| - i
  {
    RestockFromSlots(st, maxStacks, i);
    if i < |st.backpack| {
      var ps := st.backpack[i];
      var r := RestockFrom(st, maxStacks, i);
      if !Fillable(ps, maxStacks) {
        RestockFromGreedy(st, maxStacks, i + 1);
      } else {
        var start := FillState(ps, st.container, st.moved);
        var f := Fill(start, maxStacks[ps.itemType], 0);
        FillShape(start, maxStacks[ps.itemType], 0);
        FillGreedy(start, maxStacks[ps.itemType], 0);
        var next := RestockState(st.backpack[i := f.stack], f.container, f.moved);
        RestockFromGreedy(next, maxStacks, i + 1);
        RestockFromSlots(next, maxStacks, i + 1);
        assert r.backpack[i] == f.stack;
        if f.stack.count != maxStacks[ps.itemType] {
          NoMatchStays(f.container, r.container, ps.itemType);
        }
        forall k | i < k < |st.backpack| && Fillable(st.backpack[k], maxStacks)
          ensures r.backpack[k].count == maxStacks[st.backpack[k].itemType]
                  || !HasMatch(r.container, st.backpack[k].itemType)
        {
          assert next.backpack[k] == st.backpack[k];
        }
      }
    }
  }

  /** Restock conserves units of every item type across the two inventories. */
  lemma RestockConservesUnits(backpack: seq<ItemStack>, container: seq<ItemStack>, maxStacks: map<ItemType, int>, t: ItemType)
    ensures var r := Restocked(backpack, container, maxStacks);
      Units(r.backpack, t) + Units(r.container, t) == Units(backpack, t) + Units(container, t)
  {
    RestockFromConserves(RestockState(backpack, container, 0), maxStacks, 0, t);
  }

  /**
   * The count Restock reports is the number of units the backpack gained,
   * which is the number the container lost, and is never negative.
   */
  lemma RestockReportsUnitsMoved(backpack: seq<ItemStack>, container: seq<ItemStack>, maxStacks: map<ItemType, int>)
    ensures var r := Restocked(backpack, container, maxStacks);
      && r.moved == Total(r.backpack) - Total(backpack)
      && r.moved == Total(container) - Total(r.container)
      && r.moved >= 0
  {
    RestockFromConserves(RestockState(backpack, container, 0), maxStacks, 0, NoItem);
    RestockFromSlots(RestockState(backpack, container, 0), maxStacks, 0);
    var r := Restocked(backpack, container, maxStacks);
    TotalGrows(backpack, r.backpack);
  }

  /** A slot array whose counts only grow has a total that only grows. */
  lemma {:induction false} TotalGrows(a: seq<ItemStack>, b: seq<ItemStack>)
    requires |a| == |b|
    requires forall k :: 0 <= k < |a| ==> a[k].count <= b[k].count
    ensures Total(a) <= Total(b)
  {
    if a != [] {
      TotalGrows(a[1..], b[1..]);
    }
  }

  /**
   * Restock fills only non-empty backpack stacks of a known item class that
   * are below their max stack, never beyond it, and leaves every other
   * backpack slot as it was. Container slots are only drawn from, and a
   * drained one becomes the empty stack.
   */
  lemma RestockSlots(backpack: seq<ItemStack>, container: seq<ItemStack>, maxStacks: map<ItemType, int>)
    ensures var r := Restocked(backpack, container, maxStacks);
      && |r.backpack| == |backpack| && |r.container| == |container|
      && (forall k :: 0 <= k < |backpack| ==>
            && r.backpack[k].itemType == backpack[k].itemType
            && r.backpack[k].count >= backpack[k].count
            && (!Fillable(backpack[k], maxStacks) ==> r.backpack[k] == backpack[k])
            && (Fillable(backpack[k], maxStacks) ==> r.backpack[k].count <= maxStacks[backpack[k].itemType]))
      && (forall k :: 0 <= k < |container| ==> Reduced(container[k], r.container[k]))
      && (forall k :: 0 <= k < |container| && r.container[k] != container[k] ==>
            exists b :: 0 <= b < |backpack| && Fillable(backpack[b], maxStacks)
                        && backpack[b].itemType == container[k].itemType)
  {
    RestockFromSlots(RestockState(backpack, container, 0), maxStacks, 0);
    RestockFromDrawsFilledTypes(RestockState(backpack, container, 0), maxStacks, 0);
  }

  /** Each stack Restock tries to fill ends full, or no stack of its type is left in the container. */
  lemma RestockFillsGreedily(backpack: seq<ItemStack>, container: seq<ItemStack>, maxStacks: map<ItemType, int>)
    ensures var r := Restocked(backpack, container, maxStacks);
      |r.backpack| == |backpack| &&
      forall k :: 0 <= k < |backpack| && Fillable(backpack[k], maxStacks) ==>
        r.backpack[k].count == maxStacks[backpack[k].itemType]
        || !HasMatch(r.container, backpack[k].itemType)
  {
    RestockFromGreedy(RestockState(backpack, container, 0), maxStacks, 0);
  }

  // ===================================================== host-side merging

  /**
   * A slot that receives units by merging: it stays, or a non-empty stack
   * keeps its type and grows.
   */
  predicate Grown(before: ItemStack, after: ItemStack) {
    after == before
    || (!IsEmpty(before) && after.itemType == before.itemType && after.count > before.count)
  }

  /**
   * What TryStackItem(0, stack) hands back: the container's slots afterwards,
   * the count left in the stack, and its anyMoved flag.
   */
  datatype StackAttempt = StackAttempt(items: seq<ItemStack>, left: int, anyMoved: bool)

  /**
   * The behaviour assumed of TryStackItem for a non-empty stack s: it merges
   * units of s into existing non-empty stacks of the same type only, anyMoved
   * says whether any unit moved, and every unit that left s is in the container.
   */
  predicate StackAttemptOk(items: seq<ItemStack>, s: ItemStack, r: StackAttempt) {
    && |r.items| == |items|
    && 0 <= r.left <= s.count
    && (r.anyMoved <==> r.left < s.count)
    && (!r.anyMoved ==> r.items == items)
    && (forall k :: 0 <= k < |items| ==>
          Grown(items[k], r.items[k]) && (r.items[k] != items[k] ==> items[k].itemType == s.itemType))
    && Units(r.items, s.itemType) == Units(items, s.itemType) + (s.count - r.left)
  }

  ghost predicate TryStackContract(tryStack: (seq<ItemStack>, ItemStack) -> StackAttempt) {
    forall items, s :: !IsEmpty(s) ==> StackAttemptOk(items, s, tryStack(items, s))
  }

  /**
   * The behaviour assumed of AddItem for a non-empty stack s: on success
   * (Some) every unit of s is in the slots afterwards and nothing else changed
   * in amount; on failure (None) nothing was added.
   */
  ghost predicate AddOk(items: seq<ItemStack>, s: ItemStack, r: Option<seq<ItemStack>>) {
    r.Some? ==> |r.value| == |items| && forall t :: Units(r.value, t) == Units(items, t) + Contrib(s, t)
  }

  ghost predicate AddContract(add: (seq<ItemStack>, ItemStack) -> Option<seq<ItemStack>>) {
    forall items, s :: !IsEmpty(s) ==> AddOk(items, s, add(items, s))
  }

  /** The slot left behind by a stack s of which `left` units remain. */
  function Remainder(s: ItemStack, left: int): ItemStack {
    if left == 0 then Empty else s.(count := left)
  }

  /** Taking all but `left` units out of a non-empty stack moves count - left units of its type. */
  lemma RemainderUnits(s: ItemStack, left: int, t: ItemType)
    requires !IsEmpty(s) && 0 <= left < s.count
    ensures Contrib(s, t) - Contrib(Remainder(s, left), t) == (if t == s.itemType then s.count - left else 0)
    ensures Reduced(s, Remainder(s, left))
  {
  }

  /** A merge by TryStackItem changes the container's units of the deposited type only, by the units deposited. */
  lemma StackAttemptUnits(items: seq<ItemStack>, s: ItemStack, r: StackAttempt, t: ItemType)
    requires StackAttemptOk(items, s, r)
    ensures Units(r.items, t) == Units(items, t) + (if t == s.itemType then s.count - r.left else 0)
  {
    if t != s.itemType {
      UnitsOtherTypes(r.items, items, s.itemType, t);
    }
  }

  // ============================================================= QuickStack

  /**
   * QuickStack: each non-empty backpack stack is offered to TryStackItem once,
   * and only when the container holds a non-empty stack of its type; a stack
   * left with no units becomes the empty stack.
   */
  method QuickStack(backpack: array?<ItemStack>, container: array?<ItemStack>,
                    tryStack: (seq<ItemStack>, ItemStack) -> StackAttempt)
    returns (moved: int)
    requires backpack == null || backpack != container
    requires TryStackContract(tryStack)
    modifies backpack, container
    ensures backpack == null || container == null ==> moved == 0
    ensures backpack != null ==> container == null ==> backpack[..] == old(backpack[..])
    ensures container != null ==> backpack == null ==> container[..] == old(container[..])
    ensures backpack != null && container != null ==>
      && moved >= 0
      && moved == Total(old(backpack[..])) - Total(backpack[..])
      && (forall t :: Units(backpack[..], t) + Units(container[..], t)
                      == Units(old(backpack[..]), t) + Units(old(container[..]), t))
      && (forall k :: 0 <= k < backpack.Length ==> Reduced(old(backpack[k]), backpack[k]))
      && (forall k :: 0 <= k < backpack.Length && !HasMatch(old(container[..]), old(backpack[k]).itemType) ==>
            backpack[k] == old(backpack[k]))
      && (forall k :: 0 <= k < container.Length ==> Grown(old(container[k]), container[k]))
  {
    moved := 0;
    if backpack == null || container == null {
      return;
    }
    ghost var backpack0, container0 := backpack[..], container[..];
    for i := 0 to backpack.Length
      invariant moved >= 0 && moved == Total(backpack0) - Total(backpack[..])
      invariant forall t :: Units(backpack[..], t) + Units(container[..], t) == Units(backpack0, t) + Units(container0, t)
      invariant forall k :: 0 <= k < backpack.Length ==> Reduced(backpack0[k], backpack[k])
      invariant forall k :: i <= k < backpack.Length ==> backpack[k] == backpack0[k]
      invariant forall k :: 0 <= k < backpack.Length && !HasMatch(container0, backpack0[k].itemType) ==>
                  backpack[k] == backpack0[k]
      invariant forall k :: 0 <= k < container.Length ==> Grown(container0[k], container[k])
    {
      var playerStack := backpack[i];
      if IsEmpty(playerStack) {
        continue;
      }
      ghost var backpackI, containerI, movedI := backpack[..], container[..], moved;
      assert moved == Total(backpack0) - Total(backpackI);
      assert forall t :: Units(backpackI, t) + Units(containerI, t) == Units(backpack0, t) + Units(container0, t);
      var j := 0;
      while j < container.Length
        invariant 0 <= j <= container.Length
        invariant backpack[..] == backpackI && container[..] == containerI && moved == movedI
      {
        var containerStack := container[j];
        if IsEmpty(containerStack) || containerStack.itemType != playerStack.itemType {
          j := j + 1;
          continue;
        }
        // Found a match: one deposit attempt, then stop scanning.
        assert Grown(container0[j], containerStack);
        assert HasMatch(container0, playerStack.itemType);
        var countBefore := playerStack.count;
        var result := tryStack(container[..], playerStack);
        assert StackAttemptOk(containerI, playerStack, result);
        forall k | 0 <= k < container.Length {
          container[k] := result.items[k];
        }
        assert container[..] == result.items;
        if result.anyMoved {
          moved := moved + (countBefore - result.left);
          backpack[i] := Remainder(playerStack, result.left);
          assert backpack[..] == backpackI[i := Remainder(playerStack, result.left)];
        } else {
          assert backpack[..] == backpackI && container[..] == containerI;
        }
        forall t
          ensures Units(backpack[..], t) + Units(container[..], t) == Units(backpack0, t) + Units(container0, t)
        {
          StackAttemptUnits(containerI, playerStack, result, t);
          if result.anyMoved {
            UnitsUpdate(backpackI, i, Remainder(playerStack, result.left), t);
            RemainderUnits(playerStack, result.left, t);
          }
        }
        if result.anyMoved {
          TotalUpdate(backpackI, i, Remainder(playerStack, result.left));
          RemainderUnits(playerStack, result.left, NoItem);
        }
        break;
      }
    }
  }

  // =============================================================== StashAll

  /**
   * StashAll: each non-empty backpack stack goes to TryStackItem; only when
   * that moved nothing is it handed whole to AddItem, and the slot is emptied
   * when AddItem succeeds. A stack merged only in part keeps its remainder.
   */
  method StashAll(backpack: array?<ItemStack>, container: array?<ItemStack>,
                  tryStack: (seq<ItemStack>, ItemStack) -> StackAttempt,
                  addItem: (seq<ItemStack>, ItemStack) -> Option<seq<ItemStack>>)
    returns (moved: int)
    requires backpack == null || backpack != container
    requires TryStackContract(tryStack) && AddContract(addItem)
    modifies backpack, container
    ensures backpack == null || container == null ==> moved == 0
    ensures backpack != null ==> container == null ==> backpack[..] == old(backpack[..])
    ensures container != null ==> backpack == null ==> container[..] == old(container[..])
    ensures backpack != null && container != null ==>
      && moved >= 0
      && moved == Total(old(backpack[..])) - Total(backpack[..])
      && (forall t :: Units(backpack[..], t) + Units(container[..], t)
                      == Units(old(backpack[..]), t) + Units(old(container[..]), t))
      && (forall k :: 0 <= k < backpack.Length ==> Reduced(old(backpack[k]), backpack[k]))
  {
    moved := 0;
    if backpack == null || container == null {
      return;
    }
    ghost var backpack0, container0 := backpack[..], container[..];
    for i := 0 to backpack.Length
      invariant moved >= 0 && moved == Total(backpack0) - Total(backpack[..])
      invariant forall t :: Units(backpack[..], t) + Units(container[..], t) == Units(backpack0, t) + Units(container0, t)
      invariant forall k :: 0 <= k < backpack.Length ==> Reduced(backpack0[k], backpack[k])
      invariant forall k :: i <= k < backpack.Length ==> backpack[k] == backpack0[k]
    {
      var playerStack := backpack[i];
      if IsEmpty(playerStack) {
        continue;
      }
      ghost var backpackI, containerI := backpack[..], container[..];
      assert moved == Total(backpack0) - Total(backpackI);
      assert forall t :: Units(backpackI, t) + Units(containerI, t) == Units(backpack0, t) + Units(container0, t);
      var countBefore := playerStack.count;
      var result := tryStack(container[..], playerStack);
      assert StackAttemptOk(containerI, playerStack, result);
      if result.anyMoved {
        forall k | 0 <= k < container.Length {
          container[k] := result.items[k];
        }
        assert container[..] == result.items;
        moved := moved + (countBefore - result.left);
        backpack[i] := Remainder(playerStack, result.left);
        assert backpack[..] == backpackI[i := Remainder(playerStack, result.left)];
        forall t
          ensures Units(backpack[..], t) + Units(container[..], t) == Units(backpack0, t) + Units(container0, t)
        {
          StackAttemptUnits(containerI, playerStack, result, t);
          UnitsUpdate(backpackI, i, Remainder(playerStack, result.left), t);
          RemainderUnits(playerStack, result.left, t);
        }
        TotalUpdate(backpackI, i, Remainder(playerStack, result.left));
        RemainderUnits(playerStack, result.left, NoItem);
      } else {
        var added := addItem(container[..], playerStack);
        assert AddOk(containerI, playerStack, added);
        if added.Some? {
          forall k | 0 <= k < container.Length {
            container[k] := added.value[k];
          }
          assert container[..] == added.value;
          moved := moved + countBefore;
          backpack[i] := Empty;
          assert backpack[..] == backpackI[i := Empty];
          forall t
            ensures Units(backpack[..], t) + Units(container[..], t) == Units(backpack0, t) + Units(container0, t)
          {
            UnitsUpdate(backpackI, i, Empty, t);
          }
          TotalUpdate(backpackI, i, Empty);
        }
      }
    }
  }

  // ================================================================ LootAll

  /**
   * LootAll: each non-empty container stack is handed to the player
   * inventory's AddItem, and the container slot is emptied only when that
   * succeeds.
   */
  method LootAll(backpack: array?<ItemStack>, container: array?<ItemStack>,
                 addItem: (seq<ItemStack>, ItemStack) -> Option<seq<ItemStack>>)
    returns (moved: int)
    requires backpack == null || backpack != container
    requires AddContract(addItem)
    modifies backpack, container
    ensures backpack == null || container == null ==> moved == 0
    ensures backpack != null ==> container == null ==> backpack[..] == old(backpack[..])
    ensures container != null ==> backpack == null ==> container[..] == old(container[..])
    ensures backpack != null && container != null ==>
      && moved >= 0
      && moved == Total(old(container[..])) - Total(container[..])
      && (forall t :: Units(backpack[..], t) + Units(container[..], t)
                      == Units(old(backpack[..]), t) + Units(old(container[..]), t))
      && (forall k :: 0 <= k < container.Length ==>
            container[k] == old(container[k]) || (!IsEmpty(old(container[k])) && container[k] == Empty))
  {
    moved := 0;
    if backpack == null || container == null {
      return;
    }
    ghost var backpack0, container0 := backpack[..], container[..];
    for i := 0 to container.Length
      invariant moved >= 0 && moved == Total(container0) - Total(container[..])
      invariant forall t :: Units(backpack[..], t) + Units(container[..], t) == Units(backpack0, t) + Units(container0, t)
      invariant forall k :: 0 <= k < container.Length ==>
                  container[k] == container0[k] || (!IsEmpty(container0[k]) && container[k] == Empty)
      invariant forall k :: i <= k < container.Length ==> container[k] == container0[k]
    {
      var containerStack := container[i];
      if IsEmpty(containerStack) {
        continue;
      }
      ghost var backpackI, containerI := backpack[..], container[..];
      assert moved == Total(container0) - Total(containerI);
      assert forall t :: Units(backpackI, t) + Units(containerI, t) == Units(backpack0, t) + Units(container0, t);
      var countBefore := containerStack.count;
      var added := addItem(backpack[..], containerStack);
      assert AddOk(backpackI, containerStack, added);
      if added.Some? {
        forall k | 0 <= k < backpack.Length {
          backpack[k] := added.value[k];
        }
        assert backpack[..] == added.value;
        moved := moved + countBefore;
        container[i] := Empty;
        assert container[..] == containerI[i := Empty];
        forall t
          ensures Units(backpack[..], t) + Units(container[..], t) == Units(backpack0, t) + Units(container0, t)
        {
          UnitsUpdate(containerI, i, Empty, t);
        }
        TotalUpdate(containerI, i, Empty);
      }
    }
  }
}
