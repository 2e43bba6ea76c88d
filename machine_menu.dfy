/**
 * The machine menu: the machine's item-handler slots followed by the 36
 * player-inventory slots (main inventory, then hotbar), and shift-click
 * routing between them. Moving a stack into a range of slots is the game's
 * `moveItemStackTo`, passed in as a function that reports success and
 * returns what is left of the stack and the menu's stacks afterwards.
 */
module MachineMenu {
  import opened Wrappers
  import opened ItemStacks

  /** `Inventory.INVENTORY_SIZE`. */
  const INVENTORY_SIZE: int := 36
  const HOTBAR_SIZE: int := 9

  /** Where a menu slot's stack lives. */
  datatype SlotRef = HandlerSlot(index: nat) | InventorySlot(index: nat)

  /** What the level holds at the menu's position. */
  datatype BlockEntityAt = MachineEntity(items: seq<ItemStack>, inputSlots: nat) | OtherEntity

  datatype MenuError = IllegalArgument(message: string)

  /** A request to `moveItemStackTo`: the slot range [start, end) and the direction. */
  datatype MoveCall = MoveCall(start: int, end: int, reverse: bool)

  /**
   * What `moveItemStackTo` reports, what is left of the moved stack, and
   * the stack each menu slot holds afterwards.
   */
  datatype Moved = Moved(success: bool, rest: ItemStack, items: seq<ItemStack>)

  /** `moveItemStackTo` applied to the menu's stacks, the stack to move and the range. */
  type Mover = (seq<ItemStack>, ItemStack, MoveCall) -> Moved

  /** How many of item `it` a stack holds. */
  function Amount(s: ItemStack, it: Item): (n: int)
    ensures n >= 0
    ensures n > 0 <==> !IsEmpty(s) && s.item == it
  {
    if !IsEmpty(s) && s.item == it then s.count else 0
  }

  /** How many of item `it` a sequence of stacks holds in all. */
  function Total(items: seq<ItemStack>, it: Item): (n: int)
    ensures n >= 0
  {
    if |items| == 0 then 0 else Amount(items[0], it) + Total(items[1..], it)
  }

  /** The stacks with slot `index` holding `s`. */
  function Placed(items: seq<ItemStack>, index: int, s: ItemStack): seq<ItemStack>
    requires 0 <= index < |items|
  {
    items[index := s]
  }

  /** Replacing one stack changes the total by the difference of the two amounts. */
  lemma {:induction false} TotalUpdate(items: seq<ItemStack>, i: int, x: ItemStack, it: Item)
    requires 0 <= i < |items|
    ensures Total(items[i := x], it) == Total(items, it) - Amount(items[i], it) + Amount(x, it)
  {
    if i == 0 {
      assert items[i := x][1..] == items[1..];
    } else {
      TotalUpdate(items[1..], i - 1, x, it);
      assert items[i := x][1..] == items[1..][i - 1 := x];
    }
  }

  predicate InRange(c: MoveCall, k: int) {
    c.start <= k < c.end
  }

  /**
   * The guarantee for a move whose range does not hold the moved stack's own
   * slot: only slots in the range change; a failed move changes nothing; a
   * successful one took at least one item and never changes the item; and
   * every item taken from the stack is now in the slots.
   */
  ghost predicate HonestMove(items: seq<ItemStack>, s: ItemStack, c: MoveCall, m: Moved) {
    && |m.items| == |items|
    && (forall k :: 0 <= k < |items| && !InRange(c, k) ==> m.items[k] == items[k])
    && m.rest.item == s.item
    && (m.success ==> 0 <= m.rest.count < s.count)
    && (!m.success ==> m.rest == s && m.items == items)
    && (forall it :: Total(m.items, it) + Amount(m.rest, it) == Total(items, it) + Amount(s, it))
  }

  /**
   * The game's guarantee for `moveItemStackTo` when a shift-click on slot
   * `index` calls it: the menu keeps its size, an empty stack never moves,
   * and a range without slot `index` is an honest move. A range holding
   * slot `index` moves the slot's own stack onto itself, which is left
   * unconstrained.
   */
  ghost predicate WellBehaved(move: Mover, index: int) {
    forall items: seq<ItemStack>, s: ItemStack, c: MoveCall ::
      && |move(items, s, c).items| == |items|
      && (IsEmpty(s) ==> move(items, s, c) == Moved(false, s, items))
      && (!InRange(c, index) ==> HonestMove(items, s, c, move(items, s, c)))
  }

  /** From a machine slot to the whole player inventory, last slot first. */
  function ToPlayer(slotCount: int): MoveCall {
    MoveCall(slotCount, INVENTORY_SIZE + slotCount, true)
  }

  /** Into the machine's input slots. */
  function ToInputs(inputSlots: int): MoveCall {
    MoveCall(0, inputSlots, false)
  }

  /** Into the hotbar, the last nine menu slots. */
  function ToHotbar(slotCount: int): MoveCall {
    MoveCall(INVENTORY_SIZE - HOTBAR_SIZE + slotCount, INVENTORY_SIZE + slotCount, false)
  }

  /** Into the main inventory, the 27 slots after the machine's. */
  function ToMain(slotCount: int): MoveCall {
    MoveCall(slotCount, INVENTORY_SIZE - HOTBAR_SIZE + slotCount, false)
  }

  /**
   * The input-slot move of a player slot never targets the slot itself: the
   * input slots are machine slots, or at least lie below the clicked one.
   */
  predicate InputsExclude(slotCount: int, inputSlots: int, index: int) {
    index < slotCount || inputSlots <= index
  }

  /** What happens to the clicked slot afterwards. */
  datatype SlotEffect = Untouched | SetEmpty | MarkedChanged

  /**
   * The outcome of a shift-click: the stack returned, the clicked stack
   * after the moves, every menu slot's stack afterwards, what was done to
   * the clicked slot, the moves asked for, and whether `onTake` ran.
   */
  datatype QuickMove = QuickMove(result: ItemStack, stack: ItemStack, items: seq<ItemStack>, effect: SlotEffect, calls: seq<MoveCall>, taken: bool)

  /** An early `return ItemStack.EMPTY`: the slot keeps the stack the moves left. */
  function Abort(index: int, items: seq<ItemStack>, stack: ItemStack, calls: seq<MoveCall>): QuickMove
    requires 0 <= index < |items|
  {
    QuickMove(EMPTY, stack, items[index := stack], Untouched, calls, false)
  }

  /**
   * The end of a shift-click: a drained slot is set to EMPTY, otherwise
   * marked changed; the copy of the original is returned only if the count
   * changed.
   */
  function Settle(index: int, original: ItemStack, items: seq<ItemStack>, stack: ItemStack, calls: seq<MoveCall>): QuickMove
    requires 0 <= index < |items|
  {
    var effect := if IsEmpty(stack) then SetEmpty else MarkedChanged;
    var slots := items[index := if IsEmpty(stack) then EMPTY else stack];
    if stack.count == original.count then QuickMove(EMPTY, stack, slots, effect, calls, false)
    else QuickMove(original, stack, slots, effect, calls, true)
  }

  /**
   * The routing after the machine-slot step: into the input slots, and if
   * that fails, a main-inventory slot goes to the hotbar and a hotbar slot
   * to the main inventory.
   */
  function Route(slotCount: int, inputSlots: int, index: int, original: ItemStack, items: seq<ItemStack>, stack: ItemStack, calls: seq<MoveCall>, move: Mover): QuickMove
    requires 0 <= index < |items| && WellBehaved(move, index)
  {
    var m := move(items, stack, ToInputs(inputSlots));
    var calls' := calls + [ToInputs(inputSlots)];
    if m.success then Settle(index, original, m.items, m.rest, calls')
    else if index < INVENTORY_SIZE - HOTBAR_SIZE + slotCount then
      var h := move(m.items, m.rest, ToHotbar(slotCount));
      if h.success then Settle(index, original, h.items, h.rest, calls' + [ToHotbar(slotCount)])
      else Abort(index, h.items, h.rest, calls' + [ToHotbar(slotCount)])
    else if index < INVENTORY_SIZE + slotCount then
      var p := move(m.items, m.rest, ToMain(slotCount));
      if p.success then Settle(index, original, p.items, p.rest, calls' + [ToMain(slotCount)])
      else Abort(index, p.items, p.rest, calls' + [ToMain(slotCount)])
    else Settle(index, original, m.items, m.rest, calls')
  }

  /**
   * `quickMoveStack` as written: after a machine slot's stack has gone to
   * the player inventory, the input-slot move and the routing that follows
   * it are still attempted. The result is EMPTY or the clicked stack, a
   * drained slot is set to EMPTY and a shrunk one keeps what is left; a
   * click that reaches the end returns EMPTY exactly when the count did not
   * change.
   */
  function QuickMoveAsWritten(slotCount: int, inputSlots: int, index: int, items: seq<ItemStack>, move: Mover): (q: QuickMove)
    requires 0 <= index < |items| && WellBehaved(move, index)
    ensures |q.items| == |items|
    ensures q.result == EMPTY || q.result == items[index]
    ensures q.taken <==> q.result != EMPTY
    ensures q.effect == SetEmpty ==> IsEmpty(q.stack) && q.items[index] == EMPTY
    ensures q.effect != SetEmpty ==> q.items[index] == q.stack
    ensures q.effect == MarkedChanged ==> !IsEmpty(q.stack)
    ensures q.effect != Untouched ==> (q.result == EMPTY <==> q.stack.count == items[index].count)
  {
    var item := items[index];
    if IsEmpty(item) then QuickMove(EMPTY, item, items, Untouched, [], false)
    else if index < slotCount then
      var m := move(items, item, ToPlayer(slotCount));
      if !m.success then Abort(index, m.items, m.rest, [ToPlayer(slotCount)])
      else Route(slotCount, inputSlots, index, item, m.items, m.rest, [ToPlayer(slotCount)], move)
    else Route(slotCount, inputSlots, index, item, items, item, [], move)
  }

  /**
   * `quickMoveStack` with the machine-slot branch and the input-slot
   * routing as alternatives: a machine slot only goes to the player
   * inventory. The same outcome guarantees as written hold.
   */
  function QuickMoveCorrected(slotCount: int, inputSlots: int, index: int, items: seq<ItemStack>, move: Mover): (q: QuickMove)
    requires 0 <= index < |items| && WellBehaved(move, index)
    ensures |q.items| == |items|
    ensures q.result == EMPTY || q.result == items[index]
    ensures q.taken <==> q.result != EMPTY
    ensures q.effect == SetEmpty ==> IsEmpty(q.stack) && q.items[index] == EMPTY
    ensures q.effect != SetEmpty ==> q.items[index] == q.stack
    ensures q.effect == MarkedChanged ==> !IsEmpty(q.stack)
    ensures q.effect != Untouched ==> (q.result == EMPTY <==> q.stack.count == items[index].count)
  {
    var item := items[index];
    if IsEmpty(item) then QuickMove(EMPTY, item, items, Untouched, [], false)
    else if index < slotCount then
      var m := move(items, item, ToPlayer(slotCount));
      if !m.success then Abort(index, m.items, m.rest, [ToPlayer(slotCount)])
      else Settle(index, item, m.items, m.rest, [ToPlayer(slotCount)])
    else Route(slotCount, inputSlots, index, item, items, item, [], move)
  }

  /** An empty slot returns EMPTY, asks for no move and changes nothing. */
  lemma EmptySlotDoesNothing(slotCount: int, inputSlots: int, index: int, items: seq<ItemStack>, move: Mover)
    requires 0 <= index < |items| && WellBehaved(move, index)
    requires IsEmpty(items[index])
    ensures QuickMoveAsWritten(slotCount, inputSlots, index, items, move) == QuickMove(EMPTY, items[index], items, Untouched, [], false)
    ensures QuickMoveCorrected(slotCount, inputSlots, index, items, move) == QuickMove(EMPTY, items[index], items, Untouched, [], false)
  {
  }

  /**
   * A machine slot first tries the player inventory, last slot first; when
   * that fails, EMPTY is returned and no slot changes. When it succeeds, the
   * source goes on to try the input slots.
   */
  lemma MachineSlotGoesToPlayerFirst(slotCount: int, inputSlots: int, index: int, items: seq<ItemStack>, move: Mover)
    requires 0 <= index < |items| && WellBehaved(move, index)
    requires !IsEmpty(items[index]) && index < slotCount
    ensures var q := QuickMoveAsWritten(slotCount, inputSlots, index, items, move);
      var m := move(items, items[index], ToPlayer(slotCount));
      && |q.calls| >= 1 && q.calls[0] == ToPlayer(slotCount)
      && (!m.success ==> q.result == EMPTY && q.items == items)
      && (m.success ==> |q.calls| >= 2 && q.calls[1] == ToInputs(inputSlots))
  {
  }

  /**
   * A player slot tries the input slots first; if that fails, a main
   * inventory slot tries the hotbar and a hotbar slot the main inventory,
   * and a failure there returns EMPTY with every slot as it was.
   */
  lemma PlayerSlotRouting(slotCount: int, inputSlots: int, index: int, items: seq<ItemStack>, move: Mover)
    requires 0 <= index < |items| && WellBehaved(move, index)
    requires !IsEmpty(items[index]) && slotCount <= index < INVENTORY_SIZE + slotCount
    ensures var q := QuickMoveAsWritten(slotCount, inputSlots, index, items, move);
      var target := if index < INVENTORY_SIZE - HOTBAR_SIZE + slotCount then ToHotbar(slotCount) else ToMain(slotCount);
      var m := move(items, items[index], ToInputs(inputSlots));
      && q == QuickMoveCorrected(slotCount, inputSlots, index, items, move)
      && q.calls[0] == ToInputs(inputSlots)
      && (m.success ==> |q.calls| == 1)
      && (!m.success ==> q.calls == [ToInputs(inputSlots), target])
      && (inputSlots <= index && !m.success && !move(items, items[index], target).success ==> q.result == EMPTY && q.items == items)
  {
  }

  /**
   * The source as written: when a machine slot's whole stack fits into the
   * player inventory, the drained stack then fails the input-slot and hotbar
   * moves, and the click returns EMPTY, skips `onTake`, and leaves the
   * drained stack in the slot instead of setting it to EMPTY, although every
   * item moved.
   */
  lemma {:induction false} AsWrittenDrainedMachineSlotReportsNothing(slotCount: int, inputSlots: int, index: int, items: seq<ItemStack>, move: Mover)
    requires 0 <= index < |items| && WellBehaved(move, index)
    requires !IsEmpty(items[index]) && index < slotCount
    requires move(items, items[index], ToPlayer(slotCount)).success && move(items, items[index], ToPlayer(slotCount)).rest.count == 0
    ensures var q := QuickMoveAsWritten(slotCount, inputSlots, index, items, move);
      var m := move(items, items[index], ToPlayer(slotCount));
      q.result == EMPTY && !q.taken && q.effect == Untouched && q.items == m.items[index := m.rest] && q.stack.count == 0 < items[index].count
  {
    var m := move(items, items[index], ToPlayer(slotCount));
    assert IsEmpty(m.rest);
    assert move(m.items, m.rest, ToInputs(inputSlots)) == Moved(false, m.rest, m.items);
    assert move(m.items, m.rest, ToHotbar(slotCount)) == Moved(false, m.rest, m.items);
  }

  /**
   * The source as written: a machine input slot whose stack only partly
   * fits into the player inventory is then moved into the input slots,
   * a range that holds the slot itself.
   */
  lemma AsWrittenMovesInputSlotIntoItsOwnRange(slotCount: int, inputSlots: int, index: int, items: seq<ItemStack>, move: Mover)
    requires 0 <= index < |items| && WellBehaved(move, index)
    requires !IsEmpty(items[index]) && index < slotCount && index < inputSlots
    requires move(items, items[index], ToPlayer(slotCount)).success && !IsEmpty(move(items, items[index], ToPlayer(slotCount)).rest)
    ensures var q := QuickMoveAsWritten(slotCount, inputSlots, index, items, move);
      |q.calls| >= 2 && q.calls[1] == ToInputs(inputSlots) && InRange(q.calls[1], index)
  {
  }

  /** A mover that puts a whole stack into the last slot of the range when that slot is empty. */
  function IntoLastSlot(): Mover {
    (items: seq<ItemStack>, s: ItemStack, c: MoveCall) =>
      if !IsEmpty(s) && 0 <= c.start < c.end <= |items| && IsEmpty(items[c.end - 1])
      then Moved(true, s.(count := 0), items[c.end - 1 := s])
      else Moved(false, s, items)
  }

  lemma IntoLastSlotWellBehaved(index: int)
    ensures WellBehaved(IntoLastSlot(), index)
  {
    forall items: seq<ItemStack>, s: ItemStack, c: MoveCall
      ensures !InRange(c, index) ==> HonestMove(items, s, c, IntoLastSlot()(items, s, c))
    {
      if !IsEmpty(s) && 0 <= c.start < c.end <= |items| && IsEmpty(items[c.end - 1]) {
        forall it: Item
          ensures Total(items[c.end - 1 := s], it) + Amount(s.(count := 0), it) == Total(items, it) + Amount(s, it)
        {
          TotalUpdate(items, c.end - 1, s, it);
        }
      }
    }
  }

  /**
   * The concrete case: a one-slot machine holding five items of item 5,
   * shift-clicked with the player inventory empty, moves all five into the
   * last inventory slot; as written the click returns EMPTY and leaves the
   * drained stack in the slot, once corrected it returns the original
   * stack and empties the slot.
   */
  lemma {:induction false} DrainedMachineSlotExample()
    ensures WellBehaved(IntoLastSlot(), 0)
    ensures var q := QuickMoveAsWritten(1, 1, 0, [ItemStack(5, 5)] + seq(INVENTORY_SIZE, _ => EMPTY), IntoLastSlot());
      q.result == EMPTY && q.items[0] == ItemStack(5, 0) && q.items[36] == ItemStack(5, 5)
    ensures var q := QuickMoveCorrected(1, 1, 0, [ItemStack(5, 5)] + seq(INVENTORY_SIZE, _ => EMPTY), IntoLastSlot());
      q.result == ItemStack(5, 5) && q.items[0] == EMPTY && q.items[36] == ItemStack(5, 5)
  {
    var items := [ItemStack(5, 5)] + seq(INVENTORY_SIZE, _ => EMPTY);
    IntoLastSlotWellBehaved(0);
    assert IsEmpty(items[36]);
    AsWrittenDrainedMachineSlotReportsNothing(1, 1, 0, items, IntoLastSlot());
  }

  /**
   * Corrected routing: the click returns the original stack exactly when
   * some of it was moved, and EMPTY exactly when none was.
   */
  lemma {:induction false} CorrectedReportsMove(slotCount: int, inputSlots: int, index: int, items: seq<ItemStack>, move: Mover)
    requires 0 <= index < |items| && WellBehaved(move, index)
    requires InputsExclude(slotCount, inputSlots, index)
    ensures var q := QuickMoveCorrected(slotCount, inputSlots, index, items, move);
      q.result == (if q.stack.count < items[index].count then items[index] else EMPTY)
  {
    var item := items[index];
    if !IsEmpty(item) && index >= slotCount {
      var m := move(items, item, ToInputs(inputSlots));
      assert !InRange(ToInputs(inputSlots), index);
      if !m.success {
        assert m.rest == item;
      }
    }
  }

  /**
   * The source as written still keeps every item's total when the input
   * slots lie below the clicked slot: then no move targets the clicked
   * slot, whether it is a machine slot or a player slot.
   */
  lemma {:induction false} AsWrittenConserves(slotCount: int, inputSlots: int, index: int, items: seq<ItemStack>, move: Mover)
    requires 0 <= index < |items| && WellBehaved(move, index)
    requires inputSlots <= index
    ensures var q := QuickMoveAsWritten(slotCount, inputSlots, index, items, move);
      forall it :: Total(q.items, it) == Total(items, it)
  {
    var item := items[index];
    if IsEmpty(item) {
      return;
    }
    assert Placed(items, index, item) == items;
    // The stacks and the clicked stack before the input-slot routing.
    var start, stack := items, item;
    if index < slotCount {
      var p := move(items, item, ToPlayer(slotCount));
      HonestStep(items, item, ToPlayer(slotCount), p, index);
      if !p.success {
        EmptyingKeepsTotals(p.items, index, p.rest);
        return;
      }
      start, stack := p.items, p.rest;
    }
    var m := move(start, stack, ToInputs(inputSlots));
    HonestStep(start, stack, ToInputs(inputSlots), m, index);
    var last := m;
    if !m.success {
      if index < INVENTORY_SIZE - HOTBAR_SIZE + slotCount {
        last := move(m.items, m.rest, ToHotbar(slotCount));
        HonestStep(m.items, m.rest, ToHotbar(slotCount), last, index);
      } else if index < INVENTORY_SIZE + slotCount {
        last := move(m.items, m.rest, ToMain(slotCount));
        HonestStep(m.items, m.rest, ToMain(slotCount), last, index);
      }
    }
    EmptyingKeepsTotals(last.items, index, last.rest);
  }

  /** One honest move keeps the clicked slot and, counting its stack there, every item's total. */
  lemma HonestStep(items: seq<ItemStack>, s: ItemStack, c: MoveCall, m: Moved, index: int)
    requires 0 <= index < |items| && !InRange(c, index) && HonestMove(items, s, c, m)
    ensures m.items[index] == items[index]
    ensures forall it :: Total(Placed(m.items, index, m.rest), it) == Total(Placed(items, index, s), it)
  {
    forall it: Item
      ensures Total(Placed(m.items, index, m.rest), it) == Total(Placed(items, index, s), it)
    {
      TotalUpdate(m.items, index, m.rest, it);
      TotalUpdate(items, index, s, it);
    }
  }

  /** Setting a drained slot to EMPTY changes no total. */
  lemma EmptyingKeepsTotals(items: seq<ItemStack>, index: int, s: ItemStack)
    requires 0 <= index < |items|
    ensures forall it :: Total(Placed(items, index, if IsEmpty(s) then EMPTY else s), it) == Total(Placed(items, index, s), it)
  {
    forall it: Item
      ensures Total(Placed(items, index, if IsEmpty(s) then EMPTY else s), it) == Total(Placed(items, index, s), it)
    {
      TotalUpdate(items, index, s, it);
      TotalUpdate(items, index, if IsEmpty(s) then EMPTY else s, it);
    }
  }

  /**
   * Corrected routing never moves a stack into a range holding its own
   * slot, loses or makes no item, and changes no slot outside the clicked
   * one and the ranges it moved into.
   */
  lemma {:induction false} CorrectedConserves(slotCount: int, inputSlots: int, index: int, items: seq<ItemStack>, move: Mover)
    requires 0 <= index < |items| && WellBehaved(move, index)
    requires InputsExclude(slotCount, inputSlots, index)
    ensures var q := QuickMoveCorrected(slotCount, inputSlots, index, items, move);
      && (forall j :: 0 <= j < |q.calls| ==> !InRange(q.calls[j], index))
      && (forall it :: Total(q.items, it) == Total(items, it))
      && (forall k :: 0 <= k < |items| && k != index && (forall j :: 0 <= j < |q.calls| ==> !InRange(q.calls[j], k)) ==> q.items[k] == items[k])
  {
    var q := QuickMoveCorrected(slotCount, inputSlots, index, items, move);
    var item := items[index];
    if IsEmpty(item) {
      return;
    }
    assert Placed(items, index, item) == items;
    // The last move made, and the moves made before it.
    var last: Moved;
    var before: seq<MoveCall>;
    if index < slotCount {
      last := move(items, item, ToPlayer(slotCount));
      before := [];
      HonestStep(items, item, ToPlayer(slotCount), last, index);
    } else {
      var m := move(items, item, ToInputs(inputSlots));
      HonestStep(items, item, ToInputs(inputSlots), m, index);
      last, before := m, [];
      if !m.success {
        if index < INVENTORY_SIZE - HOTBAR_SIZE + slotCount {
          last, before := move(m.items, m.rest, ToHotbar(slotCount)), [ToInputs(inputSlots)];
          HonestStep(m.items, m.rest, ToHotbar(slotCount), last, index);
        } else if index < INVENTORY_SIZE + slotCount {
          last, before := move(m.items, m.rest, ToMain(slotCount)), [ToInputs(inputSlots)];
          HonestStep(m.items, m.rest, ToMain(slotCount), last, index);
        }
      }
    }
    assert q.calls == before + [q.calls[|q.calls| - 1]];
    assert q.items == Placed(last.items, index, last.rest) || q.items == Placed(last.items, index, if IsEmpty(last.rest) then EMPTY else last.rest);
    EmptyingKeepsTotals(last.items, index, last.rest);
    forall k | 0 <= k < |items| && k != index && (forall j :: 0 <= j < |q.calls| ==> !InRange(q.calls[j], k))
      ensures q.items[k] == items[k]
    {
      assert !InRange(q.calls[0], k) && !InRange(q.calls[|q.calls| - 1], k);
    }
  }

  class MachineContainerMenu {
    /** `itemStackHandler.getSlots()`. */
    const slotCount: nat
    /** `items.getInputSlots()` of the machine. */
    const inputSlots: nat
    /** The menu's slots, in index order. */
    var slots: seq<SlotRef>
    /** The stack each slot shows. */
    var items: seq<ItemStack>

    ghost predicate Valid()
      reads this
    {
      |slots| == |items| == slotCount + INVENTORY_SIZE
    }

    /**
     * The slot-creating part of the constructor: one slot per handler slot,
     * in order, then the player inventory.
     */
    constructor (handler: seq<ItemStack>, inputSlots: nat, inventory: seq<ItemStack>)
      requires |inventory| == INVENTORY_SIZE
      ensures Valid()
      ensures slotCount == |handler| && this.inputSlots == inputSlots
      ensures forall i :: 0 <= i < |handler| ==> slots[i] == HandlerSlot(i) && items[i] == handler[i]
      ensures slots[|handler|..] == PlayerLayout()
      ensures forall k :: 0 <= k < INVENTORY_SIZE ==> items[|handler| + k] == inventory[PlayerLayout()[k].index]
    {
      slotCount := |handler|;
      this.inputSlots := inputSlots;
      var s: seq<SlotRef> := [];
      var shown: seq<ItemStack> := [];
      var index := 0;
      while index < |handler|
        invariant 0 <= index <= |handler|
        invariant |s| == |shown| == index
        invariant forall i :: 0 <= i < index ==> s[i] == HandlerSlot(i) && shown[i] == handler[i]
      {
        s := s + [HandlerSlot(index)];
        shown := shown + [handler[index]];
        index := index + 1;
      }
      var layout := PlayerLayout();
      slots := s + layout;
      items := shown + seq(INVENTORY_SIZE, k requires 0 <= k < INVENTORY_SIZE => inventory[layout[k].index]);
    }

    /**
     * `quickMoveStack` with the corrected routing: the menu ends up as the
     * corrected routing leaves it, and when the input slots do not hold the
     * clicked one, no item is lost or made.
     */
    method QuickMoveStack(index: nat, move: Mover) returns (r: ItemStack)
      requires Valid() && index < |slots|
      requires WellBehaved(move, index)
      modifies this
      ensures Valid() && slots == old(slots)
      ensures var q := QuickMoveCorrected(slotCount, inputSlots, index, old(items), move);
        r == q.result && items == q.items
      ensures InputsExclude(slotCount, inputSlots, index) ==> forall it :: Total(items, it) == Total(old(items), it)
    {
      if InputsExclude(slotCount, inputSlots, index) {
        CorrectedConserves(slotCount, inputSlots, index, items, move);
      }
      r := EMPTY;
      var stack := items[index];
      if !IsEmpty(stack) {
        var original := Copy(stack);
        var shown := items;
        if index < slotCount {
          var m := move(shown, stack, ToPlayer(slotCount));
          shown, stack := m.items, m.rest;
          if !m.success {
            items := shown[index := stack];
            return EMPTY;
          }
        } else {
          var m := move(shown, stack, ToInputs(inputSlots));
          shown, stack := m.items, m.rest;
          if !m.success {
            if index < INVENTORY_SIZE - HOTBAR_SIZE + slotCount {
              var h := move(shown, stack, ToHotbar(slotCount));
              shown, stack := h.items, h.rest;
              if !h.success {
                items := shown[index := stack];
                return EMPTY;
              }
            } else if index < INVENTORY_SIZE + slotCount {
              var p := move(shown, stack, ToMain(slotCount));
              shown, stack := p.items, p.rest;
              if !p.success {
                items := shown[index := stack];
                return EMPTY;
              }
            }
          }
        }
        items := shown[index := if IsEmpty(stack) then EMPTY else stack];
        if stack.count != original.count {
          r := original;
        }
      }
    }
  }

  /**
   * `Utils.layoutPlayerInventorySlots`: inventory slots 9 to 35 (main
   * inventory), then 0 to 8 (hotbar).
   */
  function PlayerLayout(): (layout: seq<SlotRef>)
    ensures |layout| == INVENTORY_SIZE
    ensures forall k :: 0 <= k < INVENTORY_SIZE ==> layout[k].InventorySlot? && layout[k].index < INVENTORY_SIZE
  {
    seq(INVENTORY_SIZE - HOTBAR_SIZE, k requires 0 <= k < INVENTORY_SIZE - HOTBAR_SIZE => InventorySlot(HOTBAR_SIZE + k))
      + seq(HOTBAR_SIZE, k requires 0 <= k < HOTBAR_SIZE => InventorySlot(k))
  }

  /**
   * The constructor: a machine block entity gives a menu whose handler is
   * the machine's own on the server and a blank one of the same size on the
   * client; anything else is an IllegalArgumentException.
   */
  method Open(be: BlockEntityAt, isClientSide: bool, inventory: seq<ItemStack>) returns (r: Result<MachineContainerMenu, MenuError>)
    requires |inventory| == INVENTORY_SIZE
    ensures r.Err? <==> be.OtherEntity?
    ensures r.Err? ==> r.error == IllegalArgument("BlockEntity is not instanceof MachineBlockEntity")
    ensures r.Ok? ==> fresh(r.value) && r.value.Valid()
    ensures r.Ok? ==> r.value.slotCount == |be.items| && r.value.inputSlots == be.inputSlots
    ensures r.Ok? ==> forall i :: 0 <= i < |be.items| ==> r.value.slots[i] == HandlerSlot(i)
    ensures r.Ok? ==> r.value.items[..|be.items|] == if isClientSide then seq(|be.items|, _ => EMPTY) else be.items
  {
    if be.OtherEntity? {
      return Err(IllegalArgument("BlockEntity is not instanceof MachineBlockEntity"));
    }
    var handler := if isClientSide then seq(|be.items|, _ => EMPTY) else be.items;
    var menu := new MachineContainerMenu(handler, be.inputSlots, inventory);
    assert menu.items[..|handler|] == handler;
    r := Ok(menu);
  }
}
