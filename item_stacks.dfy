/**
 * The part of Minecraft's ItemStack that the modelled code relies on: an item
 * and a count. Enchantments, damage and NBT data are not part of this model.
 */
module ItemStacks {
  /** Items are named by their registry id; id 0 is air. */
  type Item = nat

  const AIR: Item := 0

  datatype ItemStack = ItemStack(item: Item, count: int)

  /** `ItemStack.EMPTY`. */
  const EMPTY: ItemStack := ItemStack(AIR, 0)

  /** `isEmpty()`: a stack of air, or one whose count is zero or less. */
  predicate IsEmpty(s: ItemStack) {
    s.item == AIR || s.count <= 0
  }

  /** `copy()`: EMPTY for a stack that reads as empty, otherwise an equal stack. */
  function Copy(s: ItemStack): (r: ItemStack)
    ensures IsEmpty(r) <==> IsEmpty(s)
    ensures !IsEmpty(s) ==> r == s
  {
    if IsEmpty(s) then EMPTY else s
  }

  /** `copyWithCount(n)`: EMPTY for an empty stack, otherwise the same item with count `n`. */
  function CopyWithCount(s: ItemStack, n: int): (r: ItemStack)
    ensures IsEmpty(s) ==> r == EMPTY
    ensures !IsEmpty(s) ==> r.item == s.item && r.count == n
  {
    if IsEmpty(s) then EMPTY else ItemStack(s.item, n)
  }
}
