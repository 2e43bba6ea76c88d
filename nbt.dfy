/**
 * Compound tags (NBT) as far as block-entity persistence uses them, and the
 * stack codec `ItemStack.save` / `ItemStack.of`. The item is stored by its
 * registry id; the count is cast to a byte, as the game does.
 */
module Nbt {
  import opened JavaInts
  import opened ItemStacks

  datatype Tag = ByteTag(b: int) | IntTag(i: int) | CompoundTag(entries: map<string, Tag>)

  type Compound = map<string, Tag>

  const ID_KEY := "id"
  const COUNT_KEY := "Count"

  /** `getByte`: the stored byte, or 0 when the key is missing or holds another kind of tag. */
  function GetByte(c: Compound, key: string): int {
    if key in c && c[key].ByteTag? then c[key].b else 0
  }

  /** `putBoolean`: a byte 1 or 0. */
  function PutBoolean(c: Compound, key: string, v: bool): Compound {
    c[key := ByteTag(if v then 1 else 0)]
  }

  /** `getBoolean`: whether the stored byte is non-zero. */
  function GetBoolean(c: Compound, key: string): bool {
    GetByte(c, key) != 0
  }

  /** `getCompound`: the nested compound, or an empty one when missing. */
  function GetCompound(c: Compound, key: string): Compound {
    if key in c && c[key].CompoundTag? then c[key].entries else map[]
  }

  /** `ItemStack.save`. */
  function SaveStack(s: ItemStack): Compound {
    map[ID_KEY := IntTag(s.item), COUNT_KEY := ByteTag(ToByte(s.count))]
  }

  /** `ItemStack.of`: an unknown or missing id reads as air. */
  function LoadStack(c: Compound): ItemStack {
    var item := if ID_KEY in c && c[ID_KEY].IntTag? && c[ID_KEY].i >= 0 then c[ID_KEY].i else AIR;
    ItemStack(item, GetByte(c, COUNT_KEY))
  }

  /** A stack whose count fits in a byte is read back exactly as it was saved. */
  lemma LoadSaveStack(s: ItemStack)
    requires -128 <= s.count <= 127
    ensures LoadStack(SaveStack(s)) == s
  {
  }
}
