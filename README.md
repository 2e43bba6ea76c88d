# ytech game logic in Dafny

This project models the deterministic game logic of the ytech Minecraft mod and proves properties of it. It covers six parts of the mod:

- **Millstone** (`MillstoneBlockEntity`). A mob on a leash walks the millstone. A held stack goes in when a milling recipe matches. Each finished turn pops one copy of the recipe's result until the input is used up. The state is saved to and loaded from a compound tag.
- **Machine menu** (`MachineContainerMenu`). The menu lists the machine's item-handler slots, then the 36 player-inventory slots. Shift-clicking routes a stack between slot ranges, and the moved items land in the target slots.
- **Spear** (`SpearItem`, `SpearType`). This part covers:
  - when a spear can be raised;
  - what releasing it does (a throw, or a riptide launch in water or rain);
  - its durability costs and attack modifiers;
  - the tier table and its two reverse maps.
- **Milling recipe** (`MillingRecipe`). This part covers:
  - matching slot 0 against the ingredient, and the result;
  - the recipe's network form;
  - the data-generation builder, which emits the recipe and its unlocking advancement.
- **Aqueduct** (`AqueductBlockEntity`). An aqueduct is a storage node of the irrigation network. This part models its flow, its network type, whether rain may fill it, and binding its network's fluid handler.
- **Configuration** (`YTechConfigSpec`). This part models:
  - the integer settings with their defaults and the range [1, Integer.MAX_VALUE];
  - the boolean switches;
  - the resource-location list with its validator and its conversion to a set.

World queries are parameters of the model: the level, the sky, precipitation, and the irrigation network lookup. So are the vanilla helpers whose code is not part of this model:
- `moveItemStackTo` is a function parameter that acts on all of the menu's stacks. It is constrained by the guarantee the game gives for it: only slots in the target range change, a failed move changes nothing, and no item is lost or made. A move into a range that holds the moved stack's own slot is left unconstrained.
- The recipe manager is the first matching recipe of a list.

Side effects on the world are returned as values: stacks popped, spears spawned, sounds chosen, propagator notifications.

Supporting modules:
- `ItemStacks`: an item id and a count. A stack is empty when it is air or has a count of zero or less.
- `Nbt`: compound tags.
- `ResourceLocations`: `namespace:path` parsing and validity.
- `LinkedMaps`: `LinkedHashMap`, which keeps insertion order.
- `JavaInts`: 32-bit wrap-around and the byte cast.

Where a count is cast to a byte by the game (NBT and network), the cast is modelled. The round trips are exact only for counts that fit in a byte.

## Model

| member | source | states |
|---|---|---|
| `Millstone.MillstoneBlockEntity.constructor` | src/main/java/com/yanny/ytech/configuration/block_entity/MillstoneBlockEntity.java:41-50 | A new millstone has empty input and result, is neither milling nor leashed, and has no entity. |
| `Millstone.MillstoneBlockEntity.OnUse` | src/main/java/com/yanny/ytech/configuration/block_entity/MillstoneBlockEntity.java:72-93 | On the client nothing changes and the result is SUCCESS. On the server the result is CONSUME. A non-empty held stack goes in only when there is no result, the millstone is leashed and a recipe matches slot 0. Then: the input is the held stack less one item, the result is the recipe's, milling starts and the hand is emptied. A crouching player with an empty hand stops a bound entity riding. |
| `Millstone.MillstoneBlockEntity.OnFinished` | src/main/java/com/yanny/ytech/configuration/block_entity/MillstoneBlockEntity.java:123-137 | Without a level or a result, nothing changes and nothing pops. Otherwise it pops a copy of the result. An empty input then stops milling and clears the result; a non-empty input loses exactly one item and nothing else changes. |
| `Millstone.Insert` | src/main/java/com/yanny/ytech/configuration/block_entity/MillstoneBlockEntity.java:74-86 | An idle (no result), leashed millstone takes a non-empty held stack exactly when a recipe was found for it. It takes the whole stack, keeps all but one item as input (same item), sets the result to the recipe's result and starts milling; the hand is left empty. Otherwise neither the millstone nor the hand changes. |
| `Millstone.Finish` | src/main/java/com/yanny/ytech/configuration/block_entity/MillstoneBlockEntity.java:123-133 | A stack pops exactly when there is a result, and it is that result. With input left, one input item is used and the result stays; with no input left, the result is cleared and milling stops. The leash and the input item never change. |
| `Millstone.IdleRun` | src/main/java/com/yanny/ytech/configuration/block_entity/MillstoneBlockEntity.java:124 | With no result, any number of `onFinished` calls leaves the state unchanged and pops nothing. |
| `Millstone.DrainRun` | src/main/java/com/yanny/ytech/configuration/block_entity/MillstoneBlockEntity.java:123-133 | With a result and m input items, k calls pop min(k, m + 1) stacks. After k <= m calls the input holds m - k items and milling goes on. After more calls, milling has stopped with the result cleared. |
| `Millstone.InsertedStackYieldsItsCount` | src/main/java/com/yanny/ytech/configuration/block_entity/MillstoneBlockEntity.java:74-133 | Conservation: once a held stack of n items is put in, exactly n calls of `onFinished` pop a result each. Milling continues through the first n - 1 calls and stops at the n-th, and no later call pops anything. |
| `Millstone.MillstoneBlockEntity.RemoveLeash` | src/main/java/com/yanny/ytech/configuration/block_entity/MillstoneBlockEntity.java:139-147 | With a level, it clears the leash, the entity and milling; input and result are untouched. Without a level nothing changes. |
| `Millstone.MillstoneBlockEntity.SetLeashed` | src/main/java/com/yanny/ytech/configuration/block_entity/MillstoneBlockEntity.java:149-161 | With a level, it binds the entity and marks the millstone leashed. Milling becomes true when input and result are both non-empty and is otherwise unchanged. Input and result are untouched. |
| `Millstone.MillstoneBlockEntity.SaveAdditional` | src/main/java/com/yanny/ytech/configuration/block_entity/MillstoneBlockEntity.java:177-184 | Writes the four fields under their keys, and loading the written tag restores them whenever both counts fit in a byte. |
| `Millstone.SaveLoadRoundTrip` | src/main/java/com/yanny/ytech/configuration/block_entity/MillstoneBlockEntity.java:96-103 | `load` after `saveAdditional` gives back input, result, isMilling and isLeashed, for counts that fit in a byte. |
| `Millstone.MillstoneBlockEntity.LoadFrom` | src/main/java/com/yanny/ytech/configuration/block_entity/MillstoneBlockEntity.java:96-103 | The four fields become what the tag holds; the entity binding and level are kept. |
| `MillingRecipes.Matches` | src/main/java/com/yanny/ytech/configuration/recipe/MillingRecipe.java:41-44 | Only slot 0 is tested. A filled slot matches exactly when its item is listed by the ingredient. An empty slot reads as air: it matches an ingredient without items, or one that lists air, and nothing else. |
| `MillingRecipes.MatchesReadsSlotZeroOnly` | src/main/java/com/yanny/ytech/configuration/recipe/MillingRecipe.java:41-44 | Whether a recipe matches depends on slot 0 of the container and nothing else. |
| `MillingRecipes.Assemble` | src/main/java/com/yanny/ytech/configuration/recipe/MillingRecipe.java:46-61 | Assembling gives the result item (`getResultItem`), or EMPTY when the result reads as empty. |
| `MillingRecipes.CanCraftInDimensions` | src/main/java/com/yanny/ytech/configuration/recipe/MillingRecipe.java:52-55 | Any grid size is accepted. |
| `MillingRecipes.GetRecipeFor` | src/main/java/com/yanny/ytech/configuration/block_entity/MillstoneBlockEntity.java:75 | The recipe found is one of the known recipes and matches the container. No recipe is found only when none matches. |
| `MillingRecipes.ToNetwork` | src/main/java/com/yanny/ytech/configuration/recipe/MillingRecipe.java:95-99 | Writing keeps what the buffer held and appends the ingredient first, then the result: one token for an empty result, three (present, id, byte count) otherwise. |
| `MillingRecipes.FromNetwork` | src/main/java/com/yanny/ytech/configuration/recipe/MillingRecipe.java:87-93 | Reading an empty buffer fails as truncated. A recipe read takes its ingredient from the first token, then a result, and what is left unread is a proper suffix of the buffer. |
| `MillingRecipes.NetworkRoundTrip` | src/main/java/com/yanny/ytech/configuration/recipe/MillingRecipe.java:87-99 | `fromNetwork` reads back, in order, the ingredient and the result that `toNetwork` wrote, and leaves the rest of the buffer unread. The result comes back with an empty stack read as EMPTY and its count cast to a byte. |
| `MillingRecipes.NetworkRoundTripExact` | src/main/java/com/yanny/ytech/configuration/recipe/MillingRecipe.java:87-99 | A recipe whose result is EMPTY, or whose count fits in a byte, comes back unchanged. |
| `MillingRecipes.Builder.constructor` | src/main/java/com/yanny/ytech/configuration/recipe/MillingRecipe.java:105-118 | A new builder keeps its ingredient and result and has no criteria. |
| `MillingRecipes.Builder.UnlockedBy` | src/main/java/com/yanny/ytech/configuration/recipe/MillingRecipe.java:120-125 | Puts the criterion under its name. A new name goes last, a repeated name keeps its place, and the builder is returned. |
| `MillingRecipes.Builder.Group` | src/main/java/com/yanny/ytech/configuration/recipe/MillingRecipe.java:127-131 | Ignores the group and returns the builder itself. |
| `MillingRecipes.Builder.Save` | src/main/java/com/yanny/ytech/configuration/recipe/MillingRecipe.java:139-157 | Fails with "No way of obtaining recipe" exactly when no criterion was added. Otherwise it emits the recipe with a one-item result. The advancement is named `recipes/milling/` + id and rewards the recipe. Its criteria are `has_the_recipe` followed by the builder's criteria in insertion order, and its requirement strategy is OR, so any one criterion unlocks it. |
| `MachineMenu.MachineContainerMenu.constructor` | src/main/java/com/yanny/ytech/configuration/container/MachineContainerMenu.java:48-55 | One slot per handler slot, in index order, then the 36 player slots. Each slot shows its stack. |
| `MachineMenu.Open` | src/main/java/com/yanny/ytech/configuration/container/MachineContainerMenu.java:28-56 | Opening fails with IllegalArgumentException exactly when the block entity is not a machine. The handler is the machine's own on the server and a blank one of the same size on the client. The input-slot count is taken from the machine. |
| `MachineMenu.PlayerLayout` | src/main/java/com/yanny/ytech/configuration/container/MachineContainerMenu.java:55 | The player part of the menu has 36 inventory slots. |
| `MachineMenu.QuickMoveAsWritten` | src/main/java/com/yanny/ytech/configuration/container/MachineContainerMenu.java:60-98 | `quickMoveStack` as written, over all of the menu's stacks. The click returns EMPTY or the clicked stack, and `onTake` runs exactly when it returns the stack. A drained slot is set to EMPTY. Otherwise the slot holds what the moves left, and if it was marked changed that is not empty. A click that reaches the end returns EMPTY exactly when the stack's count did not change (lines 90-97). The menu keeps its size. |
| `MachineMenu.QuickMoveCorrected` | src/main/java/com/yanny/ytech/configuration/container/MachineContainerMenu.java:60-98 | `quickMoveStack` with the machine-slot branch and the input-slot routing as alternatives. The same guarantees hold as for the code as written. |
| `MachineMenu.AsWrittenConserves` | src/main/java/com/yanny/ytech/configuration/container/MachineContainerMenu.java:60-98 | As written, when the machine's input slots lie below the clicked slot, every item's total over the menu is unchanged. This holds for machine output slots and player slots alike, so the lost-report bug never loses items there. |
| `MachineMenu.EmptySlotDoesNothing` | src/main/java/com/yanny/ytech/configuration/container/MachineContainerMenu.java:60-65 | Shift-clicking an empty slot returns EMPTY, moves nothing and changes no slot. |
| `MachineMenu.MachineSlotGoesToPlayerFirst` | src/main/java/com/yanny/ytech/configuration/container/MachineContainerMenu.java:69-74 | A machine slot first tries the whole player inventory, last slot first. On failure the click returns EMPTY and no slot changes. On success the input slots are tried next, as written. |
| `MachineMenu.PlayerSlotRouting` | src/main/java/com/yanny/ytech/configuration/container/MachineContainerMenu.java:74-81 | A player slot tries the machine's input slots first. If that fails, a main-inventory slot tries the hotbar and a hotbar slot the main inventory. If that fails too, the click returns EMPTY and no slot changes. The code as written and the corrected routing agree on player slots. |
| `MachineMenu.AsWrittenDrainedMachineSlotReportsNothing` | src/main/java/com/yanny/ytech/configuration/container/MachineContainerMenu.java:69-81 | As written, a machine slot whose whole stack fits into the player inventory returns EMPTY and skips `onTake`. The slot keeps the drained stack instead of being set to EMPTY, although every item moved into the player slots. |
| `MachineMenu.AsWrittenMovesInputSlotIntoItsOwnRange` | src/main/java/com/yanny/ytech/configuration/container/MachineContainerMenu.java:69-74 | As written, a machine input slot whose stack only partly fits into the player inventory is then moved into the input slots, a range that holds the slot itself. |
| `MachineMenu.DrainedMachineSlotExample` | src/main/java/com/yanny/ytech/configuration/container/MachineContainerMenu.java:69-81 | A concrete mover that honours the guarantee: five items in a one-slot machine go to the last player slot. As written the click returns EMPTY and the clicked slot keeps a zero-count stack. Once corrected it returns the original stack and empties the slot. |
| `MachineMenu.CorrectedReportsMove` | src/main/java/com/yanny/ytech/configuration/container/MachineContainerMenu.java:84-97 | With the corrected routing, and the input slots not holding the clicked one, the click returns the original stack exactly when some of it moved, and EMPTY otherwise. |
| `MachineMenu.CorrectedConserves` | src/main/java/com/yanny/ytech/configuration/container/MachineContainerMenu.java:60-98 | With the corrected routing, and the input slots not holding the clicked one, no move targets the clicked slot. Every item's total over the menu is unchanged, and no slot changes except the clicked one and those in the ranges moved into. |
| `MachineMenu.MachineContainerMenu.QuickMoveStack` | src/main/java/com/yanny/ytech/configuration/container/MachineContainerMenu.java:58-98 | The class's shift-click leaves the menu as the corrected routing does: the moved items are in their target slots and the clicked slot holds what is left, or EMPTY. It returns the corrected result, and with the input slots not holding the clicked one, every item's total over the menu is kept. |
| `Spear.ValuesListsEveryTier` | src/main/java/com/yanny/ytech/configuration/item/SpearItem.java:205-210 | `values()` lists each of the four tiers exactly once. |
| `Spear.Stats` | src/main/java/com/yanny/ytech/configuration/item/SpearItem.java:205-210 | Every tier has positive durability and base damage, an attack-speed modifier below zero, and a throw threshold of 10 ticks. |
| `Spear.TiersImprove` | src/main/java/com/yanny/ytech/configuration/item/SpearItem.java:206-209 | From flint to iron, each tier doubles the durability (20, 40, 80, 160) and raises damage, attack speed and shoot power. It also lowers the inaccuracy. |
| `Spear.BuildLookups` | src/main/java/com/yanny/ytech/configuration/item/SpearItem.java:213-221 | After the one pass over `values()`, every tier is found under its entity type and its material, and every key maps to the tier that owns it. |
| `Spear.Use` | src/main/java/com/yanny/ytech/configuration/item/SpearItem.java:153-166 | The spear is raised (consume) exactly when it is not worn out and has no riptide or the player is in water or rain. Otherwise `use` fails. |
| `Spear.RiptideSoundTier` | src/main/java/com/yanny/ytech/configuration/item/SpearItem.java:136-146 | Riptide level 3 or more plays sound 3, level 2 plays sound 2, anything lower plays sound 1. |
| `Spear.ReleaseUsing` | src/main/java/com/yanny/ytech/configuration/item/SpearItem.java:79-147 | A release that awards no use statistic has no effect at all, and only a player's release awards it. A thrown spear is of the held tier and is thrown only by the server without riptide. Only a thrown spear leaves the inventory, at a cost of 1 durability. A riptide launch throws nothing. |
| `Spear.ReleaseActsWhen` | src/main/java/com/yanny/ytech/configuration/item/SpearItem.java:75-87 | Releasing acts exactly for a player who held the spear at least its throw threshold (36000 minus the ticks left), without riptide or in water or rain. Otherwise it has no effect at all. |
| `Spear.ReleaseEffectsWhenActing` | src/main/java/com/yanny/ytech/configuration/item/SpearItem.java:88-147 | When releasing acts: only the server damages the stack, by 1. A spear is thrown exactly on the server without riptide, with the tier's power and accuracy. It leaves the inventory unless the player builds instantly, and then only creative players can pick it up. A riptide release launches the player with its tier's sound. |
| `Spear.RaisedSpearReleases` | src/main/java/com/yanny/ytech/configuration/item/SpearItem.java:74-87 | A spear that `use` accepted and that was held for at least 10 of its 36000 ticks is thrown or launches when released. |
| `Spear.HurtEnemy` | src/main/java/com/yanny/ytech/configuration/item/SpearItem.java:168-172 | Hitting a mob costs 1 durability and returns true. |
| `Spear.MineBlock` | src/main/java/com/yanny/ytech/configuration/item/SpearItem.java:174-181 | Mining costs 2 durability exactly when the block's destroy speed is not 0, and returns true. |
| `Spear.CanAttackBlock` | src/main/java/com/yanny/ytech/configuration/item/SpearItem.java:63-66 | A spear can attack blocks exactly when the player is not in creative mode. |
| `Spear.DefaultAttributeModifiers` | src/main/java/com/yanny/ytech/configuration/item/SpearItem.java:183-188 | In the main hand it gives the tier's attack-damage and attack-speed modifiers (built at lines 56-59). Elsewhere it gives none. |
| `Aqueduct.ValidForRainFilling` | src/main/java/com/yanny/ytech/configuration/block_entity/AqueductBlockEntity.java:55-64 | Never true outside a server level. On the server it is true when `validBlockForRaining` is off. Otherwise it is true exactly when the sky is visible above and the biome's precipitation at the position is rain. |
| `Aqueduct.DefaultRainFilling` | src/main/java/com/yanny/ytech/configuration/YTechConfigSpec.java:66-67 | With the default configuration, rain fills an aqueduct exactly on the server, under open sky, where the biome's precipitation is rain. |
| `Aqueduct.AqueductBlockEntity.constructor` | src/main/java/com/yanny/ytech/configuration/block_entity/AqueductBlockEntity.java:23-30 | A new aqueduct has no fluid handler bound. |
| `Aqueduct.AqueductBlockEntity.GetFlow` | src/main/java/com/yanny/ytech/configuration/block_entity/AqueductBlockEntity.java:45-48 | The flow is always 0. |
| `Aqueduct.AqueductBlockEntity.GetNetworkType` | src/main/java/com/yanny/ytech/configuration/block_entity/AqueductBlockEntity.java:50-53 | The network type is always STORAGE. |
| `Aqueduct.AqueductBlockEntity.OnLoad` | src/main/java/com/yanny/ytech/configuration/block_entity/AqueductBlockEntity.java:32-43 | The handler of the network found for this aqueduct is bound only on the server, and only when a network is found. Otherwise the binding is unchanged. |
| `Aqueduct.AqueductBlockEntity.GetCapability` | src/main/java/com/yanny/ytech/configuration/block_entity/AqueductBlockEntity.java:71-74 | The fluid-handler capability gives the bound handler. Any other capability gives the empty answer. |
| `Aqueduct.AqueductBlockEntity.OnRandomTick` | src/main/java/com/yanny/ytech/configuration/block_entity/AqueductBlockEntity.java:76-78 | Every random tick reports a change at this aqueduct's position to the irrigation propagator. |
| `Aqueduct.LoadAndQuery` | src/main/java/com/yanny/ytech/configuration/block_entity/AqueductBlockEntity.java:32-74 | A freshly loaded aqueduct hands out a fluid handler exactly when it was loaded on the server and a network was found. That handler is the network's. |
| `YTechConfig.SpecsArePositiveRanges` | src/main/java/com/yanny/ytech/configuration/YTechConfigSpec.java:56-87 | Every integer setting ranges over [1, Integer.MAX_VALUE], and its default lies in that range. |
| `YTechConfig.Correct` | src/main/java/com/yanny/ytech/configuration/YTechConfigSpec.java:58-85 | A loaded integer always lies in its setting's range. An in-range value is kept, and a value that is not an integer becomes the default. |
| `YTechConfig.Load` | src/main/java/com/yanny/ytech/configuration/YTechConfigSpec.java:39-88 | A loaded configuration satisfies every range and validator, and keeps every in-range integer from the file. |
| `YTechConfig.GetInt` | src/main/java/com/yanny/ytech/configuration/YTechConfigSpec.java:115-157 | Each integer getter returns the stored value, which is at least 1 and at most Integer.MAX_VALUE. So no "per nth tick" interval or "1 in n" chance is 0. |
| `YTechConfig.ValidateResourceLocation` | src/main/java/com/yanny/ytech/configuration/YTechConfigSpec.java:222-224 | Only a string entry is accepted, and every accepted entry constructs a valid resource location. A string without a colon is accepted exactly when it is a valid path. |
| `YTechConfig.ValidatorAcceptsPrintedLocations` | src/main/java/com/yanny/ytech/configuration/YTechConfigSpec.java:222-224 | The validator accepts the text of every valid resource location, and that text parses back to the location. It refuses any entry that is not a string. |
| `YTechConfig.ToSet` | src/main/java/com/yanny/ytech/configuration/YTechConfigSpec.java:96 | Collecting to a set keeps exactly the list's elements and never gives more elements than the list has. |
| `YTechConfig.LocationSet` | src/main/java/com/yanny/ytech/configuration/YTechConfigSpec.java:94-97 | A location is in the set exactly when some list entry parses to it. The set is never larger than the list. |
| `YTechConfig.BlocksRequiringValidTool` | src/main/java/com/yanny/ytech/configuration/YTechConfigSpec.java:94-97 | The blocks requiring a valid tool are exactly the parsed entries of the configured list. |
| `YTechConfig.DuplicatesCollapse` | src/main/java/com/yanny/ytech/configuration/YTechConfigSpec.java:94-97 | Repeating an entry does not change the set, which is then strictly smaller than the list. |
| `YTechConfig.Defaults` | src/main/java/com/yanny/ytech/configuration/YTechConfigSpec.java:39-88 | All five switches default to true. Every integer setting holds its declared default, and the block list holds the 40 default blocks. |

## Left out

- The irrigation network engine: connectivity, network identities, the fill and drain simulation, and the client mirror. Its code is not part of this model, so the aqueduct only receives the network lookup's answer and returns the `changed` notification.
- `INetworkBlockEntity` and the `IrrigationBlockEntity` superclass (`super.onLoad()`, neighbour lists). They are not part of this model.
- The mob search in `onUse` (MillstoneBlockEntity.java:55-70), which leashes a nearby mob to a new walking entity. It needs the world's entity lists.
- Sounds, particles, block updates and `setChanged` calls of the millstone, the random pitch of its sound, `onRemove`, and the plain getters.
- Float physics of `releaseUsing` (the push vector, the spin attack, the hop on the ground) and the flight of a thrown spear. The table's float columns are kept as decimal literals.
- `hurtAndBreak` internals (unbreaking, creative immunity, breaking the stack): the model records only the durability cost requested.
- `Spear.ReleaseActsWhen` is stated only where 36000 minus the ticks left does not overflow a Java `int`. `ReleaseUsing` itself models the wrap-around.
- `Aqueduct.AqueductBlockEntity.GetCapability` separates the fluid-handler query before a handler is bound as its own answer. It does not model what the capability library does with that null handler.
- `Utils.layoutPlayerInventorySlots` is not part of this model. The player slots are taken as main inventory 9 to 35 then hotbar 0 to 8, matching the ranges `quickMoveStack` uses. Slot screen positions are left out.
- `MachineMenu.MachineContainerMenu.QuickMoveStack` requires a slot index inside the menu, where the source would throw from `slots.get`.
- `MillingRecipes.Builder.Save` does not reject a builder criterion named `has_the_recipe`, which then appears twice in the advancement's criteria. What the game's advancement builder does with a repeated key is not part of this model.
- `MachineMenu.WellBehaved` says nothing about a `moveItemStackTo` call whose range holds the moved stack's own slot, beyond keeping the menu's size and never moving an empty stack. The code as written makes such a call (`MachineMenu.AsWrittenMovesInputSlotIntoItsOwnRange`). The vanilla merge code that decides what it does then is not part of this model, so what the slot holds afterwards is not modelled. The corrected routing never makes such a call when the input slots do not hold the clicked one.
- `MachineMenu.MachineContainerMenu.QuickMoveStack` keeps item totals only when the machine's input slots do not hold the clicked slot. Input slots are machine slots in the game, but the menu takes the count from the block entity without checking it.
- `getEnchantmentValue` (1), `getUseAnimation` (SPEAR) and `initializeClient` (the item renderer) are enchanting-table and rendering details.
- Stacks carry an item id and a count only: no NBT data, damage or enchantments. `ItemStack.save`/`of` store the id as a number.
- The ingredient's own network encoding is one token. The recipe JSON codec (`CODEC`) and its tag ingredients are left out.
- The configuration library's correction of list values and its file format are left out. Integer correction is modelled as clamping into range, with the default for non-integers.
- The drying-rack biome-tag lists and their defaults. Their default strings come from tag constants that are not part of this model.
- That the 40 default block names pass the validator is not proved. The names are literal `minecraft:` paths.

## Findings

| source | as written | input that shows it | evidently intended | confidence | as-written member | corrected member |
|---|---|---|---|---|---|---|
| src/main/java/com/yanny/ytech/configuration/container/MachineContainerMenu.java:69-81 | After a machine slot's stack is moved to the player inventory, the input-slot move and the hotbar or main-inventory move still run (no `else`). A stack that moved completely then fails both, and the click returns EMPTY without `onTake`, `slot.set(EMPTY)` or `setChanged`. | A one-slot machine holding 5 of an item, shift-clicked with room for all 5 in the player inventory. | The machine-slot branch and the input-slot routing are alternatives. The click returns the original stack, sets the drained slot to EMPTY and calls `onTake`. | medium, not executed | `MachineMenu.AsWrittenDrainedMachineSlotReportsNothing` | `MachineMenu.CorrectedReportsMove` |
