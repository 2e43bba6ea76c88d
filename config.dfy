/**
 * The mod's configuration: boolean switches, integer settings with their
 * defaults and the range [1, Integer.MAX_VALUE], and lists of resource
 * locations whose entries must parse.
 */
module YTechConfig {
  import opened JavaInts
  import opened ResourceLocations

  /** The integer settings, in the order they are declared. */
  datatype IntSetting =
    | BaseFluidStoragePerBlock
    | RainingFillAmount
    | RainingFillPerNthTick
    | ValveFillAmount
    | ValveFillPerNthTick
    | HydratorDrainAmount
    | HydratorDrainPerNthTick
    | FertilizerDuration
    | ApplyFertilizerChance

  /** A `defineInRange` declaration: the key, the default and the inclusive bounds. */
  datatype IntSpec = IntSpec(key: string, default: int, min: int, max: int)

  function Spec(s: IntSetting): IntSpec {
    match s
    case BaseFluidStoragePerBlock => IntSpec("baseFluidStoragePerBlock", 500, 1, INT_MAX)
    case RainingFillAmount => IntSpec("rainingFillAmount", 1, 1, INT_MAX)
    case RainingFillPerNthTick => IntSpec("rainingFillPerNthTick", 10, 1, INT_MAX)
    case ValveFillAmount => IntSpec("valveFillAmount", 1, 1, INT_MAX)
    case ValveFillPerNthTick => IntSpec("valveFillPerNthTick", 10, 1, INT_MAX)
    case HydratorDrainAmount => IntSpec("hydratorDrainAmount", 100, 1, INT_MAX)
    case HydratorDrainPerNthTick => IntSpec("hydratorDrainPerNthTick", 200, 1, INT_MAX)
    case FertilizerDuration => IntSpec("fertilizerDuration", 600, 1, INT_MAX)
    case ApplyFertilizerChance => IntSpec("applyFertilizerChance", 60, 1, INT_MAX)
  }

  /** Every integer setting ranges over [1, Integer.MAX_VALUE] and its default lies in that range. */
  lemma SpecsArePositiveRanges(s: IntSetting)
    ensures Spec(s).min == 1 && Spec(s).max == INT_MAX
    ensures Spec(s).min <= Spec(s).default <= Spec(s).max
  {
  }

  /** A value read from the configuration file for an integer setting. */
  datatype RawValue = IntValue(i: int) | NotAnInt

  /**
   * The correction the configuration library applies to a `defineInRange`
   * value when it loads the file: a value that is not an integer becomes
   * the default, one outside the bounds is clamped to the nearer bound.
   */
  function Correct(s: IntSetting, raw: RawValue): (r: int)
    ensures Spec(s).min <= r <= Spec(s).max
    ensures raw.IntValue? && Spec(s).min <= raw.i <= Spec(s).max ==> r == raw.i
    ensures raw.NotAnInt? ==> r == Spec(s).default
  {
    var spec := Spec(s);
    match raw
    case NotAnInt => spec.default
    case IntValue(i) => if i < spec.min then spec.min else if i > spec.max then spec.max else i
  }

  /** A list entry as the configuration file holds it: a string or something else. */
  datatype ConfigEntry = StringEntry(s: string) | NonString

  /**
   * `validateResourceLocation`: only a string that is a valid resource
   * location, so that every accepted entry constructs a valid location.
   */
  predicate ValidateResourceLocation(e: ConfigEntry): (b: bool)
    ensures b ==> e.StringEntry? && IsValidResourceLocation(e.s) && ValidLocation(Parse(e.s))
    ensures e.StringEntry? && SEPARATOR !in e.s ==> (b <==> ValidPath(e.s))
  {
    e.StringEntry? && IsValidResourceLocation(e.s)
  }

  /**
   * The validator accepts the text of every valid location, and that text
   * parses back to the location; it refuses anything that is not a string.
   */
  lemma ValidatorAcceptsPrintedLocations(rl: ResourceLocation)
    requires ValidLocation(rl)
    ensures ValidateResourceLocation(StringEntry(ToString(rl)))
    ensures Parse(ToString(rl)) == rl
    ensures !ValidateResourceLocation(NonString)
  {
    ParseToString(rl);
  }

  /** The values of a loaded configuration. */
  datatype Config = Config(
    makeBlocksRequireValidTool: bool,
    makeBlocksRequireValidToolList: seq<ConfigEntry>,
    craftSharpFlintByRightClickingOnStone: bool,
    noDryingDuringRain: bool,
    rainingFillAqueduct: bool,
    validBlockForRaining: bool,
    ints: map<IntSetting, int>)
  {
    /**
     * What the library guarantees after loading: every integer setting is
     * present and in its range, and every list entry passed the validator.
     */
    predicate Valid() {
      && (forall s: IntSetting :: s in ints && Spec(s).min <= ints[s] <= Spec(s).max)
      && (forall i :: 0 <= i < |makeBlocksRequireValidToolList| ==> ValidateResourceLocation(makeBlocksRequireValidToolList[i]))
    }
  }

  /** A configuration loaded from raw integer values, each corrected. */
  function Load(bools: (bool, bool, bool, bool, bool), list: seq<ConfigEntry>, raw: IntSetting -> RawValue): (c: Config)
    requires forall i :: 0 <= i < |list| ==> ValidateResourceLocation(list[i])
    ensures c.Valid()
    ensures forall s: IntSetting :: raw(s).IntValue? && 1 <= raw(s).i <= INT_MAX ==> c.ints[s] == raw(s).i
  {
    Config(bools.0, list, bools.1, bools.2, bools.3, bools.4, map s: IntSetting | true :: Correct(s, raw(s)))
  }

  /**
   * The integer getters (`getBaseFluidStoragePerBlock`,
   * `getRainingFillPerNthTick`, ...): the stored value, which is never
   * below 1, so a "per nth tick" interval or a "1 in n" chance never divides
   * by zero.
   */
  function GetInt(c: Config, s: IntSetting): (r: int)
    requires c.Valid()
    ensures 1 <= r <= INT_MAX
    ensures r == c.ints[s]
  {
    c.ints[s]
  }

  /** `new ResourceLocation(entry)` for an entry that passed the validator. */
  function Entry(e: ConfigEntry): ResourceLocation
    requires ValidateResourceLocation(e)
  {
    Parse(e.s)
  }

  /** `Collectors.toSet()`: the elements of a sequence, duplicates collapsing. */
  function ToSet(xs: seq<ResourceLocation>): (r: set<ResourceLocation>)
    ensures forall x :: x in r <==> x in xs
    ensures |r| <= |xs|
  {
    if |xs| == 0 then {}
    else
      var rest := ToSet(xs[1..]);
      assert forall x :: x in xs <==> x == xs[0] || x in xs[1..] by {
        assert xs == [xs[0]] + xs[1..];
      }
      {xs[0]} + rest
  }

  /** The entries of a validated list, each parsed with `new ResourceLocation`. */
  function ParseAll(list: seq<ConfigEntry>): (rls: seq<ResourceLocation>)
    requires forall i :: 0 <= i < |list| ==> ValidateResourceLocation(list[i])
    ensures |rls| == |list|
    ensures forall i :: 0 <= i < |list| ==> rls[i] == Entry(list[i])
  {
    seq(|list|, i requires 0 <= i < |list| => Entry(list[i]))
  }

  /** `getBlocksRequiringValidTool`: the list's entries parsed into a set, duplicates collapsing. */
  function LocationSet(list: seq<ConfigEntry>): (r: set<ResourceLocation>)
    requires forall i :: 0 <= i < |list| ==> ValidateResourceLocation(list[i])
    ensures forall rl :: rl in r <==> exists i :: 0 <= i < |list| && Entry(list[i]) == rl
    ensures |r| <= |list|
  {
    var rls := ParseAll(list);
    assert forall rl :: rl in rls <==> exists i :: 0 <= i < |list| && Entry(list[i]) == rl by {
      forall rl ensures rl in rls <==> exists i :: 0 <= i < |list| && Entry(list[i]) == rl {
        if rl in rls {
          var k :| 0 <= k < |rls| && rls[k] == rl;
          assert Entry(list[k]) == rl;
        }
      }
    }
    ToSet(rls)
  }

  function BlocksRequiringValidTool(c: Config): (r: set<ResourceLocation>)
    requires c.Valid()
    ensures forall rl :: rl in r <==> exists i :: 0 <= i < |c.makeBlocksRequireValidToolList| && Entry(c.makeBlocksRequireValidToolList[i]) == rl
  {
    LocationSet(c.makeBlocksRequireValidToolList)
  }

  /** A block named twice in the list is in the set once: the set is that of the list without the repeat. */
  lemma {:induction false} DuplicatesCollapse(list: seq<ConfigEntry>, i: nat)
    requires forall k :: 0 <= k < |list| ==> ValidateResourceLocation(list[k])
    requires i < |list|
    ensures LocationSet(list + [list[i]]) == LocationSet(list)
    ensures |LocationSet(list + [list[i]])| < |list + [list[i]]|
  {
    var longer := list + [list[i]];
    forall rl ensures rl in LocationSet(longer) <==> rl in LocationSet(list) {
      if rl in LocationSet(longer) {
        var k :| 0 <= k < |longer| && Entry(longer[k]) == rl;
        if k == |list| {
          assert Entry(list[i]) == rl;
        } else {
          assert Entry(list[k]) == rl;
        }
      }
      if rl in LocationSet(list) {
        var k :| 0 <= k < |list| && Entry(list[k]) == rl;
        assert Entry(longer[k]) == rl;
      }
    }
  }

  /** The blocks that need the right tool unless the file says otherwise. */
  const DEFAULT_BLOCKS_REQUIRING_VALID_TOOL: seq<string> := [
    "minecraft:acacia_log", "minecraft:acacia_wood", "minecraft:birch_log", "minecraft:birch_wood",
    "minecraft:cherry_log", "minecraft:cherry_wood", "minecraft:jungle_log", "minecraft:jungle_wood",
    "minecraft:oak_log", "minecraft:oak_wood", "minecraft:dark_oak_log", "minecraft:dark_oak_wood",
    "minecraft:mangrove_log", "minecraft:mangrove_wood", "minecraft:spruce_log", "minecraft:spruce_wood",
    "minecraft:stripped_acacia_log", "minecraft:stripped_acacia_wood", "minecraft:stripped_birch_log", "minecraft:stripped_birch_wood",
    "minecraft:stripped_cherry_log", "minecraft:stripped_cherry_wood", "minecraft:stripped_jungle_log", "minecraft:stripped_jungle_wood",
    "minecraft:stripped_oak_log", "minecraft:stripped_oak_wood", "minecraft:stripped_dark_oak_log", "minecraft:stripped_dark_oak_wood",
    "minecraft:stripped_mangrove_log", "minecraft:stripped_mangrove_wood", "minecraft:stripped_spruce_log", "minecraft:stripped_spruce_wood",
    "minecraft:dirt", "minecraft:dirt_path", "minecraft:grass_block", "minecraft:farmland",
    "minecraft:podzol", "minecraft:mycelium", "minecraft:coarse_dirt", "minecraft:rooted_dirt"
  ]

  /** The configuration with every setting at its default. */
  function Defaults(): (c: Config)
    ensures c.makeBlocksRequireValidTool && c.craftSharpFlintByRightClickingOnStone && c.noDryingDuringRain
    ensures c.rainingFillAqueduct && c.validBlockForRaining
    ensures forall s: IntSetting :: s in c.ints && c.ints[s] == Spec(s).default
    ensures |c.makeBlocksRequireValidToolList| == 40
    ensures forall i :: 0 <= i < 40 ==> c.makeBlocksRequireValidToolList[i] == StringEntry(DEFAULT_BLOCKS_REQUIRING_VALID_TOOL[i])
  {
    Config(true, seq(|DEFAULT_BLOCKS_REQUIRING_VALID_TOOL|, i requires 0 <= i < |DEFAULT_BLOCKS_REQUIRING_VALID_TOOL| => StringEntry(DEFAULT_BLOCKS_REQUIRING_VALID_TOOL[i])),
           true, true, true, true, map s: IntSetting | true :: Spec(s).default)
  }
}
