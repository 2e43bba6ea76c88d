/**
 * The spear item: when it can be raised, what letting go of it does (a
 * throw, or a riptide launch in water or rain), its durability costs, its
 * attack modifiers and the table of spear tiers with its two reverse maps.
 * The side effects on the game (damage to the stack, spawned entities,
 * sounds, stats) are returned as records; the physics is left out.
 */
module Spear {
  import opened Wrappers
  import opened JavaInts

  datatype SpearType = Flint | Copper | Bronze | Iron

  /** The material a spear is made of; the game has more materials than the four spears. */
  datatype MaterialType = FlintMaterial | CopperMaterial | BronzeMaterial | IronMaterial | OtherMaterial(name: string)

  /** The thrown-spear entity type of each tier, among the mod's other simple entity types. */
  datatype EntityType = FlintSpear | CopperSpear | BronzeSpear | IronSpear | OtherEntity(name: string)

  /**
   * A row of the tier table. The float columns are written as the decimal
   * literals of the table.
   */
  datatype SpearStats = SpearStats(
    material: MaterialType,
    entity: EntityType,
    durability: int,
    baseDamage: real,
    attackSpeed: real,
    shootPower: real,
    accuracy: real,
    throwThreshold: int)

  /** `SpearType.values()`, in declaration order. */
  const VALUES: seq<SpearType> := [Flint, Copper, Bronze, Iron]

  /** `getUseDuration`: how long the spear can be held raised. */
  const USE_DURATION: int := 36000

  /**
   * The constructor arguments of each tier. Every tier has durability, a
   * positive base damage, an attack speed below a bare hand's, and can be
   * thrown after ten ticks.
   */
  function Stats(t: SpearType): (s: SpearStats)
    ensures s.durability > 0 && s.baseDamage > 0.0 && s.attackSpeed < 0.0
    ensures s.throwThreshold == 10
  {
    match t
    case Flint => SpearStats(FlintMaterial, FlintSpear, 20, 4.0, -3.5, 2.0, 1.5, 10)
    case Copper => SpearStats(CopperMaterial, CopperSpear, 40, 4.5, -3.4, 2.1, 1.3, 10)
    case Bronze => SpearStats(BronzeMaterial, BronzeSpear, 80, 5.0, -3.3, 2.3, 1.2, 10)
    case Iron => SpearStats(IronMaterial, IronSpear, 160, 6.0, -3.2, 2.5, 1.1, 10)
  }

  /** `ordinal()`: each tier's position in `VALUES`. */
  function Ordinal(t: SpearType): (i: nat)
    ensures i < |VALUES| && VALUES[i] == t
  {
    match t
    case Flint => 0
    case Copper => 1
    case Bronze => 2
    case Iron => 3
  }

  /** `VALUES` lists every tier exactly once. */
  lemma ValuesListsEveryTier()
    ensures forall t: SpearType :: t in VALUES
    ensures forall i, j :: 0 <= i < j < |VALUES| ==> VALUES[i] != VALUES[j]
  {
    forall t: SpearType ensures t in VALUES {
      var i := Ordinal(t);
    }
  }

  /**
   * The table: each tier has twice the durability of the one before it, and
   * hits harder, swings faster, throws further and scatters less.
   */
  lemma TiersImprove()
    ensures forall i :: 0 <= i < |VALUES| - 1 ==>
      var a, b := Stats(VALUES[i]), Stats(VALUES[i + 1]);
      && b.durability == 2 * a.durability
      && a.baseDamage < b.baseDamage
      && a.attackSpeed < b.attackSpeed
      && a.shootPower < b.shootPower
      && a.accuracy > b.accuracy
  {
  }

  /**
   * The static initializer: `BY_ENTITY_TYPE` and `BY_MATERIAL_TYPE` are
   * filled by one pass over `values()`, each constant put under its own
   * entity type and material.
   */
  method BuildLookups() returns (byEntity: map<EntityType, SpearType>, byMaterial: map<MaterialType, SpearType>)
    ensures forall t: SpearType :: Stats(t).entity in byEntity && byEntity[Stats(t).entity] == t
    ensures forall t: SpearType :: Stats(t).material in byMaterial && byMaterial[Stats(t).material] == t
    ensures forall e :: e in byEntity ==> Stats(byEntity[e]).entity == e
    ensures forall m :: m in byMaterial ==> Stats(byMaterial[m]).material == m
  {
    byEntity := map[];
    byMaterial := map[];
    for i := 0 to |VALUES|
      invariant forall j :: 0 <= j < i ==> Stats(VALUES[j]).entity in byEntity && byEntity[Stats(VALUES[j]).entity] == VALUES[j]
      invariant forall j :: 0 <= j < i ==> Stats(VALUES[j]).material in byMaterial && byMaterial[Stats(VALUES[j]).material] == VALUES[j]
      invariant forall e :: e in byEntity ==> Stats(byEntity[e]).entity == e
      invariant forall m :: m in byMaterial ==> Stats(byMaterial[m]).material == m
    {
      var t := VALUES[i];
      byEntity := byEntity[Stats(t).entity := t];
      byMaterial := byMaterial[Stats(t).material := t];
    }
    forall t: SpearType ensures Stats(t).entity in byEntity && Stats(t).material in byMaterial {
      var i := Ordinal(t);
    }
  }

  /** The outcome of `use`: `consume` starts raising the spear, `fail` does nothing. */
  datatype UseOutcome = Fail | Consume

  /**
   * `use`: a worn-out spear cannot be raised, nor can a riptide spear out
   * of water and rain.
   */
  function Use(damage: int, maxDamage: int, riptide: int, inWaterOrRain: bool): (r: UseOutcome)
    ensures r == Consume <==> damage < maxDamage && (riptide <= 0 || inWaterOrRain)
  {
    if damage >= maxDamage then Fail
    else if riptide > 0 && !inWaterOrRain then Fail
    else Consume
  }

  /** The sound played by a riptide launch. */
  datatype RiptideSound = Riptide1 | Riptide2 | Riptide3

  /** The riptide sound: level 3 and above, level 2, anything lower. */
  function RiptideSoundTier(riptide: int): (s: RiptideSound)
    ensures s == Riptide3 <==> riptide >= 3
    ensures s == Riptide2 <==> riptide == 2
    ensures s == Riptide1 <==> riptide < 2
  {
    if riptide >= 3 then Riptide3 else if riptide == 2 then Riptide2 else Riptide1
  }

  /** Whether a thrown spear can be picked up by anyone or only in creative mode. */
  datatype Pickup = Allowed | CreativeOnly

  /** The spear entity a throw spawns, with its launch power and inaccuracy. */
  datatype ThrownSpear = ThrownSpear(spearType: SpearType, pickup: Pickup, power: real, accuracy: real)

  /** Who lets go of the spear. */
  datatype User = NonPlayer | Player(inWaterOrRain: bool, instabuild: bool)

  /**
   * What letting go of the spear does: the durability damage asked of the
   * stack, the spear thrown (with its throw sound), whether the stack leaves
   * the inventory, whether the use statistic is awarded, and the riptide
   * launch with its sound.
   */
  datatype ReleaseEffects = ReleaseEffects(
    durabilityCost: int,
    thrown: Option<ThrownSpear>,
    removedFromInventory: bool,
    statAwarded: bool,
    launch: Option<RiptideSound>)

  const NOTHING: ReleaseEffects := ReleaseEffects(0, None, false, false, None)

  /** How long the spear was held: the use duration less the ticks left, as a Java `int`. */
  function ThrowTime(timeLeft: int): int {
    WrapInt(USE_DURATION - timeLeft)
  }

  /**
   * `releaseUsing`: a release that awards no statistic does nothing; only a
   * player's release acts; a thrown spear is the held tier, thrown by the
   * server without riptide, and only a thrown spear leaves the inventory; a
   * riptide launch throws nothing.
   */
  function ReleaseUsing(t: SpearType, user: User, timeLeft: int, riptide: int, isClientSide: bool): (e: ReleaseEffects)
    ensures !e.statAwarded ==> e == NOTHING
    ensures e.statAwarded ==> user.Player?
    ensures e.thrown.Some? ==> e.thrown.value.spearType == t && !isClientSide && riptide == 0
    ensures e.removedFromInventory ==> e.thrown.Some? && e.durabilityCost == 1
    ensures e.launch.Some? ==> riptide > 0 && e.thrown.None?
  {
    if user.NonPlayer? then NOTHING
    else if ThrowTime(timeLeft) < Stats(t).throwThreshold then NOTHING
    else if !(riptide <= 0 || user.inWaterOrRain) then NOTHING
    else
      var server := !isClientSide;
      var throws := server && riptide == 0;
      ReleaseEffects(
        if server then 1 else 0,
        if throws then Some(ThrownSpear(t, if user.instabuild then CreativeOnly else Allowed,
                                        Stats(t).shootPower + (riptide as real) * 0.5, Stats(t).accuracy))
        else None,
        throws && !user.instabuild,
        true,
        if riptide > 0 then Some(RiptideSoundTier(riptide)) else None)
  }

  /** A release acts exactly for a player who held the spear long enough, out of riptide's way. */
  lemma ReleaseActsWhen(t: SpearType, user: User, timeLeft: int, riptide: int, isClientSide: bool)
    requires IsInt(USE_DURATION - timeLeft)
    ensures var e := ReleaseUsing(t, user, timeLeft, riptide, isClientSide);
      e.statAwarded <==>
        && user.Player?
        && USE_DURATION - timeLeft >= Stats(t).throwThreshold
        && (riptide <= 0 || user.inWaterOrRain)
  {
  }

  /**
   * Once a release acts: only the server damages the stack, by one; a spear
   * is thrown exactly on the server without riptide, with the tier's power
   * and inaccuracy, and leaves the inventory unless the player builds
   * instantly, in which case only creative players can pick it up; a riptide
   * spear is never thrown and launches the player with the tier's sound.
   */
  lemma ReleaseEffectsWhenActing(t: SpearType, user: User, timeLeft: int, riptide: int, isClientSide: bool)
    requires ReleaseUsing(t, user, timeLeft, riptide, isClientSide).statAwarded
    ensures var e := ReleaseUsing(t, user, timeLeft, riptide, isClientSide);
      && e.durabilityCost == (if isClientSide then 0 else 1)
      && (e.thrown.Some? <==> !isClientSide && riptide == 0)
      && (e.thrown.Some? ==> e.thrown.value == ThrownSpear(t, if user.instabuild then CreativeOnly else Allowed,
                                                             Stats(t).shootPower, Stats(t).accuracy))
      && (e.removedFromInventory <==> e.thrown.Some? && !user.instabuild)
      && (e.launch.Some? <==> riptide > 0)
      && (riptide > 0 ==> e.launch == Some(RiptideSoundTier(riptide)))
  {
  }

  /**
   * A held spear never outlasts the use duration, so a release after at
   * least ten ticks of holding a spear that `use` accepted acts.
   */
  lemma RaisedSpearReleases(t: SpearType, damage: int, maxDamage: int, riptide: int, inWaterOrRain: bool, instabuild: bool, timeLeft: int, isClientSide: bool)
    requires Use(damage, maxDamage, riptide, inWaterOrRain) == Consume
    requires 0 <= timeLeft <= USE_DURATION - 10
    ensures ReleaseUsing(t, Player(inWaterOrRain, instabuild), timeLeft, riptide, isClientSide).statAwarded
  {
  }

  /** A durability request and the value returned to the game. */
  datatype Hit = Hit(result: bool, durabilityCost: int)

  /** `hurtEnemy`: hitting a mob costs one point of durability. */
  function HurtEnemy(): (h: Hit)
    ensures h.result && h.durabilityCost == 1
  {
    Hit(true, 1)
  }

  /** `mineBlock`: breaking a block costs two points unless it breaks instantly. */
  function MineBlock(destroySpeed: real): (h: Hit)
    ensures h.result
    ensures h.durabilityCost == 2 <==> destroySpeed != 0.0
    ensures h.durabilityCost == 0 <==> destroySpeed == 0.0
  {
    Hit(true, if destroySpeed != 0.0 then 2 else 0)
  }

  /** `canAttackBlock`: a spear breaks blocks, except in creative mode. */
  function CanAttackBlock(creative: bool): (b: bool)
    ensures b <==> !creative
  {
    !creative
  }

  datatype EquipmentSlot = MainHand | OffHand | Feet | Legs | Chest | Head
  datatype Attribute = AttackDamage | AttackSpeed
  /** An additive attribute modifier with the vanilla tool UUIDs. */
  datatype AttributeModifier = ToolModifier(attribute: Attribute, amount: real)

  /**
   * `getDefaultAttributeModifiers`: in the main hand the tier's damage and
   * speed modifiers; elsewhere the plain item's, which are none.
   */
  function DefaultAttributeModifiers(t: SpearType, slot: EquipmentSlot): (r: seq<AttributeModifier>)
    ensures slot == MainHand ==> r == [ToolModifier(AttackDamage, Stats(t).baseDamage), ToolModifier(AttackSpeed, Stats(t).attackSpeed)]
    ensures slot != MainHand ==> r == []
  {
    if slot == MainHand then [ToolModifier(AttackDamage, Stats(t).baseDamage), ToolModifier(AttackSpeed, Stats(t).attackSpeed)]
    else []
  }
}
