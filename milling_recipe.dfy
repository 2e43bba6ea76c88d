/**
 * The milling recipe: an ingredient checked against slot 0 of a container and
 * the stack it produces, its network form, and the builder that emits it
 * together with its unlocking advancement.
 */
module MillingRecipes {
  import opened Wrappers
  import opened JavaInts
  import opened ItemStacks
  import opened ResourceLocations
  import opened LinkedMaps

  /** An Ingredient as the list of items it accepts. */
  datatype Ingredient = Ingredient(items: seq<Item>)

  /**
   * `Ingredient.test`: an ingredient without items accepts only empty
   * stacks; otherwise the stack's item must be listed, where an empty stack
   * reads as AIR.
   */
  predicate Test(ing: Ingredient, s: ItemStack) {
    if |ing.items| == 0 then IsEmpty(s) else (if IsEmpty(s) then AIR else s.item) in ing.items
  }

  datatype MillingRecipe = MillingRecipe(ingredient: Ingredient, result: ItemStack)

  /** A container, as the stacks in its slots. */
  type Container = seq<ItemStack>

  /**
   * `matches`: the ingredient is checked against slot 0 and nothing else. A
   * filled slot matches exactly when its item is listed; an empty slot
   * matches an ingredient without items, or one listing AIR.
   */
  predicate Matches(r: MillingRecipe, c: Container): (b: bool)
    requires |c| > 0
    ensures !IsEmpty(c[0]) ==> (b <==> c[0].item in r.ingredient.items)
    ensures IsEmpty(c[0]) ==> (b <==> |r.ingredient.items| == 0 || AIR in r.ingredient.items)
  {
    Test(r.ingredient, c[0])
  }

  /** Whether a recipe matches depends on slot 0 of the container only. */
  lemma MatchesReadsSlotZeroOnly(r: MillingRecipe, c1: Container, c2: Container)
    requires |c1| > 0 && |c2| > 0 && c1[0] == c2[0]
    ensures Matches(r, c1) == Matches(r, c2)
  {
  }

  /** `assemble`: a copy of the result. */
  function Assemble(r: MillingRecipe, c: Container): (s: ItemStack)
    ensures IsEmpty(r.result) ==> s == EMPTY
    ensures !IsEmpty(r.result) ==> s == GetResultItem(r)
  {
    Copy(r.result)
  }

  /** `getResultItem`: the result stack itself. */
  function GetResultItem(r: MillingRecipe): ItemStack {
    r.result
  }

  /** `canCraftInDimensions`: any grid will do. */
  function CanCraftInDimensions(w: int, h: int): (b: bool)
    ensures b
  {
    true
  }

  /**
   * The recipe manager's `getRecipeFor`: the first recipe of the given list
   * that matches the container, if any.
   */
  function GetRecipeFor(recipes: seq<MillingRecipe>, c: Container): (r: Option<MillingRecipe>)
    requires |c| > 0
    ensures r.Some? ==> r.value in recipes && Matches(r.value, c)
    ensures r.None? ==> forall i :: 0 <= i < |recipes| ==> !Matches(recipes[i], c)
  {
    if |recipes| == 0 then None
    else if Matches(recipes[0], c) then Some(recipes[0])
    else GetRecipeFor(recipes[1..], c)
  }

  // ---- Network form ----

  /**
   * What the byte buffer carries, one token per primitive write. The
   * ingredient's own encoding is a single token: its codec belongs to the game.
   */
  datatype Token = BoolToken(flag: bool) | VarIntToken(v: int) | ByteToken(n: int) | IngredientToken(ing: Ingredient)

  type Buffer = seq<Token>

  datatype DecodeError = Truncated | Unexpected(found: Token)

  /**
   * `writeItem`: `false` for an empty stack; otherwise `true`, the item id and
   * the count cast to a byte.
   */
  function WriteItem(buf: Buffer, s: ItemStack): Buffer {
    if IsEmpty(s) then buf + [BoolToken(false)]
    else buf + [BoolToken(true), VarIntToken(s.item), ByteToken(ToByte(s.count))]
  }

  /** `readItem`, returning the stack and the unread rest of the buffer. */
  function ReadItem(buf: Buffer): Result<(ItemStack, Buffer), DecodeError> {
    if |buf| == 0 then Err(Truncated)
    else if !buf[0].BoolToken? then Err(Unexpected(buf[0]))
    else if !buf[0].flag then Ok((EMPTY, buf[1..]))
    else if |buf| < 3 then Err(Truncated)
    else if !buf[1].VarIntToken? then Err(Unexpected(buf[1]))
    else if !buf[2].ByteToken? then Err(Unexpected(buf[2]))
    else
      var item := if buf[1].v >= 0 then buf[1].v else AIR;
      Ok((ItemStack(item, buf[2].n), buf[3..]))
  }

  function WriteIngredient(buf: Buffer, ing: Ingredient): Buffer {
    buf + [IngredientToken(ing)]
  }

  function ReadIngredient(buf: Buffer): Result<(Ingredient, Buffer), DecodeError> {
    if |buf| == 0 then Err(Truncated)
    else if !buf[0].IngredientToken? then Err(Unexpected(buf[0]))
    else Ok((buf[0].ing, buf[1..]))
  }

  /**
   * `Serializer.toNetwork`: the ingredient, then the result, appended to
   * what the buffer already holds; an empty result takes one token, any
   * other three.
   */
  function ToNetwork(buf: Buffer, r: MillingRecipe): (b: Buffer)
    ensures |b| == |buf| + (if IsEmpty(r.result) then 2 else 4)
    ensures b[..|buf|] == buf && b[|buf|] == IngredientToken(r.ingredient)
  {
    WriteItem(WriteIngredient(buf, r.ingredient), r.result)
  }

  /**
   * `Serializer.fromNetwork`: the ingredient, then the result, in the same
   * order. An empty buffer is truncated; a read recipe's ingredient is the
   * first token, and what is left unread is a proper suffix of the buffer.
   */
  function FromNetwork(buf: Buffer): (r: Result<(MillingRecipe, Buffer), DecodeError>)
    ensures |buf| == 0 ==> r == Err(Truncated)
    ensures r.Ok? ==> buf[0] == IngredientToken(r.value.0.ingredient)
    ensures r.Ok? ==> |r.value.1| <= |buf| - 2 && r.value.1 == buf[|buf| - |r.value.1|..]
  {
    match ReadIngredient(buf)
    case Err(e) => Err(e)
    case Ok((ing, rest)) =>
      match ReadItem(rest)
      case Err(e) => Err(e)
      case Ok((result, rest')) => Ok((MillingRecipe(ing, result), rest'))
  }

  /** What a recipe looks like after the trip: an empty result reads as EMPTY, the count as a byte. */
  function OverTheWire(r: MillingRecipe): MillingRecipe {
    r.(result := if IsEmpty(r.result) then EMPTY else ItemStack(r.result.item, ToByte(r.result.count)))
  }

  /**
   * Reading a recipe back after writing it yields the recipe as it travels,
   * and leaves whatever followed it in the buffer unread.
   */
  lemma {:induction false} NetworkRoundTrip(r: MillingRecipe, rest: Buffer)
    ensures FromNetwork(ToNetwork([], r) + rest) == Ok((OverTheWire(r), rest))
  {
    var buf := ToNetwork([], r) + rest;
    assert buf[0] == IngredientToken(r.ingredient);
    assert buf[1..] == WriteItem([], r.result) + rest;
    if IsEmpty(r.result) {
      assert buf[1..][1..] == rest;
    } else {
      assert buf[1..][3..] == rest;
    }
  }

  /** A recipe whose result is empty, or has a count that fits in a byte, is read back unchanged. */
  lemma NetworkRoundTripExact(r: MillingRecipe, rest: Buffer)
    requires r.result == EMPTY || (!IsEmpty(r.result) && r.result.count <= 127)
    ensures FromNetwork(ToNetwork([], r) + rest) == Ok((r, rest))
  {
    NetworkRoundTrip(r, rest);
  }

  // ---- Builder ----

  datatype Criterion = Criterion(trigger: string, conditions: string) | RecipeUnlocked(recipe: ResourceLocation)

  /** `AdvancementRequirements.Strategy`: all criteria are needed, or any one. */
  datatype Strategy = And | Or

  datatype Advancement = Advancement(id: ResourceLocation, criteria: seq<(string, Criterion)>, requirements: Strategy, rewardRecipe: ResourceLocation)

  /** What `save` hands to the recipe output. */
  datatype SavedRecipe = SavedRecipe(id: ResourceLocation, recipe: MillingRecipe, advancement: Advancement)

  datatype SaveError = NoWayOfObtaining(recipeId: ResourceLocation)

  const HAS_THE_RECIPE: string := "has_the_recipe"
  const ADVANCEMENT_PREFIX: string := "recipes/milling/"

  class Builder {
    const ingredient: Ingredient
    const result: Item
    var criteria: LinkedMap<string, Criterion>

    ghost predicate Valid()
      reads this
    {
      criteria.Valid()
    }

    /** `Builder.milling(input, result)`: no criteria yet. */
    constructor (ingredient: Ingredient, result: Item)
      ensures Valid()
      ensures this.ingredient == ingredient && this.result == result
      ensures criteria == Empty()
    {
      this.ingredient := ingredient;
      this.result := result;
      criteria := Empty();
    }

    /**
     * `unlockedBy`: stores the criterion under its name. A new name goes last;
     * a name used before keeps its place and gets the new criterion.
     */
    method UnlockedBy(name: string, c: Criterion) returns (b: Builder)
      requires Valid()
      modifies this
      ensures Valid() && b == this
      ensures criteria == old(criteria).Put(name, c)
      ensures criteria.values[name] == c
      ensures !criteria.IsEmpty()
    {
      criteria := criteria.Put(name, c);
      b := this;
    }

    /** `group`: ignored; the builder is returned as it is. */
    method Group(groupName: Option<string>) returns (b: Builder)
      ensures b == this
    {
      b := this;
    }

    /**
     * `save`: without criteria it fails with "No way of obtaining recipe" and
     * emits nothing; otherwise it emits the recipe with a one-item result and
     * an advancement under "recipes/milling/" whose criteria are
     * "has_the_recipe" followed by the builder's, in insertion order, any
     * one of which unlocks it.
     */
    method Save(recipeId: ResourceLocation) returns (r: Result<SavedRecipe, SaveError>)
      requires Valid()
      ensures r.Err? <==> criteria.IsEmpty()
      ensures r.Err? ==> r.error == NoWayOfObtaining(recipeId)
      ensures r.Ok? ==> r.value.id == recipeId
      ensures r.Ok? ==> r.value.recipe == MillingRecipe(ingredient, ItemStack(result, 1))
      ensures r.Ok? ==> r.value.advancement.id == WithPrefix(recipeId, ADVANCEMENT_PREFIX)
      ensures r.Ok? ==> r.value.advancement.rewardRecipe == recipeId
      ensures r.Ok? ==> r.value.advancement.requirements == Or
      ensures r.Ok? ==> r.value.advancement.criteria == [(HAS_THE_RECIPE, RecipeUnlocked(recipeId))] + criteria.Entries()
    {
      if criteria.IsEmpty() {
        return Err(NoWayOfObtaining(recipeId));
      }
      var added: seq<(string, Criterion)> := [(HAS_THE_RECIPE, RecipeUnlocked(recipeId))];
      var i := 0;
      while i < |criteria.keys|
        invariant 0 <= i <= |criteria.keys|
        invariant added == [(HAS_THE_RECIPE, RecipeUnlocked(recipeId))] + criteria.Entries()[..i]
      {
        var name := criteria.keys[i];
        added := added + [(name, criteria.values[name])];
        i := i + 1;
      }
      assert criteria.Entries()[..i] == criteria.Entries();
      var advancement := Advancement(WithPrefix(recipeId, ADVANCEMENT_PREFIX), added, Or, recipeId);
      r := Ok(SavedRecipe(recipeId, MillingRecipe(ingredient, ItemStack(result, 1)), advancement));
    }
  }
}
