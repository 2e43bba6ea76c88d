/**
 * The millstone block entity: a held stack is put in while a mob walks the
 * millstone on a leash; every finished turn pops one result until the input
 * is used up. The entity search of `onUse`, sounds and block updates are
 * not part of this model.
 */
module Millstone {
  import opened Wrappers
  import opened ItemStacks
  import opened Nbt
  import MillingRecipes

  const TAG_INPUT := "input"
  const TAG_RESULT := "result"
  const TAG_IS_MILLING := "isMilling"
  const TAG_IS_LEASHED := "isLeashed"

  /** The walking entity (`GoAroundEntity`) bound to the millstone. */
  type EntityId = nat

  /** The four persisted fields. */
  datatype MillState = MillState(input: ItemStack, result: ItemStack, isMilling: bool, isLeashed: bool)

  /** `InteractionResult.sidedSuccess`: SUCCESS on the client, CONSUME on the server. */
  datatype InteractionResult = Success | Consume

  /** The state after `onUse`'s insertion branch and what the player then holds. */
  datatype Used = Used(state: MillState, held: ItemStack)

  /** The state after `onFinished` and the stack it popped into the world, if any. */
  datatype Finished = Finished(state: MillState, popped: Option<ItemStack>)

  /** The state after a number of `onFinished` calls and how many stacks they popped. */
  datatype Run = Run(state: MillState, pops: nat)

  /**
   * The insertion branch of `onUse` on the server, given the recipe the
   * recipe manager found for the held stack. Only an idle, leashed
   * millstone takes a non-empty stack with a recipe; it then takes the
   * whole stack, keeps all but one item as input, takes the recipe's
   * result and starts milling.
   * Otherwise nothing changes.
   */
  function Insert(s: MillState, held: ItemStack, recipe: Option<MillingRecipes.MillingRecipe>): (u: Used)
    ensures u.held != held ==> IsEmpty(s.result) && s.isLeashed && !IsEmpty(held) && recipe.Some?
    ensures u.held != held ==> u.held == EMPTY && u.state.isMilling && u.state.isLeashed
    ensures u.held != held ==> u.state.input.item == held.item && u.state.input.count + 1 == held.count
    ensures u.held != held ==> u.state.result == recipe.value.result
    ensures IsEmpty(s.result) && s.isLeashed && !IsEmpty(held) && recipe.Some? ==> u.held != held
    ensures u.held == held ==> u.state == s
  {
    if IsEmpty(s.result) && s.isLeashed && !IsEmpty(held) && recipe.Some? then
      Used(s.(input := CopyWithCount(held, held.count - 1), result := recipe.value.result, isMilling := true), EMPTY)
    else
      Used(s, held)
  }

  /**
   * `onFinished` on a millstone that has a level: a stack is popped exactly
   * when there is a result, and it is that result; each pop uses one input
   * item, and the last pop ends the milling.
   */
  function Finish(s: MillState): (f: Finished)
    ensures f.popped.Some? <==> !IsEmpty(s.result)
    ensures f.popped.Some? ==> f.popped.value == s.result
    ensures f.state.isLeashed == s.isLeashed && f.state.input.item == s.input.item
    ensures f.popped.Some? && !IsEmpty(s.input) ==> f.state.input.count == s.input.count - 1 && f.state.result == s.result
    ensures f.popped.Some? && IsEmpty(s.input) ==> !f.state.isMilling && f.state.result == EMPTY
  {
    if IsEmpty(s.result) then Finished(s, None)
    else if IsEmpty(s.input) then Finished(s.(isMilling := false, result := EMPTY), Some(Copy(s.result)))
    else Finished(s.(input := s.input.(count := s.input.count - 1)), Some(Copy(s.result)))
  }

  /** `k` successive calls of `onFinished`. */
  function RunFinish(s: MillState, k: nat): Run
    decreases k
  {
    if k == 0 then Run(s, 0)
    else
      var f := Finish(s);
      var rest := RunFinish(f.state, k - 1);
      Run(rest.state, rest.pops + (if f.popped.Some? then 1 else 0))
  }

  /** Without a result, `onFinished` changes nothing and pops nothing, however often it is called. */
  lemma {:induction false} IdleRun(s: MillState, k: nat)
    requires IsEmpty(s.result)
    ensures RunFinish(s, k) == Run(s, 0)
  {
    if k > 0 {
      IdleRun(s, k - 1);
    }
  }

  /**
   * A millstone with a result and `m` items of input pops exactly one stack
   * per call for `m + 1` calls, keeps milling through the first `m` of them,
   * and then stops with no result; later calls pop nothing.
   */
  lemma {:induction false} DrainRun(s: MillState, k: nat)
    requires !IsEmpty(s.result) && s.input.item != AIR && s.input.count >= 0
    ensures RunFinish(s, k).pops == if k <= s.input.count + 1 then k else s.input.count + 1
    ensures k <= s.input.count ==> RunFinish(s, k).state == s.(input := s.input.(count := s.input.count - k))
    ensures k > s.input.count ==>
      RunFinish(s, k).state == s.(input := s.input.(count := 0), result := EMPTY, isMilling := false)
    decreases k
  {
    if k > 0 {
      var t := Finish(s).state;
      if s.input.count == 0 {
        IdleRun(t, k - 1);
      } else {
        DrainRun(t, k - 1);
      }
    }
  }

  /**
   * Conservation: after a held stack of `n` items is put in, exactly `n`
   * calls of `onFinished` pop a result each, milling goes on through the
   * first `n - 1` of them and stops at the `n`-th, and no call after that
   * pops anything.
   */
  lemma {:induction false} InsertedStackYieldsItsCount(s: MillState, held: ItemStack, recipe: MillingRecipes.MillingRecipe)
    requires IsEmpty(s.result) && s.isLeashed && !IsEmpty(held) && !IsEmpty(recipe.result)
    ensures Insert(s, held, Some(recipe)).state.isMilling
    ensures forall k: nat :: k < held.count ==>
      RunFinish(Insert(s, held, Some(recipe)).state, k).state.isMilling
      && RunFinish(Insert(s, held, Some(recipe)).state, k).pops == k
    ensures forall k: nat :: k >= held.count ==>
      var r := RunFinish(Insert(s, held, Some(recipe)).state, k);
      r.pops == held.count && !r.state.isMilling && IsEmpty(r.state.result)
  {
    var t := Insert(s, held, Some(recipe)).state;
    assert t.input == ItemStack(held.item, held.count - 1);
    forall k: nat | k < held.count
      ensures RunFinish(t, k).state.isMilling && RunFinish(t, k).pops == k
    {
      DrainRun(t, k);
    }
    forall k: nat | k >= held.count
      ensures RunFinish(t, k).pops == held.count
      ensures !RunFinish(t, k).state.isMilling && IsEmpty(RunFinish(t, k).state.result)
    {
      DrainRun(t, k);
    }
  }

  /** `saveAdditional`: the four fields under their keys, added to what the tag holds. */
  function Save(s: MillState, tag: Compound): Compound {
    var t := tag[TAG_INPUT := CompoundTag(SaveStack(s.input))][TAG_RESULT := CompoundTag(SaveStack(s.result))];
    PutBoolean(PutBoolean(t, TAG_IS_MILLING, s.isMilling), TAG_IS_LEASHED, s.isLeashed)
  }

  /** `load`: the four fields read back from the tag. */
  function Load(tag: Compound): MillState {
    MillState(
      LoadStack(GetCompound(tag, TAG_INPUT)),
      LoadStack(GetCompound(tag, TAG_RESULT)),
      GetBoolean(tag, TAG_IS_MILLING),
      GetBoolean(tag, TAG_IS_LEASHED))
  }

  /**
   * Loading what was saved restores the same four fields whenever both stack
   * counts fit in a byte (every stack of at most 64 items does).
   */
  lemma SaveLoadRoundTrip(s: MillState, tag: Compound)
    requires -128 <= s.input.count <= 127 && -128 <= s.result.count <= 127
    ensures Load(Save(s, tag)) == s
  {
    LoadSaveStack(s.input);
    LoadSaveStack(s.result);
  }

  class MillstoneBlockEntity {
    var input: ItemStack
    var result: ItemStack
    var isMilling: bool
    var isLeashed: bool
    var entity: Option<EntityId>
    /** Whether the block entity sits in a level (`level != null`). */
    var hasLevel: bool

    function State(): MillState
      reads this
    {
      MillState(input, result, isMilling, isLeashed)
    }

    constructor (hasLevel: bool)
      ensures State() == MillState(EMPTY, EMPTY, false, false)
      ensures entity == None && this.hasLevel == hasLevel
    {
      input, result := EMPTY, EMPTY;
      isMilling, isLeashed := false, false;
      entity := None;
      this.hasLevel := hasLevel;
    }

    /**
     * `onUse`. On the server, a held stack goes in when there is no result,
     * the millstone is leashed and a milling recipe matches: the input keeps
     * all but one of the held items, the result is the recipe's, milling
     * starts and the hand is emptied. A crouching player with an empty hand
     * then makes a bound entity stop riding.
     */
    method OnUse(isClientSide: bool, held: ItemStack, crouching: bool, recipes: seq<MillingRecipes.MillingRecipe>)
      returns (r: InteractionResult, heldAfter: ItemStack, stopsRiding: bool)
      modifies this
      ensures r == if isClientSide then Success else Consume
      ensures isClientSide ==> State() == old(State()) && heldAfter == held && !stopsRiding
      ensures !isClientSide ==>
        var u := Insert(old(State()), held, MillingRecipes.GetRecipeFor(recipes, [held]));
        State() == u.state && heldAfter == u.held
      ensures !isClientSide ==> (stopsRiding <==> crouching && IsEmpty(heldAfter) && isLeashed && entity.Some?)
      ensures entity == old(entity) && hasLevel == old(hasLevel)
    {
      heldAfter := held;
      stopsRiding := false;
      if !isClientSide {
        if IsEmpty(result) && isLeashed && !IsEmpty(held) {
          var recipe := MillingRecipes.GetRecipeFor(recipes, [held]);
          if recipe.Some? {
            input := CopyWithCount(held, held.count - 1);
            result := recipe.value.result;
            isMilling := true;
            heldAfter := EMPTY;
          }
        }
        stopsRiding := crouching && IsEmpty(heldAfter) && isLeashed && entity.Some?;
      }
      r := if isClientSide then Success else Consume;
    }

    /**
     * `onFinished`: with a level and a result, pops a copy of the result and
     * either uses up one input item or, when the input is empty, stops
     * milling and clears the result.
     */
    method OnFinished() returns (popped: Option<ItemStack>)
      modifies this
      ensures !old(hasLevel) || IsEmpty(old(result)) ==> State() == old(State()) && popped == None
      ensures old(hasLevel) && !IsEmpty(old(result)) ==> popped == Some(old(result))
      ensures old(hasLevel) && !IsEmpty(old(result)) && IsEmpty(old(input)) ==>
        State() == old(State()).(isMilling := false, result := EMPTY)
      ensures old(hasLevel) && !IsEmpty(old(result)) && !IsEmpty(old(input)) ==>
        State() == old(State()).(input := old(input).(count := old(input).count - 1))
      ensures old(hasLevel) ==> Finished(State(), popped) == Finish(old(State()))
      ensures entity == old(entity) && hasLevel == old(hasLevel)
    {
      popped := None;
      if hasLevel && !IsEmpty(result) {
        popped := Some(Copy(result));
        if IsEmpty(input) {
          isMilling := false;
          result := EMPTY;
        } else {
          input := input.(count := input.count - 1);
        }
      }
    }

    /** `removeLeash`: with a level, unleashes, forgets the entity and stops milling. */
    method RemoveLeash()
      modifies this
      ensures hasLevel == old(hasLevel)
      ensures !hasLevel ==> State() == old(State()) && entity == old(entity)
      ensures hasLevel ==> State() == old(State()).(isLeashed := false, isMilling := false) && entity == None
    {
      if hasLevel {
        isLeashed := false;
        entity := None;
        isMilling := false;
      }
    }

    /**
     * `setLeashed`: with a level, binds the entity and marks the millstone
     * leashed; milling resumes when both input and result are present.
     */
    method SetLeashed(e: EntityId)
      modifies this
      ensures hasLevel == old(hasLevel)
      ensures !hasLevel ==> State() == old(State()) && entity == old(entity)
      ensures hasLevel ==> entity == Some(e) && isLeashed
      ensures hasLevel ==> input == old(input) && result == old(result)
      ensures hasLevel ==> isMilling == (old(isMilling) || (!IsEmpty(input) && !IsEmpty(result)))
    {
      if hasLevel {
        entity := Some(e);
        isLeashed := true;
        if !IsEmpty(input) && !IsEmpty(result) {
          isMilling := true;
        }
      }
    }

    /** `saveAdditional`. */
    method SaveAdditional(tag: Compound) returns (out: Compound)
      ensures out == Save(State(), tag)
      ensures Load(out) == State() <== -128 <= input.count <= 127 && -128 <= result.count <= 127
    {
      out := tag[TAG_INPUT := CompoundTag(SaveStack(input))][TAG_RESULT := CompoundTag(SaveStack(result))];
      out := PutBoolean(out, TAG_IS_MILLING, isMilling);
      out := PutBoolean(out, TAG_IS_LEASHED, isLeashed);
      if -128 <= input.count <= 127 && -128 <= result.count <= 127 {
        SaveLoadRoundTrip(State(), tag);
      }
    }

    /** `load`. */
    method LoadFrom(tag: Compound)
      modifies this
      ensures State() == Load(tag)
      ensures entity == old(entity) && hasLevel == old(hasLevel)
    {
      input := LoadStack(GetCompound(tag, TAG_INPUT));
      result := LoadStack(GetCompound(tag, TAG_RESULT));
      isMilling := GetBoolean(tag, TAG_IS_MILLING);
      isLeashed := GetBoolean(tag, TAG_IS_LEASHED);
    }
  }
}
