/** The blast-furnace registry: two append-only lists, fuels and recipes, filled
    during start-up and queried by first-match linear scan. */
module Crafting {
  import opened Wrappers
  import opened Minecraft

  /** A registered fuel: its name, the ingredient it matches and its cook time. */
  datatype Fuel = Fuel(name: ResourceLocation, input: Ingredient, cookTime: int)

  /** A registered recipe. `output` is the template handed out, as a copy, by `GetOutput`. */
  datatype Recipe = Recipe(name: ResourceLocation, input: Ingredient, cookTime: int,
                           output: Stack, slagOutput: int)
  {
    /** Every call yields a new stack object equal to the registered template. */
    method GetOutput() returns (out: ItemStack)
      ensures fresh(out)
      ensures out.Value() == output
    {
      out := new ItemStack(output);
    }
  }

  // ---------------------------------------------------------------------------
  // First match in insertion order

  /** `i` is the lowest index whose element satisfies `p`. */
  ghost predicate IsFirst<T>(xs: seq<T>, p: T -> bool, i: int) {
    0 <= i < |xs| && p(xs[i]) && forall j :: 0 <= j < i ==> !p(xs[j])
  }

  /** No element of `xs` satisfies `p`. */
  ghost predicate NoMatch<T>(xs: seq<T>, p: T -> bool) {
    forall j :: 0 <= j < |xs| ==> !p(xs[j])
  }

  /** The index a stream `filter(p).findFirst()` stops at, if any. */
  function FirstMatch<T>(xs: seq<T>, p: T -> bool): (r: Option<nat>)
    ensures r.Some? ==> IsFirst(xs, p, r.value)
    ensures r.None? ==> NoMatch(xs, p)
  {
    if xs == [] then None
    else if p(xs[0]) then Some(0)
    else match FirstMatch(xs[1..], p)
      case None => None
      case Some(k) => Some(k + 1)
  }

  /** Appending an element never changes an existing first match; it only
      supplies one where there was none. */
  lemma {:induction false} FirstMatchAppend<T>(xs: seq<T>, x: T, p: T -> bool)
    ensures FirstMatch(xs + [x], p) ==
      if FirstMatch(xs, p).Some? then FirstMatch(xs, p)
      else if p(x) then Some(|xs|)
      else None
  {
    var ys := xs + [x];
    assert forall j :: 0 <= j < |xs| ==> ys[j] == xs[j];
    assert ys[|xs|] == x;
    var r, r' := FirstMatch(xs, p), FirstMatch(ys, p);
    if r.Some? {
      // the lowest matching index of the prefix is the lowest of the whole
      assert IsFirst(ys, p, r.value);
    } else if p(x) {
      assert IsFirst(ys, p, |xs|);
    }
  }

  /** The filter of `getCookTime`: the fuel's input accepts `s`. */
  function FuelAccepts(s: Stack): Fuel -> bool {
    (f: Fuel) => f.input.Apply(s)
  }

  /** The filter of `getRecipe`: the recipe's input accepts `s`. */
  function RecipeAccepts(s: Stack): Recipe -> bool {
    (r: Recipe) => r.input.Apply(s)
  }

  /** Cook time of the first fuel accepting `s`, or 0 when none does. */
  function CookTime(fuels: seq<Fuel>, s: Stack): (t: int)
    ensures NoMatch(fuels, FuelAccepts(s)) ==> t == 0
    ensures forall i :: IsFirst(fuels, FuelAccepts(s), i) ==> t == fuels[i].cookTime
  {
    match FirstMatch(fuels, FuelAccepts(s))
    case Some(i) => fuels[i].cookTime
    case None => 0
  }

  /** The first recipe accepting `s`, or none when no recipe does. */
  function FindRecipe(recipes: seq<Recipe>, s: Stack): (r: Option<Recipe>)
    ensures r.None? <==> NoMatch(recipes, RecipeAccepts(s))
    ensures forall i :: IsFirst(recipes, RecipeAccepts(s), i) ==> r == Some(recipes[i])
  {
    match FirstMatch(recipes, RecipeAccepts(s))
    case Some(i) => Some(recipes[i])
    case None => None
  }

  /** Insertion order is priority: a fuel appended later is consulted only
      for stacks that no earlier fuel accepts. */
  lemma CookTimeAfterAppend(fuels: seq<Fuel>, f: Fuel, s: Stack)
    ensures CookTime(fuels + [f], s) ==
      if !NoMatch(fuels, FuelAccepts(s)) then CookTime(fuels, s)
      else if f.input.Apply(s) then f.cookTime
      else 0
  {
    FirstMatchAppend(fuels, f, FuelAccepts(s));
  }

  /** Insertion order is priority for recipes as well. */
  lemma FindRecipeAfterAppend(recipes: seq<Recipe>, r: Recipe, s: Stack)
    ensures FindRecipe(recipes + [r], s) ==
      if !NoMatch(recipes, RecipeAccepts(s)) then FindRecipe(recipes, s)
      else if r.input.Apply(s) then Some(r)
      else None
  {
    FirstMatchAppend(recipes, r, RecipeAccepts(s));
  }

  /** Of two fuels that both accept `s`, the one registered first decides the cook time. */
  lemma EarlierFuelWins(fuels: seq<Fuel>, a: Fuel, b: Fuel, s: Stack)
    requires NoMatch(fuels, FuelAccepts(s))
    requires a.input.Apply(s) && b.input.Apply(s)
    ensures CookTime(fuels + [a] + [b], s) == a.cookTime
  {
    CookTimeAfterAppend(fuels, a, s);
    assert (fuels + [a])[|fuels|] == a;
    CookTimeAfterAppend(fuels + [a], b, s);
  }

  /** No stored fuel accepts the empty stack. */
  ghost predicate FuelsRejectEmpty(fuels: seq<Fuel>) {
    forall i :: 0 <= i < |fuels| ==> !fuels[i].input.Apply(EMPTY)
  }

  /** No stored recipe accepts the empty stack. */
  ghost predicate RecipesRejectEmpty(recipes: seq<Recipe>) {
    forall i :: 0 <= i < |recipes| ==> !recipes[i].input.Apply(EMPTY)
  }

  /** The registry singleton. */
  class BlastFurnaceCrafter {
    var recipes: seq<Recipe>
    var fuels: seq<Fuel>

    /** The guard on both add methods keeps every entry that accepts EMPTY out. */
    ghost predicate Valid()
      reads this
    {
      FuelsRejectEmpty(fuels) && RecipesRejectEmpty(recipes)
    }

    constructor ()
      ensures Valid()
      ensures fuels == [] && recipes == []
    {
      recipes, fuels := [], [];
    }

    /** Appends a fuel unless its input accepts the empty stack, in which case
        the call is a no-op (the source only logs a warning). */
    method AddFuel(name: ResourceLocation?, input: Ingredient, cookTime: int)
      requires name != null
      requires Valid()
      modifies this
      ensures Valid()
      ensures recipes == old(recipes)
      ensures input.Apply(EMPTY) ==> fuels == old(fuels)
      ensures !input.Apply(EMPTY) ==> fuels == old(fuels) + [Fuel(name, input, cookTime)]
    {
      if !input.Apply(EMPTY) {
        fuels := fuels + [Fuel(name, input, cookTime)];
      }
    }

    /** Appends a recipe unless its input accepts the empty stack, in which case
        the call is a no-op (the source only logs a warning). */
    method AddRecipe(name: ResourceLocation?, input: Ingredient, cookTime: int,
                     output: Stack, slagOutput: int)
      requires name != null
      requires Valid()
      modifies this
      ensures Valid()
      ensures fuels == old(fuels)
      ensures input.Apply(EMPTY) ==> recipes == old(recipes)
      ensures !input.Apply(EMPTY) ==>
        recipes == old(recipes) + [Recipe(name, input, cookTime, output, slagOutput)]
    {
      if !input.Apply(EMPTY) {
        recipes := recipes + [Recipe(name, input, cookTime, output, slagOutput)];
      }
    }

    /** The registered recipes, in registration order. */
    function GetRecipes(): (r: seq<Recipe>)
      reads this
      requires Valid()
      ensures r == recipes
      ensures forall i :: 0 <= i < |r| ==> !r[i].input.Apply(EMPTY)
    {
      recipes
    }

    /** The registered fuels, in registration order. */
    function GetFuels(): (r: seq<Fuel>)
      reads this
      requires Valid()
      ensures r == fuels
      ensures forall i :: 0 <= i < |r| ==> !r[i].input.Apply(EMPTY)
    {
      fuels
    }

    /** Cook time of the first registered fuel accepting `s`, else 0. */
    function GetCookTime(s: Stack): (t: int)
      reads this
      requires Valid()
      ensures t == CookTime(fuels, s)
      ensures s == EMPTY ==> t == 0
    {
      CookTime(fuels, s)
    }

    /** The first registered recipe accepting `s`, if any. */
    function GetRecipe(s: Stack): (r: Option<Recipe>)
      reads this
      requires Valid()
      ensures r == FindRecipe(recipes, s)
      ensures s == EMPTY ==> r == None
    {
      FindRecipe(recipes, s)
    }
  }
}
