# Railcraft blast furnace registry and rail item, modelled in Dafny

This project models two pieces of the Railcraft mod.

- **`BlastFurnaceCrafter`** (module `Crafting`) is a singleton registry. It holds two
  append-only lists, fuels and recipes. `AddFuel` and `AddRecipe` drop any entry whose
  input ingredient accepts the empty item stack. Every other entry is appended at the end.
  `GetCookTime` and `GetRecipe` scan the lists in registration order and return the first
  match: the cook time of the first fuel, or 0 if none matches; the first recipe, or none.
  A stored recipe's `GetOutput` returns a new stack object equal to the registered output.
- **`ItemRail`** (module `Items`) is a rail item with six variants: STANDARD, ADVANCED,
  WOOD, SPEED, REINFORCED and ELECTRIC. Each variant has an ore-dictionary alternate tag
  and a mutable icon field. The module covers icon registration, listing the variants
  for the creative menu, icon lookup by damage value and localisation-key lookup by
  damage value. `initItem` registers metas 0–4 only, while the creative list and both
  lookups cover all six variants. The model keeps this as written.
  `ElectricListedButNotRegistered` proves that ELECTRIC is listed but never registered.

The host engine's types are modelled in module `Minecraft`:
- an item stack value `Stack` with the distinguished `EMPTY`;
- a mutable `ItemStack` object;
- `Ingredient`, an opaque total predicate over stacks;
- `ResourceLocation`, an immutable object that may be null;
- `Icon`, an opaque token;
- `StackList`, the caller-owned list.

The icon register is passed in as a function parameter. The host registry that
`initItem` calls is modelled by returning the stacks it would register.

## Model

| member | source | states |
|---|---|---|
| Crafting.FirstMatch | src/main/java/mods/railcraft/common/util/crafting/BlastFurnaceCrafter.java:131-144 | `filter(p).findFirst()`: the result is the lowest index whose element satisfies the filter, or none exactly when no element does |
| Crafting.FirstMatchAppend | src/main/java/mods/railcraft/common/util/crafting/BlastFurnaceCrafter.java:131-144 | appending an entry never changes an existing first match; the new entry is found only when nothing before it matches |
| Crafting.CookTime | src/main/java/mods/railcraft/common/util/crafting/BlastFurnaceCrafter.java:131-137 | the result is the cook time of the lowest-index fuel accepting the stack, or 0 when no fuel accepts it |
| Crafting.FindRecipe | src/main/java/mods/railcraft/common/util/crafting/BlastFurnaceCrafter.java:140-144 | the result is the lowest-index recipe accepting the stack; it is absent exactly when no recipe accepts it |
| Crafting.CookTimeAfterAppend | src/main/java/mods/railcraft/common/util/crafting/BlastFurnaceCrafter.java:131-137 | insertion order is priority: after appending a fuel, the cook time is unchanged for any stack an earlier fuel accepts; otherwise it is the new fuel's time if the new fuel accepts the stack, else 0 |
| Crafting.FindRecipeAfterAppend | src/main/java/mods/railcraft/common/util/crafting/BlastFurnaceCrafter.java:140-144 | the same priority rule for recipes: the result is unchanged where an earlier recipe matches; otherwise it is the new recipe or none |
| Crafting.EarlierFuelWins | src/main/java/mods/railcraft/common/util/crafting/BlastFurnaceCrafter.java:131-137 | when two fuels registered in turn both accept a stack that no earlier fuel accepts, the first-registered fuel's cook time is returned |
| Crafting.Recipe.GetOutput | src/main/java/mods/railcraft/common/util/crafting/BlastFurnaceCrafter.java:105-108 | every call returns a newly allocated stack object whose value equals the registered output |
| Crafting.BlastFurnaceCrafter.constructor | src/main/java/mods/railcraft/common/util/crafting/BlastFurnaceCrafter.java:33-36 | the singleton starts with both lists empty, so the invariant holds: no stored entry accepts EMPTY |
| Crafting.BlastFurnaceCrafter.AddFuel | src/main/java/mods/railcraft/common/util/crafting/BlastFurnaceCrafter.java:60-83 | the name must be non-null. If the input accepts EMPTY, the fuels are unchanged. Otherwise exactly one fuel (name, input, cook time) is appended at the end. The recipes are never touched, and the invariant is kept |
| Crafting.BlastFurnaceCrafter.AddRecipe | src/main/java/mods/railcraft/common/util/crafting/BlastFurnaceCrafter.java:85-118 | the name must be non-null. If the input accepts EMPTY, the recipes are unchanged. Otherwise exactly one recipe (name, input, cook time, output, slag) is appended at the end. The fuels are never touched, and the invariant is kept |
| Crafting.BlastFurnaceCrafter.GetRecipes | src/main/java/mods/railcraft/common/util/crafting/BlastFurnaceCrafter.java:120-123 | returns the recipes in registration order; none of them accepts EMPTY |
| Crafting.BlastFurnaceCrafter.GetFuels | src/main/java/mods/railcraft/common/util/crafting/BlastFurnaceCrafter.java:125-128 | returns the fuels in registration order; none of them accepts EMPTY |
| Crafting.BlastFurnaceCrafter.GetCookTime | src/main/java/mods/railcraft/common/util/crafting/BlastFurnaceCrafter.java:130-137 | the first-match cook time over the stored fuels; 0 for the empty stack, because of the invariant; reads only |
| Crafting.BlastFurnaceCrafter.GetRecipe | src/main/java/mods/railcraft/common/util/crafting/BlastFurnaceCrafter.java:139-144 | the first matching stored recipe; absent for the empty stack, because of the invariant; reads only |
| Items.EnumRail.Ordinal | src/main/java/mods/railcraft/common/items/ItemRail.java:33-34 | each variant's ordinal indexes `VALUES` back to that variant |
| Items.VariantTable | src/main/java/mods/railcraft/common/items/ItemRail.java:33-45 | the table has exactly 6 variants in declaration order, holds every variant, has the names (`name()`, modelled by `EnumRail.Name`) STANDARD, ADVANCED, WOOD, SPEED, REINFORCED, ELECTRIC and the alternates (`getAlternate()`, modelled by `EnumRail.Alternate`) ingotIron, ingotGold, slabWood, ingotSteel, ingotSteel, ingotCopper, in that order |
| Items.TextureKeys | src/main/java/mods/railcraft/common/items/ItemRail.java:73 | the texture key `TextureKey` builds for each variant ("railcraft:part.rail." + lower-cased `name()`) is written out: "railcraft:part.rail." followed by standard, advanced, wood, speed, reinforced or electric |
| Items.ToLowerCase | src/main/java/mods/railcraft/common/items/ItemRail.java:73 | lower-casing keeps the length and lower-cases each character |
| Items.LowerCaseName | src/main/java/mods/railcraft/common/items/ItemRail.java:73 | each variant's lower-cased name is the word used in its localisation key |
| Items.RailOf | src/main/java/mods/railcraft/common/items/ItemRail.java:89-93 | a damage value in [0, 6) selects the variant with that ordinal; any other value falls back to STANDARD |
| Items.UnlocalizedName | src/main/java/mods/railcraft/common/items/ItemRail.java:96-116 | a damage value outside [0, 6) gives ""; a damage value inside it gives "item.railcraft.part.rail." + the lower-cased variant name |
| Items.KeySuffixesAgree | src/main/java/mods/railcraft/common/items/ItemRail.java:100-112 | for every variant, the localisation key after its prefix equals the texture key after its prefix |
| Items.MetaStacks | src/main/java/mods/railcraft/common/items/ItemRail.java:78-82 | n stacks of the item, count 1, with metas 0..n-1 in increasing order |
| Items.ElectricListedButNotRegistered | src/main/java/mods/railcraft/common/items/ItemRail.java:63-67 | every variant's meta appears in the creative list; ELECTRIC's meta 5 is not registered by `initItem`; every other variant's meta is |
| Items.ItemRail.constructor | src/main/java/mods/railcraft/common/items/ItemRail.java:35 | no variant has an icon before registration |
| Items.ItemRail.InitItem | src/main/java/mods/railcraft/common/items/ItemRail.java:62-68 | registers exactly the stacks with metas 0..4, in order |
| Items.ItemRail.RegisterIcons | src/main/java/mods/railcraft/common/items/ItemRail.java:71-75 | afterwards, every variant's icon is the one registered under "railcraft:part.rail." + its lower-cased name, and the icon lookup for every damage value returns the icon of the variant that value selects |
| Items.ItemRail.GetSubItems | src/main/java/mods/railcraft/common/items/ItemRail.java:78-82 | appends exactly 6 stacks with metas 0..5 in increasing order and leaves the list's existing contents unchanged |
| Items.ItemRail.IconFromDamage | src/main/java/mods/railcraft/common/items/ItemRail.java:89-93 | the icon of `VALUES[d]` for d in [0, 6); STANDARD's icon otherwise |

## Left out

- `postInit` is not modelled. It registers fuels from other mods' items and other Railcraft registries, which are not part of this model.
- The convenience overloads `addFuel(IRailcraftObjectContainer)`, `addFuel(String, ItemStack)` and `addFuel(ResourceLocation, ItemStack)` are not modelled. They rely on the host's burn-time table, wildcard stacks and a stack-to-ingredient conversion, none of which are part of this model.
- Crafting.BlastFurnaceCrafter.GetRecipes and Crafting.BlastFurnaceCrafter.GetFuels return the lists as plain values. The source returns remove-only views, and the helper that builds those views is not part of this model.
- `Ingredient.apply`/`test` is an opaque total predicate, and `ItemStack.copy` is a value copy. Their host implementations are not part of this model.
- The warning logged on a rejected registration is not modelled. The rejection branch is a no-op.
- Crafting.Recipe.GetOutput copies a template held as a value. The source captures the caller's `ItemStack` object when the recipe is added. If the caller later mutates that object, the source's template changes too; this model does not capture that aliasing.
- The host side effects of `initItem` are not modelled. Item-registry registration becomes the returned sequence of stacks. The loot-table registration is dropped.
- The `ItemRail` constructor's `setHasSubtypes`/`setMaxDamage` calls, the empty `defineRecipes`, and `getItemClass` are not modelled. They are host configuration with no logic.
- `getSubItems` ignores its `Item` and `CreativeTabs` parameters in the source, so the model omits them.
- Each `EnumRail` constant has its own mutable `icon` field. The model keeps these fields as one array indexed by ordinal, held by the `ItemRail` object. A null icon is `None`. In the source these fields are static state shared by every `ItemRail`, and constructing a new `ItemRail` does not reset them; in the model each `ItemRail` has its own array, which its constructor clears, so sharing of icons between item instances is not captured.
- Items.ToLowerCase lower-cases ASCII letters only, not the full Unicode mapping of `toLowerCase(Locale.ENGLISH)`. All variant names are ASCII.
- The alternate tag of each variant is a `string`. The source's field has type `Object`, but every value it holds is an ore-dictionary string.
- Thread safety of the singleton is not modelled. The host calls it from one thread.
- Cook times and slag amounts are Java `int`s. They are stored and returned unchanged, with no arithmetic, so 32-bit width plays no part.
