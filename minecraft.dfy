/** Host (game engine) value types that the mod consumes opaquely: item stacks,
    ingredient matchers, resource names, icons and the caller-owned stack list. */
module Minecraft {

  /** Registry identity of an item type. */
  type ItemId = string

  /** The identity of the empty item. */
  const AIR: ItemId := "minecraft:air"

  /** The value of an item stack: item type, stack size and damage (metadata). */
  datatype Stack = Stack(item: ItemId, count: int, damage: int)

  /** `ItemStack.EMPTY`. */
  const EMPTY: Stack := Stack(AIR, 0, 0)

  /** A mutable item stack object, as the host hands it out. */
  class ItemStack {
    var item: ItemId
    var count: int
    var damage: int

    function Value(): Stack
      reads this
    {
      Stack(item, count, damage)
    }

    constructor (s: Stack)
      ensures Value() == s
    {
      item, count, damage := s.item, s.count, s.damage;
    }
  }

  /** A crafting-ingredient matcher: an opaque predicate over stacks. */
  datatype Ingredient = Ingredient(accepts: Stack -> bool) {

    /** `Ingredient.apply` / `Ingredient.test`. */
    predicate Apply(s: Stack) {
      accepts(s)
    }
  }

  /** A namespaced resource name, an immutable host object compared by reference. */
  class ResourceLocation {
    const domain: string
    const path: string

    constructor (domain: string, path: string)
      ensures this.domain == domain && this.path == path
    {
      this.domain, this.path := domain, path;
    }
  }

  /** An icon token handed out by the host's icon register. */
  datatype Icon = Icon(handle: nat)

  /** A caller-owned, growable list of stacks (a `java.util.List` of `ItemStack`). */
  class StackList {
    var items: seq<Stack>

    constructor (items: seq<Stack>)
      ensures this.items == items
    {
      this.items := items;
    }
  }
}
