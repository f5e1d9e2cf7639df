/** The rail item: six rail variants distinguished by damage value, their
    icons, localisation keys and creative-list entries. */
module Items {
  import opened Wrappers
  import opened Minecraft

  /** The rail variants, in declaration (ordinal) order. */
  datatype EnumRail = Standard | Advanced | Wood | Speed | Reinforced | Electric
  {
    /** The Java constant's `name()`. */
    function Name(): string {
      match this
      case Standard => "STANDARD"
      case Advanced => "ADVANCED"
      case Wood => "WOOD"
      case Speed => "SPEED"
      case Reinforced => "REINFORCED"
      case Electric => "ELECTRIC"
    }

    /** The ore-dictionary tag external recipes may use in place of this rail. */
    function Alternate(): string {
      match this
      case Standard => "ingotIron"
      case Advanced => "ingotGold"
      case Wood => "slabWood"
      case Speed => "ingotSteel"
      case Reinforced => "ingotSteel"
      case Electric => "ingotCopper"
    }

    /** The position of this variant in `VALUES`, which is also its damage value. */
    function Ordinal(): (i: nat)
      ensures i < |VALUES| && VALUES[i] == this
    {
      match this
      case Standard => 0
      case Advanced => 1
      case Wood => 2
      case Speed => 3
      case Reinforced => 4
      case Electric => 5
    }
  }

  /** `EnumRail.VALUES`. */
  const VALUES: seq<EnumRail> := [Standard, Advanced, Wood, Speed, Reinforced, Electric]

  /** The table of variants and their alternates, in order. */
  lemma VariantTable()
    ensures |VALUES| == 6
    ensures forall i :: 0 <= i < |VALUES| ==> VALUES[i].Ordinal() == i
    ensures forall r: EnumRail :: r in VALUES
    ensures seq(|VALUES|, i requires 0 <= i < |VALUES| => VALUES[i].Name()) ==
      ["STANDARD", "ADVANCED", "WOOD", "SPEED", "REINFORCED", "ELECTRIC"]
    ensures seq(|VALUES|, i requires 0 <= i < |VALUES| => VALUES[i].Alternate()) ==
      ["ingotIron", "ingotGold", "slabWood", "ingotSteel", "ingotSteel", "ingotCopper"]
  {
    forall r: EnumRail ensures r in VALUES {
      assert VALUES[r.Ordinal()] == r;
    }
  }

  /** `initItem` registers the metas below this bound only. */
  const INIT_ITEM_METAS: nat := 5

  const TEXTURE_PREFIX: string := "railcraft:part.rail."
  const LOCALISATION_PREFIX: string := "item.railcraft.part.rail."

  /** English-locale lower-casing of one character (only ASCII letters change). */
  function LowerChar(c: char): char {
    if 'A' <= c <= 'Z' then (c as int - 'A' as int + 'a' as int) as char else c
  }

  /** `toLowerCase(Locale.ENGLISH)` over the ASCII range. */
  function ToLowerCase(s: string): (r: string)
    ensures |r| == |s|
    ensures forall i :: 0 <= i < |s| ==> r[i] == LowerChar(s[i])
  {
    if s == [] then [] else [LowerChar(s[0])] + ToLowerCase(s[1..])
  }

  /** The lower-cased name of each variant. */
  lemma {:induction false} LowerCaseName(r: EnumRail)
    ensures ToLowerCase(r.Name()) ==
      match r
      case Standard => "standard"
      case Advanced => "advanced"
      case Wood => "wood"
      case Speed => "speed"
      case Reinforced => "reinforced"
      case Electric => "electric"
  {
    var lower := ToLowerCase(r.Name());
    match r
    case Standard => assert lower == "standard";
    case Advanced => assert lower == "advanced";
    case Wood => assert lower == "wood";
    case Speed => assert lower == "speed";
    case Reinforced => assert lower == "reinforced";
    case Electric => assert lower == "electric";
  }

  /** The texture the icon of `r` is registered under. */
  function TextureKey(r: EnumRail): string {
    TEXTURE_PREFIX + ToLowerCase(r.Name())
  }

  /** The texture key of each variant, written out: the names the host's
      texture atlas must hold. */
  lemma TextureKeys(r: EnumRail)
    ensures TextureKey(r) == "railcraft:part.rail." +
      match r
      case Standard => "standard"
      case Advanced => "advanced"
      case Wood => "wood"
      case Speed => "speed"
      case Reinforced => "reinforced"
      case Electric => "electric"
  {
    LowerCaseName(r);
  }

  /** The variant a damage value selects, falling back to STANDARD when out of range. */
  function RailOf(damage: int): (r: EnumRail)
    ensures 0 <= damage < |VALUES| ==> r.Ordinal() == damage
    ensures !(0 <= damage < |VALUES|) ==> r == Standard
  {
    if damage < 0 || damage >= |VALUES| then Standard else VALUES[damage]
  }

  /** `getUnlocalizedName`: the localisation key for a stack's damage value,
      or the empty string when the damage names no variant. */
  function UnlocalizedName(stack: Stack): (key: string)
    ensures !(0 <= stack.damage < |VALUES|) ==> key == ""
    ensures 0 <= stack.damage < |VALUES| ==>
      key == LOCALISATION_PREFIX + ToLowerCase(VALUES[stack.damage].Name())
  {
    var damage := stack.damage;
    if damage < 0 || damage >= |VALUES| then ""
    else
      LowerCaseName(VALUES[damage]);
      match VALUES[damage]
      case Standard => "item.railcraft.part.rail.standard"
      case Advanced => "item.railcraft.part.rail.advanced"
      case Wood => "item.railcraft.part.rail.wood"
      case Speed => "item.railcraft.part.rail.speed"
      case Reinforced => "item.railcraft.part.rail.reinforced"
      case Electric => "item.railcraft.part.rail.electric"
  }

  /** The localisation key and the texture key of a variant end in the same suffix. */
  lemma KeySuffixesAgree(r: EnumRail, stack: Stack)
    requires stack.damage == r.Ordinal()
    ensures UnlocalizedName(stack)[|LOCALISATION_PREFIX|..] == TextureKey(r)[|TEXTURE_PREFIX|..]
  {
  }

  /** The stacks of one item with metas `0 .. n-1`, one of each, in increasing order. */
  function MetaStacks(id: ItemId, n: nat): (r: seq<Stack>)
    ensures |r| == n
    ensures forall k :: 0 <= k < n ==> r[k] == Stack(id, 1, k)
  {
    if n == 0 then [] else MetaStacks(id, n - 1) + [Stack(id, 1, n - 1)]
  }

  /** Every variant is listed in the creative list, but ELECTRIC is never
      registered by `initItem`. */
  lemma ElectricListedButNotRegistered(id: ItemId)
    ensures forall r: EnumRail :: Stack(id, 1, r.Ordinal()) in MetaStacks(id, |VALUES|)
    ensures Stack(id, 1, Electric.Ordinal()) !in MetaStacks(id, INIT_ITEM_METAS)
    ensures forall r: EnumRail :: r != Electric ==> Stack(id, 1, r.Ordinal()) in MetaStacks(id, INIT_ITEM_METAS)
  {
  }

  /** The rail item. The `icon` field of each `EnumRail` constant is kept in
      `icons`, indexed by ordinal; `None` stands for an icon not yet registered. */
  class ItemRail {
    const id: ItemId
    const icons: array<Option<Icon>>

    ghost predicate Valid()
      reads this
    {
      icons.Length == |VALUES|
    }

    constructor (id: ItemId)
      ensures Valid() && fresh(icons)
      ensures this.id == id
      ensures forall i :: 0 <= i < icons.Length ==> icons[i] == None
    {
      this.id := id;
      icons := new Option<Icon>[|VALUES|](_ => None);
    }

    /** `initItem`: the stacks handed to the host registry, in order. */
    method InitItem() returns (registered: seq<Stack>)
      ensures registered == MetaStacks(id, INIT_ITEM_METAS)
    {
      registered := [];
      for meta := 0 to INIT_ITEM_METAS
        invariant registered == MetaStacks(id, meta)
      {
        registered := registered + [Stack(id, 1, meta)];
      }
    }

    /** `registerIcons`: gives every variant the icon registered under its texture key. */
    method RegisterIcons(register: string -> Icon)
      requires Valid()
      modifies icons
      ensures forall i :: 0 <= i < |VALUES| ==> icons[i] == Some(register(TextureKey(VALUES[i])))
      ensures forall d :: IconFromDamage(d) == Some(register(TextureKey(RailOf(d))))
    {
      for i := 0 to |VALUES|
        invariant forall k :: 0 <= k < i ==> icons[k] == Some(register(TextureKey(VALUES[k])))
      {
        icons[i] := Some(register(TextureKey(VALUES[i])));
      }
    }

    /** `getSubItems`: appends one stack per variant to the caller's list. */
    method GetSubItems(list: StackList)
      modifies list
      ensures list.items == old(list.items) + MetaStacks(id, |VALUES|)
    {
      for i := 0 to |VALUES|
        invariant list.items == old(list.items) + MetaStacks(id, i)
      {
        list.items := list.items + [Stack(id, 1, i)];
      }
    }

    /** `getIconFromDamage`: the icon of the variant the damage selects,
        STANDARD's for a damage outside the table. */
    function IconFromDamage(damage: int): (icon: Option<Icon>)
      reads this, icons
      requires Valid()
      ensures 0 <= damage < |VALUES| ==> icon == icons[damage]
      ensures !(0 <= damage < |VALUES|) ==> icon == icons[Standard.Ordinal()]
    {
      if damage < 0 || damage >= |VALUES| then icons[Standard.Ordinal()] else icons[damage]
    }
  }
}
