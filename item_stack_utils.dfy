/**
 * ItemStackUtils: which item a block state picks as, and which held stack (or hand, or bit state)
 * a player's two hands supply for each kind of tool.
 *
 * Blocks, items and stacks are modelled by the parts these rules look at: a block's kind and its
 * own item, an item's kind and the tool interfaces it implements, a stack's item, count and (for
 * bit items) the bit state it carries.
 */
module ItemStackUtils {
  import opened Wrappers
  import opened WorldArea
  import opened JavaInt

  /** The tool interfaces the hand-selection rules test for. */
  datatype ItemTrait = WithModeItem | WithHighlightItem | MultiStateItem | PatternItem | BitItem

  /** The vanilla items getItem names. */
  datatype VanillaItem = LavaBucket | WheatSeeds | FlintAndSteel | FlowerPot | Bamboo

  datatype Item =
    | AirItem
    | Vanilla(which: VanillaItem)
    /** A block's item (Blocks.DIRT.asItem(), block.asItem()); `state` is the block's default state. */
    | BlockItem(block: nat, state: BlockState)
    /** A filled bucket of a fluid (FluidUtil.getFilledBucket). */
    | FilledBucket(fluid: nat)
    /** Any other item, with the tool interfaces it implements. */
    | Tool(id: nat, traits: set<ItemTrait>)

  /** The block ids the rules name. */
  const DIRT_BLOCK: nat := 3

  /** The kinds of block getItem distinguishes, in its test order. */
  datatype BlockKind =
    | Lava
    /** A crop, with the item its getCloneItemStack yields (AirItem when that stack is empty). */
    | Crops(cloneItem: Item)
    | Farmland
    | GrassPath
    | Fire
    | FlowerPotBlock
    | BambooSapling
    /** A Forge fluid block (IFluidBlock) of the given fluid. */
    | FluidBlock(fluid: nat)
    | OtherBlock

  /** A block: its kind and its own item (block.asItem(), AirItem when it has none). */
  datatype Block = Block(kind: BlockKind, asItem: Item)

  datatype ItemStack = ItemStack(item: Item, count: I32, bitState: BlockState)

  const EMPTY: ItemStack := ItemStack(AirItem, 0, AIR)

  predicate IsEmpty(s: ItemStack) {
    s.item == AirItem || s.count <= 0
  }

  /** getItem() instanceof the trait's interface: getItem() reads as air for an empty stack. */
  predicate HasTrait(s: ItemStack, t: ItemTrait) {
    !IsEmpty(s) && s.item.Tool? && t in s.item.traits
  }

  datatype Player = Player(mainHand: ItemStack, offHand: ItemStack, creative: bool, crouching: bool)

  datatype Hand = MainHand | OffHand

  /**
   * getItem: lava gives a lava bucket, a crop its clone item (wheat seeds when that is empty),
   * farmland and grass path dirt, fire flint and steel, a flower pot the flower pot item, a bamboo
   * sapling bamboo, and any other block its own item.
   */
  function GetItem(b: Block): (r: Item)
    ensures r == AirItem ==> b.asItem == AirItem && (b.kind.FluidBlock? || b.kind.OtherBlock?)
    ensures b.kind.Lava? ==> r == Vanilla(LavaBucket)
    ensures b.kind.Crops? ==> r != AirItem
    ensures b.kind.Crops? ==> r == (if b.kind.cloneItem != AirItem then b.kind.cloneItem else Vanilla(WheatSeeds))
    ensures b.kind.Farmland? || b.kind.GrassPath? ==> r == BlockItem(DIRT_BLOCK, DIRT_DEFAULT)
    ensures b.kind.Fire? ==> r == Vanilla(FlintAndSteel)
    ensures b.kind.FlowerPotBlock? ==> r == Vanilla(FlowerPot)
    ensures b.kind.BambooSapling? ==> r == Vanilla(Bamboo)
    ensures b.kind.FluidBlock? || b.kind.OtherBlock? ==> r == b.asItem
  {
    match b.kind
    case Lava => Vanilla(LavaBucket)
    case Crops(clone) => if clone != AirItem then clone else Vanilla(WheatSeeds)
    case Farmland => BlockItem(DIRT_BLOCK, DIRT_DEFAULT)
    case GrassPath => BlockItem(DIRT_BLOCK, DIRT_DEFAULT)
    case Fire => Vanilla(FlintAndSteel)
    case FlowerPotBlock => Vanilla(FlowerPot)
    case BambooSapling => Vanilla(Bamboo)
    case FluidBlock(_) => b.asItem
    case OtherBlock => b.asItem
  }

  /** Dirt's default state id. */
  const DIRT_DEFAULT: BlockState := 10

  /**
   * The blocks that pick as something other than their own item: whatever item the block itself
   * has, pick block yields one of the substitute item (dirt, flint and steel, a flower pot, bamboo,
   * or a crop's seeds), never the block's own stack.
   */
  lemma SpecialBlocksPickOtherItems(b: Block)
    requires b.kind.Farmland? || b.kind.GrassPath? || b.kind.Fire? || b.kind.FlowerPotBlock? || b.kind.BambooSapling? || b.kind.Crops?
    ensures GetItem(b) != AirItem
    ensures b.kind.Farmland? || b.kind.GrassPath? ==> GetItemStackFromBlockState(b) == ItemStack(BlockItem(DIRT_BLOCK, DIRT_DEFAULT), 1, AIR)
    ensures b.kind.Fire? ==> GetItemStackFromBlockState(b) == ItemStack(Vanilla(FlintAndSteel), 1, AIR)
    ensures b.kind.FlowerPotBlock? ==> GetItemStackFromBlockState(b) == ItemStack(Vanilla(FlowerPot), 1, AIR)
    ensures b.kind.BambooSapling? ==> GetItemStackFromBlockState(b) == ItemStack(Vanilla(Bamboo), 1, AIR)
    ensures b.kind.Crops? && b.kind.cloneItem == AirItem ==> GetItemStackFromBlockState(b) == ItemStack(Vanilla(WheatSeeds), 1, AIR)
    ensures b.kind.Crops? && b.kind.cloneItem != AirItem ==> GetItemStackFromBlockState(b) == ItemStack(b.kind.cloneItem, 1, AIR)
    ensures !IsEmpty(GetItemStackFromBlockState(b))
  {
  }

  /**
   * getItemStackFromBlockState (pick block): a filled bucket for a fluid block, otherwise one of
   * getItem's item, or one of the block itself when getItem gives air.
   */
  function GetItemStackFromBlockState(b: Block): (r: ItemStack)
    ensures r.count == 1 && r.bitState == AIR
    ensures b.kind.FluidBlock? ==> r.item == FilledBucket(b.kind.fluid)
    ensures !b.kind.FluidBlock? && GetItem(b) != AirItem ==> r.item == GetItem(b)
    ensures IsEmpty(r) <==> !b.kind.FluidBlock? && GetItem(b) == AirItem && b.asItem == AirItem
  {
    if b.kind.FluidBlock? then ItemStack(FilledBucket(b.kind.fluid), 1, AIR)
    else
      var item := GetItem(b);
      if item != AirItem then ItemStack(item, 1, AIR)
      else ItemStack(b.asItem, 1, AIR)
  }

  /**
   * The get*ItemStackFromPlayer family (mode, highlight, multi-state, pattern and bit items):
   * the main-hand stack when its item has the trait, else the off-hand stack when its item has
   * it, else the empty stack; the empty stack for a missing player.
   */
  function ItemStackFromPlayer(player: Option<Player>, t: ItemTrait): (r: ItemStack)
    ensures player.None? ==> r == EMPTY
    ensures r == EMPTY || HasTrait(r, t)
    ensures player.Some? && HasTrait(player.value.mainHand, t) ==> r == player.value.mainHand
    ensures player.Some? && !HasTrait(player.value.mainHand, t) ==>
              r == (if HasTrait(player.value.offHand, t) then player.value.offHand else EMPTY)
  {
    match player
    case None => EMPTY
    case Some(p) =>
      if HasTrait(p.mainHand, t) then p.mainHand
      else if HasTrait(p.offHand, t) then p.offHand
      else EMPTY
  }

  /** getPatternHandFromPlayer: the off hand whenever it holds a pattern, else the main hand. */
  function PatternHandFromPlayer(player: Option<Player>): (h: Hand)
    ensures h == OffHand <==> player.Some? && HasTrait(player.value.offHand, PatternItem)
  {
    match player
    case None => MainHand
    case Some(p) => if HasTrait(p.offHand, PatternItem) then OffHand else MainHand
  }

  /**
   * The two pattern rules disagree when both hands hold a pattern: the stack comes from the main
   * hand while the hand reported is the off hand.
   */
  lemma PatternHandDisagreesWithPatternStack(p: Player)
    requires HasTrait(p.mainHand, PatternItem) && HasTrait(p.offHand, PatternItem)
    requires p.mainHand != p.offHand
    ensures ItemStackFromPlayer(Some(p), PatternItem) == p.mainHand
    ensures PatternHandFromPlayer(Some(p)) == OffHand
    ensures ItemStackFromPlayer(Some(p), PatternItem) != HandStack(p, PatternHandFromPlayer(Some(p)))
  {
  }

  /**
   * An empty stack holds no tool, whatever its item: hands holding only empty stacks supply the
   * empty stack for every trait, the main hand for patterns, and air as the bit state.
   */
  lemma EmptyHandsHoldNothing(p: Player, t: ItemTrait)
    requires IsEmpty(p.mainHand) && IsEmpty(p.offHand)
    ensures ItemStackFromPlayer(Some(p), t) == EMPTY
    ensures PatternHandFromPlayer(Some(p)) == MainHand
    ensures HeldBitBlockStateFromPlayer(Some(p)) == AIR
  {
  }

  function HandStack(p: Player, h: Hand): ItemStack {
    if h == MainHand then p.mainHand else p.offHand
  }

  /** getHeldBitBlockStateFromPlayer: the bit state of the main-hand bit item, else of the off-hand one, else air. */
  function HeldBitBlockStateFromPlayer(player: Option<Player>): (s: BlockState)
    ensures player.None? ==> s == AIR
    ensures player.Some? && !HasTrait(player.value.mainHand, BitItem) && !HasTrait(player.value.offHand, BitItem) ==> s == AIR
  {
    match player
    case None => AIR
    case Some(p) =>
      if HasTrait(p.mainHand, BitItem) then p.mainHand.bitState
      else if HasTrait(p.offHand, BitItem) then p.offHand.bitState
      else AIR
  }

  /** The held bit state is the bit state of the stack getBitItemStackFromPlayer selects. */
  lemma HeldBitStateMatchesBitStack(player: Option<Player>)
    ensures var st := ItemStackFromPlayer(player, BitItem);
            HeldBitBlockStateFromPlayer(player) == (if HasTrait(st, BitItem) then st.bitState else AIR)
  {
  }

  /** getStateFromItem: a non-empty block item's default state, air for everything else. */
  function StateFromItem(s: ItemStack): (r: BlockState)
    ensures r != AIR ==> s.item.BlockItem? && r == s.item.state && !IsEmpty(s)
    ensures !IsEmpty(s) && s.item.BlockItem? ==> r == s.item.state
  {
    if !IsEmpty(s) && s.item.BlockItem? then s.item.state else AIR
  }
}
