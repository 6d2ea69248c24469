/**
 * BitStorageBlockEntity: a single-slot store of up to one block's worth of bits of one kind,
 * either solid bits of a block state or fluid bits of a fluid.
 *
 * Its content is three fields, `state`, `myFluid` and `bits`, updated in place by insertion and
 * extraction. The pure functions below state what each operation makes of a content value
 * (`Store`); the class's methods update the fields as the code does and are proved to agree with
 * them. The fluid registry, the block-state id table, light values and chiselability are oracles.
 */
module BitStorageBlockEntity {
  import opened Wrappers
  import opened WorldArea
  import opened ItemStackUtils
  import opened JavaInt

  /** A fluid, as an opaque registry id. */
  type Fluid = nat

  /** The bits one block holds (StateEntrySize.current().getBitsPerBlock()). */
  const BITS_PER_BLOCK: int := 4096

  /** The mod's bit item: its stacks carry the bit state in their tag. */
  const BIT_ITEM: Item := Tool(0, {BitItem})

  function Min(a: int, b: int): int { if a <= b then a else b }

  /**
   * The fluid registry as the storage consults it: the legacy block state of a fluid's default
   * state, and the first registered fluid whose legacy block is the block of a given state.
   */
  datatype Registry = Registry(legacyBlock: Fluid -> BlockState, fluidOf: BlockState -> Option<Fluid>)

  /** Every fluid is found again from its own legacy block. */
  ghost predicate RegistryConsistent(reg: Registry) {
    forall g: Fluid :: reg.fluidOf(reg.legacyBlock(g)) == Some(g)
  }

  /** The storage's content: `state` and `myFluid` (null as None) and `bits`. */
  datatype Store = Store(state: Option<BlockState>, fluid: Option<Fluid>, bits: I32)

  const EMPTY_STORE: Store := Store(None, None, 0)

  /** The content the operations keep: at most a block of bits, and a fluid's state is its legacy block. */
  predicate ValidStore(reg: Registry, st: Store) {
    0 <= st.bits <= BITS_PER_BLOCK && (st.fluid.Some? ==> st.state == Some(reg.legacyBlock(st.fluid.value)))
  }

  /** ItemStack.getCount(): zero for an empty stack. */
  function Count(s: ItemStack): (n: nat)
    ensures n == 0 <==> IsEmpty(s)
  {
    if IsEmpty(s) then 0 else s.count
  }

  /** IBitItemManager.create(state, count). */
  function BitStack(s: BlockState, n: I32): ItemStack {
    ItemStack(BIT_ITEM, n, s)
  }

  /** ItemStack.tagMatches and the same item: the same bit item carrying the same bit state. */
  predicate SameBits(a: ItemStack, b: ItemStack) {
    a.item == b.item && a.bitState == b.bitState
  }

  /** getStackInSlot: the stored bits as a bit stack (fluid bits as their legacy block), else empty. */
  function SlotStack(reg: Registry, st: Store, slot: int): (r: ItemStack)
    ensures !IsEmpty(r) <==> st.bits > 0 && slot == 0 && (st.fluid.Some? || st.state.Some?)
    ensures !IsEmpty(r) ==> r.item == BIT_ITEM && r.count == st.bits
    ensures ValidStore(reg, st) && !IsEmpty(r) ==> st.state == Some(r.bitState)
  {
    if st.bits > 0 && slot == 0 && (st.fluid.Some? || st.state.Some?) then
      if st.fluid.Some? then BitStack(reg.legacyBlock(st.fluid.value), st.bits) else BitStack(st.state.value, st.bits)
    else EMPTY
  }

  /* ---------------------------------------------------------------- insertion */

  /**
   * The fluid path's acceptance test as the code makes it: the comparison stack is built from
   * the stored fluid only, so stored solid bits (no fluid) never block a fluid insertion.
   */
  function FluidAcceptsAsWritten(reg: Registry, st: Store, stack: ItemStack): (ok: bool)
    ensures st.fluid.None? ==> ok
  {
    var held := if st.fluid.None? then EMPTY else BitStack(reg.legacyBlock(st.fluid.value), st.bits);
    IsEmpty(held) || SameBits(held, stack) || st.state.None?
  }

  /**
   * The solid path's acceptance test as the code makes it: the comparison stack is built from the
   * incoming bit state itself, so a stack of the mod's bit item is always accepted.
   */
  function SolidAcceptsAsWritten(st: Store, stack: ItemStack): (ok: bool)
    ensures stack.item == BIT_ITEM ==> ok
  {
    var held := BitStack(stack.bitState, st.bits);
    IsEmpty(held) || SameBits(held, stack)
  }

  /** The intended acceptance test of both paths: the storage is empty or holds exactly these bits. */
  function Accepts(reg: Registry, st: Store, stack: ItemStack): (ok: bool)
    ensures ValidStore(reg, st) ==>
              (ok <==> st.bits == 0 || st.state.None? || (stack.item == BIT_ITEM && st.state == Some(stack.bitState)))
  {
    var held := SlotStack(reg, st, 0);
    IsEmpty(held) || SameBits(held, stack)
  }

  /**
   * Which acceptance test a storage runs: the code's own tests (`FluidAcceptsAsWritten`,
   * `SolidAcceptsAsWritten`) or the intended one (`Accepts`) on both paths.
   */
  datatype Acceptance = AsWritten | Intended

  /** The fluid path's acceptance under the given test. */
  function FluidAccepts(a: Acceptance, reg: Registry, st: Store, stack: ItemStack): (ok: bool)
    ensures a == AsWritten ==> (ok <==> FluidAcceptsAsWritten(reg, st, stack))
    ensures a == Intended ==> (ok <==> Accepts(reg, st, stack))
  {
    if a == AsWritten then FluidAcceptsAsWritten(reg, st, stack) else Accepts(reg, st, stack)
  }

  /** The solid path's acceptance under the given test. */
  function SolidAccepts(a: Acceptance, reg: Registry, st: Store, stack: ItemStack): (ok: bool)
    ensures a == AsWritten ==> (ok <==> SolidAcceptsAsWritten(st, stack))
    ensures a == Intended ==> (ok <==> Accepts(reg, st, stack))
  {
    if a == AsWritten then SolidAcceptsAsWritten(st, stack) else Accepts(reg, st, stack)
  }

  /** What an insertion leaves: the new content, the stack handed back, and whether saveAndUpdate ran. */
  datatype Insertion = Insertion(store: Store, rest: ItemStack, saved: bool)

  /** The part of `merged` bits that does not fit: a copy of the stack with the excess, or empty. */
  function Leftover(merged: I32, stack: ItemStack): (r: ItemStack)
    ensures stack.item != AirItem ==> Min(merged, BITS_PER_BLOCK) + Count(r) == merged
    ensures IsEmpty(r) <==> merged <= BITS_PER_BLOCK || stack.item == AirItem
  {
    var amount := Min(merged, BITS_PER_BLOCK);
    if amount < merged then ItemStack(stack.item, merged - amount, stack.bitState) else EMPTY
  }

  /**
   * attemptFluidBitStackInsertion with the acceptance verdict given: None when the bits are not a
   * fluid's or are not accepted (the stack itself is returned); otherwise the storage holds the
   * fluid and the merged count clamped to a block, unless simulating. The merged count is the
   * int sum `bits + getCount()`, which wraps.
   */
  function FluidAttempt(reg: Registry, st: Store, stack: ItemStack, simulate: bool, accepted: bool)
    : (r: Option<Insertion>)
    ensures r.Some? <==> reg.fluidOf(stack.bitState).Some? && accepted
    ensures r.Some? ==> r.value.rest == Leftover(Wrap32(st.bits + Count(stack)), stack)
    ensures r.Some? && !simulate ==>
              r.value.store == Store(Some(reg.legacyBlock(reg.fluidOf(stack.bitState).value)), reg.fluidOf(stack.bitState),
                                     Min(Wrap32(st.bits + Count(stack)), BITS_PER_BLOCK))
    ensures r.Some? && simulate ==> r.value.store == st && !r.value.saved
  {
    var f := reg.fluidOf(stack.bitState);
    if f.None? || !accepted then None
    else
      var merged := Wrap32(st.bits + Count(stack));
      var amount := Min(merged, BITS_PER_BLOCK);
      var after := Store(Some(reg.legacyBlock(f.value)), f, amount);
      Some(Insertion(if simulate then st else after, Leftover(merged, stack),
                     !simulate && (amount != st.bits || f != st.fluid || st.state.Some?)))
  }

  /**
   * attemptSolidBitStackInsertion with the acceptance verdict given: None when the bits are a
   * fluid's or are not accepted; otherwise the storage holds the incoming state, no fluid and
   * the merged count (the wrapping int sum) clamped to a block, unless simulating.
   */
  function SolidAttempt(reg: Registry, st: Store, stack: ItemStack, simulate: bool, accepted: bool)
    : (r: Option<Insertion>)
    ensures r.Some? <==> reg.fluidOf(stack.bitState).None? && accepted
    ensures r.Some? ==> r.value.rest == Leftover(Wrap32(st.bits + Count(stack)), stack)
    ensures r.Some? && !simulate ==> r.value.store == Store(Some(stack.bitState), None, Min(Wrap32(st.bits + Count(stack)), BITS_PER_BLOCK))
    ensures r.Some? && simulate ==> r.value.store == st && !r.value.saved
  {
    if reg.fluidOf(stack.bitState).Some? || !accepted then None
    else
      var merged := Wrap32(st.bits + Count(stack));
      var amount := Min(merged, BITS_PER_BLOCK);
      var after := Store(Some(stack.bitState), None, amount);
      Some(Insertion(if simulate then st else after, Leftover(merged, stack),
                     !simulate && (amount != st.bits || Some(stack.bitState) != st.state || st.fluid.Some?)))
  }

  /**
   * insertItem with the two acceptance verdicts given: a bit stack goes to the fluid path, then
   * the solid path; a chiselable block item fills an empty or air storage with a whole block of
   * its state (whether simulating or not); the stack is handed back whenever nothing took it.
   */
  function InsertWith(reg: Registry, chiselable: Item -> bool, st: Store, stack: ItemStack, simulate: bool,
                      fluidOk: bool, solidOk: bool): Insertion
  {
    if !IsEmpty(stack) && HasTrait(stack, BitItem) then
      match FluidAttempt(reg, st, stack, simulate, fluidOk)
      case Some(i) => i
      case None =>
        match SolidAttempt(reg, st, stack, simulate, solidOk)
        case Some(i) => i
        case None => Insertion(st, stack, false)
    else if !IsEmpty(stack) && chiselable(stack.item) && st.fluid.None? then
      var s := StateFromItem(stack);
      if s != AIR && (st.state.None? || st.state == Some(AIR)) then Insertion(Store(Some(s), st.fluid, BITS_PER_BLOCK), stack, false)
      else Insertion(st, stack, false)
    else Insertion(st, stack, false)
  }

  /** insertItem as the code decides acceptance. */
  function InsertAsWritten(reg: Registry, chiselable: Item -> bool, st: Store, stack: ItemStack, simulate: bool): Insertion
  {
    InsertWith(reg, chiselable, st, stack, simulate, FluidAcceptsAsWritten(reg, st, stack), SolidAcceptsAsWritten(st, stack))
  }

  /** insertItem with the intended acceptance test on both paths. */
  function Insert(reg: Registry, chiselable: Item -> bool, st: Store, stack: ItemStack, simulate: bool): Insertion
  {
    InsertWith(reg, chiselable, st, stack, simulate, Accepts(reg, st, stack), Accepts(reg, st, stack))
  }

  /** insertItem under the given acceptance test: the code's own, or the intended one. */
  function InsertBy(a: Acceptance, reg: Registry, chiselable: Item -> bool, st: Store, stack: ItemStack, simulate: bool)
    : (i: Insertion)
    ensures a == AsWritten ==> i == InsertAsWritten(reg, chiselable, st, stack, simulate)
    ensures a == Intended ==> i == Insert(reg, chiselable, st, stack, simulate)
  {
    InsertWith(reg, chiselable, st, stack, simulate, FluidAccepts(a, reg, st, stack), SolidAccepts(a, reg, st, stack))
  }

  /** The int sum `bits + getCount()` of an insertion does not wrap. */
  predicate NoOverflow(st: Store, stack: ItemStack) {
    st.bits + Count(stack) < 0x8000_0000
  }

  /** Inserting bits neither creates nor destroys any: what is stored plus what comes back is what there was. */
  lemma InsertConservesBits(reg: Registry, chiselable: Item -> bool, st: Store, stack: ItemStack)
    requires HasTrait(stack, BitItem) && NoOverflow(st, stack)
    ensures var i := Insert(reg, chiselable, st, stack, false);
            i.store.bits + Count(i.rest) == st.bits + Count(stack)
  {
  }

  /** A simulated bit insertion changes nothing and hands back what the real one would. */
  lemma SimulatedInsertMatches(reg: Registry, chiselable: Item -> bool, st: Store, stack: ItemStack)
    requires HasTrait(stack, BitItem)
    ensures Insert(reg, chiselable, st, stack, true).store == st
    ensures Insert(reg, chiselable, st, stack, true).rest == Insert(reg, chiselable, st, stack, false).rest
    ensures !Insert(reg, chiselable, st, stack, true).saved
  {
  }

  /** Insertion keeps the content valid: at most a block of bits, and a fluid's legacy block as state. */
  lemma InsertKeepsValid(reg: Registry, chiselable: Item -> bool, st: Store, stack: ItemStack, simulate: bool)
    requires ValidStore(reg, st) && NoOverflow(st, stack)
    ensures ValidStore(reg, Insert(reg, chiselable, st, stack, simulate).store)
  {
  }

  /**
   * A non-simulated accepted solid insertion sets bits to the clamped sum, clears the fluid and
   * takes the inserted state.
   */
  lemma SolidInsertSets(reg: Registry, chiselable: Item -> bool, st: Store, stack: ItemStack)
    requires !IsEmpty(stack) && HasTrait(stack, BitItem)
    requires reg.fluidOf(stack.bitState).None? && Accepts(reg, st, stack) && NoOverflow(st, stack)
    ensures Insert(reg, chiselable, st, stack, false).store ==
            Store(Some(stack.bitState), None, Min(st.bits + stack.count, BITS_PER_BLOCK))
  {
  }

  /** Stored bits keep their kind: an insertion into a storage holding bits never changes what it holds. */
  lemma InsertKeepsStoredKind(reg: Registry, chiselable: Item -> bool, st: Store, stack: ItemStack)
    requires RegistryConsistent(reg) && ValidStore(reg, st)
    requires st.fluid.None? && st.state.Some? ==> reg.fluidOf(st.state.value).None?
    requires st.bits > 0 && st.state.Some? && HasTrait(stack, BitItem)
    ensures Insert(reg, chiselable, st, stack, false).store.state == st.state
    ensures Insert(reg, chiselable, st, stack, false).store.fluid == st.fluid
  {
    var s := st.state.value;
    if !IsEmpty(stack) && Accepts(reg, st, stack) {
      assert stack.bitState == s;
      if st.fluid.Some? {
        assert reg.fluidOf(reg.legacyBlock(st.fluid.value)) == st.fluid;
      }
    }
  }

  /**
   * Any non-bit stack comes back as it was, under either acceptance test and whether simulating or
   * not; a chiselable block item with a non-air state fills a fluid-free storage that holds no state
   * or air with a whole block of that state, and every other non-bit stack leaves the storage as it
   * was.
   */
  lemma BlockItemInsertion(a: Acceptance, reg: Registry, chiselable: Item -> bool, st: Store, stack: ItemStack, simulate: bool)
    requires !HasTrait(stack, BitItem)
    ensures InsertBy(a, reg, chiselable, st, stack, simulate).rest == stack
    ensures !InsertBy(a, reg, chiselable, st, stack, simulate).saved
    ensures !IsEmpty(stack) && chiselable(stack.item) && st.fluid.None? && StateFromItem(stack) != AIR
            && (st.state.None? || st.state == Some(AIR)) ==>
              InsertBy(a, reg, chiselable, st, stack, simulate).store == Store(Some(StateFromItem(stack)), None, BITS_PER_BLOCK)
    ensures !(!IsEmpty(stack) && chiselable(stack.item) && st.fluid.None? && StateFromItem(stack) != AIR
              && (st.state.None? || st.state == Some(AIR))) ==>
              InsertBy(a, reg, chiselable, st, stack, simulate).store == st
  {
  }

  /**
   * The code's acceptance tests let bits of another kind into a storage that already holds bits:
   * five bits of state 2 turn 100 stored bits of state 1 into 105 bits of state 2, and five
   * bits of a fluid's block turn them into 105 fluid bits. The intended test refuses both.
   */
  lemma AsWrittenRelabelsStoredBits(reg: Registry, chiselable: Item -> bool)
    requires reg.fluidOf(1).None? && reg.fluidOf(2).None?
    requires reg.fluidOf(3) == Some(7) && reg.legacyBlock(7) == 3
    ensures InsertAsWritten(reg, chiselable, Store(Some(1), None, 100), BitStack(2, 5), false).store
            == Store(Some(2), None, 105)
    ensures InsertAsWritten(reg, chiselable, Store(Some(1), None, 100), BitStack(3, 5), false).store
            == Store(Some(3), Some(7), 105)
    ensures Insert(reg, chiselable, Store(Some(1), None, 100), BitStack(2, 5), false)
            == Insertion(Store(Some(1), None, 100), BitStack(2, 5), false)
    ensures Insert(reg, chiselable, Store(Some(1), None, 100), BitStack(3, 5), false)
            == Insertion(Store(Some(1), None, 100), BitStack(3, 5), false)
  {
    assert HasTrait(BitStack(2, 5), BitItem) && HasTrait(BitStack(3, 5), BitItem);
  }

  /**
   * insertBits under the given acceptance test: the count of what a solid insertion of `count`
   * bits of `s` hands back; without wrap-around, the bits that do not fit.
   */
  function InsertBitsRest(a: Acceptance, reg: Registry, st: Store, count: I32, s: BlockState, simulate: bool): (n: nat)
    ensures reg.fluidOf(s).Some? || !SolidAccepts(a, reg, st, BitStack(s, count)) ==> n == Count(BitStack(s, count))
    ensures reg.fluidOf(s).None? && SolidAccepts(a, reg, st, BitStack(s, count)) && NoOverflow(st, BitStack(s, count)) ==>
              n == if st.bits + Count(BitStack(s, count)) > BITS_PER_BLOCK then st.bits + Count(BitStack(s, count)) - BITS_PER_BLOCK else 0
  {
    var stack := BitStack(s, count);
    match SolidAttempt(reg, st, stack, simulate, SolidAccepts(a, reg, st, stack))
    case Some(i) => Count(i.rest)
    case None => Count(stack)
  }

  /**
   * The int sum wraps: topping one stored bit up with Integer.MAX_VALUE more leaves the storage
   * with a negative count and hands nothing back, under either acceptance test.
   */
  lemma InsertBitsWraps(a: Acceptance, reg: Registry)
    requires reg.fluidOf(1).None?
    ensures SolidAttempt(reg, Store(Some(1), None, 1), BitStack(1, 0x7FFF_FFFF), false,
                         SolidAccepts(a, reg, Store(Some(1), None, 1), BitStack(1, 0x7FFF_FFFF)))
            == Some(Insertion(Store(Some(1), None, -0x8000_0000), EMPTY, true))
    ensures InsertBitsRest(a, reg, Store(Some(1), None, 1), 0x7FFF_FFFF, 1, false) == 0
  {
  }

  /* ---------------------------------------------------------------- extraction */

  /**
   * extractBits(slot, amount, simulate): from a non-empty slot and a positive amount, a stack of
   * min(amount, stored) bits; unless simulating the count drops by that much, and a storage
   * left with no bits forgets its state and fluid.
   */
  function Extraction(reg: Registry, st: Store, slot: int, amount: int, simulate: bool): Insertion
  {
    var contents := SlotStack(reg, st, slot);
    if !IsEmpty(contents) && amount > 0 then
      var taken := ItemStack(contents.item, Min(amount, contents.count), contents.bitState);
      if simulate then Insertion(st, taken, false)
      else
        var left := st.bits - taken.count;
        var after := if left <= 0 then EMPTY_STORE else Store(st.state, st.fluid, left);
        Insertion(after, taken, after.bits != st.bits)
    else Insertion(st, EMPTY, false)
  }

  /** Extraction takes min(amount, stored) bits of the stored kind and removes exactly those. */
  lemma ExtractionTakes(reg: Registry, st: Store, slot: int, amount: int, simulate: bool)
    requires ValidStore(reg, st)
    ensures var e := Extraction(reg, st, slot, amount, simulate);
            && Count(e.rest) == (if slot == 0 && amount > 0 && st.bits > 0 && st.state.Some? then Min(amount, st.bits) else 0)
            && (!IsEmpty(e.rest) ==> st.state == Some(e.rest.bitState) && e.rest.item == BIT_ITEM)
            && (simulate ==> e.store == st)
            && (!simulate ==> e.store.bits == st.bits - Count(e.rest))
            && (!simulate && !IsEmpty(e.rest) && e.store.bits == 0 ==> e.store == EMPTY_STORE)
            && ValidStore(reg, e.store)
  {
  }

  /** Taking some (not all) bits and inserting them again restores the storage (and sends an update). */
  lemma ExtractInsertRoundTrip(reg: Registry, chiselable: Item -> bool, st: Store, amount: int)
    requires RegistryConsistent(reg) && ValidStore(reg, st)
    requires st.fluid.None? && st.state.Some? ==> reg.fluidOf(st.state.value).None?
    requires st.state.Some? && 0 < amount < st.bits
    ensures var e := Extraction(reg, st, 0, amount, false);
            Insert(reg, chiselable, e.store, e.rest, false) == Insertion(st, EMPTY, true)
  {
    var e := Extraction(reg, st, 0, amount, false);
    assert HasTrait(e.rest, BitItem);
    if st.fluid.Some? {
      assert reg.fluidOf(reg.legacyBlock(st.fluid.value)) == st.fluid;
    }
  }

  /** extractItem: extraction with the amount capped at the bit item's maximum stack size. */
  function CappedExtraction(reg: Registry, st: Store, slot: int, amount: int, simulate: bool, maxStackSize: int): (e: Insertion)
    ensures !IsEmpty(e.rest) ==> Count(e.rest) <= amount && Count(e.rest) <= maxStackSize
  {
    Extraction(reg, st, slot, Min(amount, maxStackSize), simulate)
  }

  /* ---------------------------------------------------------------- persistence */

  /**
   * The stored tag: the fluid's registry name ("" as None), the "state" compound (None for an
   * empty compound) when the key is present, the legacy "blockstate" id (0 when absent) and
   * "bits".
   */
  datatype StorageTag = StorageTag(fluid: Option<Fluid>, hasState: bool, stateTag: Option<BlockState>, rawState: int, bits: I32)

  /** save: the fluid name, the state compound (empty for fluid bits or no state) and the count. */
  function SaveTag(st: Store): (t: StorageTag)
    ensures t.hasState && t.fluid == st.fluid && t.bits == st.bits
  {
    StorageTag(st.fluid, true, if st.fluid.Some? || st.state.None? then None else st.state, 0, st.bits)
  }

  /** NBTUtil.readBlockState: an empty compound reads as air. */
  function ReadState(t: Option<BlockState>): BlockState {
    if t.None? then AIR else t.value
  }

  /**
   * load: with no fluid name the state comes from the "state" compound, else from the legacy id
   * (-1 for none); the fluid field is then left as it was. With a fluid name the storage holds
   * that fluid and its legacy block.
   */
  function LoadTag(reg: Registry, stateFromId: int -> BlockState, current: Store, t: StorageTag): (st: Store)
    ensures st.bits == t.bits
    ensures t.fluid.Some? ==> st.fluid == t.fluid && st.state == Some(reg.legacyBlock(t.fluid.value))
    ensures t.fluid.None? ==> st.fluid == current.fluid
  {
    if t.fluid.None? then
      var s := if t.hasState then Some(ReadState(t.stateTag)) else if t.rawState != -1 then Some(stateFromId(t.rawState)) else None;
      Store(s, current.fluid, t.bits)
    else Store(Some(reg.legacyBlock(t.fluid.value)), t.fluid, t.bits)
  }

  /** Saving and loading into a fresh storage gives the content back, a missing state reading as air. */
  lemma SaveLoadRoundTrip(reg: Registry, stateFromId: int -> BlockState, st: Store)
    requires ValidStore(reg, st)
    ensures LoadTag(reg, stateFromId, EMPTY_STORE, SaveTag(st)) == Store(if st.state.None? then Some(AIR) else st.state, st.fluid, st.bits)
  {
  }

  /* ---------------------------------------------------------------- the block entity */

  /** The light the stored content gives off: the fluid's legacy block, else the state, else 0. */
  function LightValue(reg: Registry, lightOf: BlockState -> int, st: Store): int {
    var working := if st.fluid.None? then st.state else Some(reg.legacyBlock(st.fluid.value));
    if working.None? then 0 else lightOf(working.value)
  }

  /** What attemptFluidBitStackInsertion / attemptSolidBitStackInsertion hand back. */
  datatype Attempt = Declined | Taken(rest: ItemStack)

  class BitStorage {
    const reg: Registry
    const stateFromId: int -> BlockState
    const lightOf: BlockState -> int
    const chiselable: Item -> bool
    const maxStackSize: int
    /** The entity sits in a level, so saveAndUpdate reaches the world. */
    const hasLevel: bool
    /** The acceptance test the insertions run: the code's own, or the intended one. */
    const acceptance: Acceptance

    var state: Option<BlockState>
    var myFluid: Option<Fluid>
    var bits: I32
    var oldLV: int
    /** Block updates sent by saveAndUpdate. */
    var updates: nat
    /** Light re-checks requested by saveAndUpdate. */
    var lightChecks: nat

    function Contents(): Store
      reads this
    {
      Store(state, myFluid, bits)
    }

    constructor (reg: Registry, stateFromId: int -> BlockState, lightOf: BlockState -> int, chiselable: Item -> bool,
                 maxStackSize: int, hasLevel: bool, acceptance: Acceptance)
      ensures this.reg == reg && this.stateFromId == stateFromId && this.lightOf == lightOf
      ensures this.chiselable == chiselable && this.maxStackSize == maxStackSize && this.hasLevel == hasLevel
      ensures this.acceptance == acceptance
      ensures Contents() == EMPTY_STORE && oldLV == -1 && updates == 0 && lightChecks == 0
    {
      this.reg := reg;
      this.stateFromId := stateFromId;
      this.lightOf := lightOf;
      this.chiselable := chiselable;
      this.maxStackSize := maxStackSize;
      this.hasLevel := hasLevel;
      this.acceptance := acceptance;
      state := None;
      myFluid := None;
      bits := 0;
      oldLV := -1;
      updates := 0;
      lightChecks := 0;
    }

    /**
     * The effects of saveAndUpdate, run or not: with a level, one block update, and a light
     * re-check exactly when the light value differs from the last one recorded.
     */
    predicate Refreshed(saved: bool, updates0: nat, oldLV0: int, lightChecks0: nat)
      reads this
    {
      if saved && hasLevel then
        && updates == updates0 + 1
        && oldLV == LightValue(reg, lightOf, Contents())
        && lightChecks == lightChecks0 + (if oldLV0 != oldLV then 1 else 0)
      else updates == updates0 && oldLV == oldLV0 && lightChecks == lightChecks0
    }

    method SaveAndUpdate()
      modifies this
      ensures Contents() == old(Contents())
      ensures Refreshed(true, old(updates), old(oldLV), old(lightChecks))
    {
      if !hasLevel {
        return;
      }
      updates := updates + 1;
      var lv := LightValue(reg, lightOf, Contents());
      if oldLV != lv {
        lightChecks := lightChecks + 1;
        oldLV := lv;
      }
    }

    function GetStackInSlot(slot: int): ItemStack
      reads this
    {
      SlotStack(reg, Contents(), slot)
    }

    /**
     * attemptFluidBitStackInsertion: the comparison stack is built from the stored fluid (as
     * written) or is the stored bits (intended).
     */
    method AttemptFluidBitStackInsertion(stack: ItemStack, simulate: bool) returns (r: Attempt)
      modifies this
      ensures var i := FluidAttempt(reg, old(Contents()), stack, simulate, FluidAccepts(acceptance, reg, old(Contents()), stack));
              && (i.None? ==> r.Declined? && Contents() == old(Contents()))
              && (i.Some? ==> r == Taken(i.value.rest) && Contents() == i.value.store)
              && Refreshed(i.Some? && i.value.saved, old(updates), old(oldLV), old(lightChecks))
    {
      var f := reg.fluidOf(stack.bitState);
      if f.None? {
        return Declined;
      }
      var canInsert;
      if acceptance == AsWritten {
        var bitItem := if myFluid.None? then EMPTY else BitStack(reg.legacyBlock(myFluid.value), bits);
        canInsert := IsEmpty(bitItem) || SameBits(bitItem, stack) || state.None?;
      } else {
        var bitItem := GetStackInSlot(0);
        canInsert := IsEmpty(bitItem) || SameBits(bitItem, stack);
      }
      if !canInsert {
        return Declined;
      }
      var merged := Wrap32(bits + Count(stack));
      var amount := Min(merged, BITS_PER_BLOCK);
      if !simulate {
        var oldFluid := myFluid;
        var oldState := state;
        var oldBits := bits;
        myFluid := f;
        state := Some(reg.legacyBlock(f.value));
        bits := amount;
        if bits != oldBits || myFluid != oldFluid || oldState.Some? {
          SaveAndUpdate();
        }
      }
      if amount < merged {
        return Taken(ItemStack(stack.item, merged - amount, stack.bitState));
      }
      return Taken(EMPTY);
    }

    /**
     * attemptSolidBitStackInsertion: the comparison stack is built from the incoming bit state
     * (as written) or is the stored bits (intended).
     */
    method AttemptSolidBitStackInsertion(stack: ItemStack, simulate: bool) returns (r: Attempt)
      modifies this
      ensures var i := SolidAttempt(reg, old(Contents()), stack, simulate, SolidAccepts(acceptance, reg, old(Contents()), stack));
              && (i.None? ==> r.Declined? && Contents() == old(Contents()))
              && (i.Some? ==> r == Taken(i.value.rest) && Contents() == i.value.store)
              && Refreshed(i.Some? && i.value.saved, old(updates), old(oldLV), old(lightChecks))
    {
      if reg.fluidOf(stack.bitState).Some? {
        return Declined;
      }
      var canInsert;
      if acceptance == AsWritten {
        var bitItem := BitStack(stack.bitState, bits);
        canInsert := IsEmpty(bitItem) || SameBits(bitItem, stack);
      } else {
        var bitItem := GetStackInSlot(0);
        canInsert := IsEmpty(bitItem) || SameBits(bitItem, stack);
      }
      if !canInsert {
        return Declined;
      }
      var merged := Wrap32(bits + Count(stack));
      var amount := Min(merged, BITS_PER_BLOCK);
      if !simulate {
        var oldFluid := myFluid;
        var oldBlockState := state;
        var oldBits := bits;
        myFluid := None;
        state := Some(stack.bitState);
        bits := amount;
        if bits != oldBits || state != oldBlockState || oldFluid.Some? {
          SaveAndUpdate();
        }
      }
      if amount < merged {
        return Taken(ItemStack(stack.item, merged - amount, stack.bitState));
      }
      return Taken(EMPTY);
    }

    method InsertItem(slot: int, stack: ItemStack, simulate: bool) returns (r: ItemStack)
      modifies this
      ensures var i := InsertBy(acceptance, reg, chiselable, old(Contents()), stack, simulate);
              r == i.rest && Contents() == i.store && Refreshed(i.saved, old(updates), old(oldLV), old(lightChecks))
    {
      if !IsEmpty(stack) && HasTrait(stack, BitItem) {
        var fluidInsertion := AttemptFluidBitStackInsertion(stack, simulate);
        if fluidInsertion.Taken? {
          return fluidInsertion.rest;
        }
        var solidInsertion := AttemptSolidBitStackInsertion(stack, simulate);
        return if solidInsertion.Taken? then solidInsertion.rest else stack;
      } else if !IsEmpty(stack) && chiselable(stack.item) && myFluid.None? {
        var stackState := StateFromItem(stack);
        if stackState != AIR {
          if state.None? || state == Some(AIR) {
            state := Some(stackState);
            bits := BITS_PER_BLOCK;
          }
        }
      }
      return stack;
    }

    method InsertBits(count: I32, s: BlockState, simulate: bool) returns (n: nat)
      modifies this
      ensures n == InsertBitsRest(acceptance, reg, old(Contents()), count, s, simulate)
      ensures var i := SolidAttempt(reg, old(Contents()), BitStack(s, count), simulate,
                                    SolidAccepts(acceptance, reg, old(Contents()), BitStack(s, count)));
              && Contents() == (if i.Some? then i.value.store else old(Contents()))
              && Refreshed(i.Some? && i.value.saved, old(updates), old(oldLV), old(lightChecks))
    {
      var stack := BitStack(s, count);
      var r := AttemptSolidBitStackInsertion(stack, simulate);
      n := if r.Taken? then Count(r.rest) else Count(stack);
    }

    method ExtractBits(slot: int, amount: int, simulate: bool) returns (r: ItemStack)
      modifies this
      ensures var e := Extraction(reg, old(Contents()), slot, amount, simulate);
              r == e.rest && Contents() == e.store && Refreshed(e.saved, old(updates), old(oldLV), old(lightChecks))
    {
      var contents := GetStackInSlot(slot);
      if !IsEmpty(contents) && amount > 0 {
        contents := contents.(count := Min(amount, contents.count));
        if !simulate {
          var oldBits := bits;
          bits := bits - contents.count;
          if bits <= 0 {
            bits := 0;
            state := None;
            myFluid := None;
          }
          if bits != oldBits {
            SaveAndUpdate();
          }
        }
        return contents;
      }
      return EMPTY;
    }

    method ExtractItem(slot: int, amount: int, simulate: bool) returns (r: ItemStack)
      modifies this
      ensures var e := CappedExtraction(reg, old(Contents()), slot, amount, simulate, maxStackSize);
              r == e.rest && Contents() == e.store && Refreshed(e.saved, old(updates), old(oldLV), old(lightChecks))
    {
      r := ExtractBits(slot, Min(amount, maxStackSize), simulate);
    }

    /**
     * addAllPossibleBits: a crouching player tops up stored non-air solid bits from their
     * inventory by as many as fit and the inventory can give; the answer is always false.
     */
    method AddAllPossibleBits(player: Option<Player>, inventory: BitInventory, available: nat) returns (r: bool)
      modifies this, inventory
      ensures !r
      ensures var go := player.Some? && player.value.crouching && old(state).Some? && old(state) != Some(AIR);
              && (go ==> var n := Min(Wrap32(BITS_PER_BLOCK - old(bits)), available);
                         bits == Wrap32(old(bits) + n) && inventory.calls == old(inventory.calls) + [Extract(old(state).value, n)])
              && (!go ==> bits == old(bits) && inventory.calls == old(inventory.calls))
      ensures state == old(state) && myFluid == old(myFluid)
      ensures updates == old(updates) && oldLV == old(oldLV) && lightChecks == old(lightChecks)
      ensures old(ValidStore(reg, Contents())) ==> ValidStore(reg, Contents())
    {
      if player.Some? && player.value.crouching && state.Some? && state != Some(AIR) {
        var extractionAmount := Min(Wrap32(BITS_PER_BLOCK - bits), available);
        inventory.Call(Extract(state.value, extractionAmount));
        bits := Wrap32(bits + extractionAmount);
      }
      return false;
    }

    method Save() returns (t: StorageTag)
      ensures t == SaveTag(Contents())
    {
      t := StorageTag(myFluid, true, if myFluid.Some? || state.None? then None else state, 0, bits);
    }

    method Load(t: StorageTag)
      modifies this
      ensures Contents() == LoadTag(reg, stateFromId, old(Contents()), t)
      ensures updates == old(updates) && oldLV == old(oldLV) && lightChecks == old(lightChecks)
    {
      if t.fluid.None? {
        if t.hasState {
          state := Some(ReadState(t.stateTag));
        } else if t.rawState != -1 {
          state := Some(stateFromId(t.rawState));
        } else {
          state := None;
        }
      } else {
        myFluid := t.fluid;
        state := Some(reg.legacyBlock(t.fluid.value));
      }
      bits := t.bits;
    }
  }
}
