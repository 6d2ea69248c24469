/**
 * MergePatternPlacementType: merging a pattern's bits into the chiseled blocks it covers.
 *
 * The pattern (the source snapshot) is a finite map from bit positions to states, in the same
 * coordinates as the area mutator's cells. A bit of the pattern "conflicts" when it is not air
 * and lands on a bit of the area that is neither air nor already the same state: those are the
 * bits the player gets back (keyed by the target's state) and pays for (keyed by the pattern's
 * state). Feasibility is decided by an ordered chain of checks; a committed placement clears
 * then sets every non-air pattern bit and settles the tallies with the player's bit inventory.
 */
module MergePatternPlacementType {
  import opened Wrappers
  import opened WorldArea

  /** The two colours a failed placement is drawn with. */
  datatype PlacementColor = NotFittingColor | MissingBitsOrSpaceColor

  /** Why a placement failed. */
  datatype FailureReason = NotAChiseledBlock | NoBitSpace | NotEnoughBits

  datatype PlacementResult = Success | Failure(color: PlacementColor, reason: FailureReason)

  /** The pattern bits that replace a different, non-air bit of the area. */
  function Conflicts(source: map<Pos, BlockState>, cells: map<Pos, BlockState>): (ps: set<Pos>)
    ensures ps <= source.Keys && ps <= cells.Keys
  {
    set p | p in source && source[p] != AIR && p in cells && cells[p] != AIR && cells[p] != source[p]
  }

  /** totalRemovedBits: the conflicting bits counted under the area's (removed) state. */
  function RemovedBits(source: map<Pos, BlockState>, cells: map<Pos, BlockState>): map<BlockState, nat>
  {
    Tally(Conflicts(source, cells), cells)
  }

  /** totalAddedBits: the conflicting bits counted under the pattern's (added) state. */
  function AddedBits(source: map<Pos, BlockState>, cells: map<Pos, BlockState>): map<BlockState, nat>
  {
    Tally(Conflicts(source, cells), source)
  }

  /** Every state of a tally passes the inventory test for its count (Stream.allMatch). */
  predicate AllPass(tally: map<BlockState, nat>, test: (BlockState, int) -> bool)
  {
    forall s :: s in tally ==> test(s, tally[s])
  }

  /**
   * The check chain of performPlacement, with the test used for the "enough bits" check as a
   * parameter: every covered block must be a chiseled block, then (unless creative) the
   * inventory must have space for the removed bits, then (unless creative) the added bits must
   * pass `bitsTest`.
   */
  function Verdict(coveredChiseled: seq<bool>, source: map<Pos, BlockState>, cells: map<Pos, BlockState>,
                   creative: bool, canInsert: (BlockState, int) -> bool, bitsTest: (BlockState, int) -> bool)
    : (r: PlacementResult)
    ensures r == Failure(NotFittingColor, NotAChiseledBlock) <==> exists i :: 0 <= i < |coveredChiseled| && !coveredChiseled[i]
    ensures r == Failure(MissingBitsOrSpaceColor, NoBitSpace) <==>
              (forall i :: 0 <= i < |coveredChiseled| ==> coveredChiseled[i])
              && !creative && !AllPass(RemovedBits(source, cells), canInsert)
    ensures r == Failure(MissingBitsOrSpaceColor, NotEnoughBits) <==>
              (forall i :: 0 <= i < |coveredChiseled| ==> coveredChiseled[i])
              && !creative && AllPass(RemovedBits(source, cells), canInsert)
              && !AllPass(AddedBits(source, cells), bitsTest)
    ensures r.Success? <==>
              (forall i :: 0 <= i < |coveredChiseled| ==> coveredChiseled[i])
              && (creative || (AllPass(RemovedBits(source, cells), canInsert) && AllPass(AddedBits(source, cells), bitsTest)))
  {
    if exists i :: 0 <= i < |coveredChiseled| && !coveredChiseled[i] then Failure(NotFittingColor, NotAChiseledBlock)
    else if !creative && !AllPass(RemovedBits(source, cells), canInsert) then Failure(MissingBitsOrSpaceColor, NoBitSpace)
    else if !creative && !AllPass(AddedBits(source, cells), bitsTest) then Failure(MissingBitsOrSpaceColor, NotEnoughBits)
    else Success
  }

  /** The checks as the code makes them: the "enough bits" check also asks canInsert. */
  function VerdictAsWritten(coveredChiseled: seq<bool>, source: map<Pos, BlockState>, cells: map<Pos, BlockState>,
                            creative: bool, inventory: BitInventory): (r: PlacementResult)
    ensures r.Success? && !creative ==> AllPass(AddedBits(source, cells), inventory.canInsert)
  {
    Verdict(coveredChiseled, source, cells, creative, inventory.canInsert, inventory.canInsert)
  }

  /** The checks as intended: the added bits must be extractable from the inventory. */
  function Feasibility(coveredChiseled: seq<bool>, source: map<Pos, BlockState>, cells: map<Pos, BlockState>,
                       creative: bool, inventory: BitInventory): (r: PlacementResult)
    ensures r.Success? && !creative ==>
              AllPass(RemovedBits(source, cells), inventory.canInsert) && AllPass(AddedBits(source, cells), inventory.canExtract)
  {
    Verdict(coveredChiseled, source, cells, creative, inventory.canInsert, inventory.canExtract)
  }

  /**
   * The code's check lets a placement through that the inventory cannot pay for: one conflicting
   * bit, an inventory with room for anything but nothing to give.
   */
  lemma AsWrittenIgnoresMissingBits(inventory: BitInventory)
    requires forall s, n :: inventory.canInsert(s, n)
    requires forall s, n :: !inventory.canExtract(s, n)
    ensures var source := map[Pos(0, 0, 0) := 2];
            var cells := map[Pos(0, 0, 0) := 1];
            && VerdictAsWritten([true], source, cells, false, inventory) == Success
            && AddedBits(source, cells) == map[2 := 1]
            && !inventory.canExtract(2, 1)
            && Feasibility([true], source, cells, false, inventory) == Failure(MissingBitsOrSpaceColor, NotEnoughBits)
  {
    var source := map[Pos(0, 0, 0) := 2];
    var cells := map[Pos(0, 0, 0) := 1];
    assert Conflicts(source, cells) == {Pos(0, 0, 0)};
    assert StatesOf(Conflicts(source, cells), source) == {2};
    assert WithState(Conflicts(source, cells), source, 2) == {Pos(0, 0, 0)};
    assert AddedBits(source, cells) == map[2 := 1];
    assert !inventory.canExtract(2, 1);
    assert 2 in AddedBits(source, cells) && !inventory.canExtract(2, AddedBits(source, cells)[2]);
  }

  /** A block that is not chiseled decides the result, whatever the pattern and the inventory. */
  lemma NotChiseledComesFirst(coveredChiseled: seq<bool>, source: map<Pos, BlockState>, cells: map<Pos, BlockState>,
                              creative: bool, inventory: BitInventory, i: int)
    requires 0 <= i < |coveredChiseled| && !coveredChiseled[i]
    ensures Feasibility(coveredChiseled, source, cells, creative, inventory) == Failure(NotFittingColor, NotAChiseledBlock)
  {
  }

  /** A creative player passes both inventory checks. */
  lemma CreativePasses(coveredChiseled: seq<bool>, source: map<Pos, BlockState>, cells: map<Pos, BlockState>,
                       inventory: BitInventory)
    requires forall i :: 0 <= i < |coveredChiseled| ==> coveredChiseled[i]
    ensures Feasibility(coveredChiseled, source, cells, true, inventory) == Success
  {
  }

  /** As many bits are removed as are added: both tallies count the same conflicting bits. */
  lemma RemovedEqualsAdded(source: map<Pos, BlockState>, cells: map<Pos, BlockState>)
    ensures Total(RemovedBits(source, cells)) == Total(AddedBits(source, cells)) == |Conflicts(source, cells)|
  {
    TallyTotal(Conflicts(source, cells), cells);
    TallyTotal(Conflicts(source, cells), source);
  }

  /** The non-air pattern bits. */
  function NonAir(source: map<Pos, BlockState>): (ps: set<Pos>)
    ensures ps <= source.Keys
  {
    set p | p in source && source[p] != AIR
  }

  /** The area with the pattern bits of `ps` written over it (positions outside the area ignored). */
  function Overlaid(cells: map<Pos, BlockState>, source: map<Pos, BlockState>, ps: set<Pos>): (r: map<Pos, BlockState>)
    requires ps <= source.Keys
    ensures r.Keys == cells.Keys
  {
    map p | p in cells :: if p in ps then source[p] else cells[p]
  }

  /** The area after a committed merge. */
  function Merged(cells: map<Pos, BlockState>, source: map<Pos, BlockState>): map<Pos, BlockState>
  {
    Overlaid(cells, source, NonAir(source))
  }

  /**
   * After a merge every non-air pattern bit inside the area holds its pattern state, every other
   * bit is as before, and nothing conflicts any more; merging again changes nothing.
   */
  lemma MergedProperties(cells: map<Pos, BlockState>, source: map<Pos, BlockState>)
    ensures Merged(cells, source).Keys == cells.Keys
    ensures forall p :: p in cells && p in source && source[p] != AIR ==> Merged(cells, source)[p] == source[p]
    ensures forall p :: p in cells && (p !in source || source[p] == AIR) ==> Merged(cells, source)[p] == cells[p]
    ensures Conflicts(source, Merged(cells, source)) == {}
    ensures Merged(Merged(cells, source), source) == Merged(cells, source)
  {
  }

  /**
   * performPlacement, with the area given (its targeting geometry is not modelled) and the
   * covered blocks' chiseled flags given. The "enough bits" test is a parameter: the code passes
   * `inventory.canInsert` (the verdict is then VerdictAsWritten), the intended test is
   * `inventory.canExtract` (the verdict is then Feasibility). Failures and simulations change
   * nothing; a commit writes the merge and, for a non-creative player, hands back the removed
   * bits (insertOrDiscard) and then takes the added bits (extract).
   */
  method PerformPlacement(source: map<Pos, BlockState>, coveredChiseled: seq<bool>, area: AreaMutator,
                          inventory: BitInventory, creative: bool, simulate: bool, bitsTest: (BlockState, int) -> bool)
    returns (r: PlacementResult)
    modifies area, inventory
    ensures r == Verdict(coveredChiseled, source, old(area.cells), creative, inventory.canInsert, bitsTest)
    ensures bitsTest == inventory.canInsert ==> r == VerdictAsWritten(coveredChiseled, source, old(area.cells), creative, inventory)
    ensures bitsTest == inventory.canExtract ==> r == Feasibility(coveredChiseled, source, old(area.cells), creative, inventory)
    ensures r.Failure? || simulate ==> area.cells == old(area.cells) && inventory.calls == old(inventory.calls)
    ensures r.Success? && !simulate ==> area.cells == Merged(old(area.cells), source)
    ensures r.Success? && !simulate && creative ==> inventory.calls == old(inventory.calls)
    ensures r.Success? && !simulate && !creative ==>
              var n0 := |old(inventory.calls)|;
              var n1 := n0 + |RemovedBits(source, old(area.cells))|;
              && |inventory.calls| == n1 + |AddedBits(source, old(area.cells))|
              && inventory.calls[..n0] == old(inventory.calls)
              && (forall c <- inventory.calls[n0..n1] :: KindOf(c) == InsertKind)
              && Moved(inventory.calls[n0..n1]) == RemovedBits(source, old(area.cells))
              && (forall c <- inventory.calls[n1..] :: KindOf(c) == ExtractKind)
              && Moved(inventory.calls[n1..]) == AddedBits(source, old(area.cells))
  {
    // The chiseled-block check, the space check and the bits check, in that order.
    r := Verdict(coveredChiseled, source, area.cells, creative, inventory.canInsert, bitsTest);
    if r.Failure? || simulate {
      return;
    }
    var removed := RemovedBits(source, area.cells);
    var added := AddedBits(source, area.cells);
    WriteMerge(area, source);
    if !creative {
      SettleBoth(inventory, removed, added);
    }
    return Success;
  }

  /** The settlement: the removed bits are handed back first, then the added bits are taken. */
  method SettleBoth(inventory: BitInventory, removed: map<BlockState, nat>, added: map<BlockState, nat>)
    modifies inventory
    ensures var n0 := |old(inventory.calls)|;
            var n1 := n0 + |removed|;
            && |inventory.calls| == n1 + |added|
            && inventory.calls[..n0] == old(inventory.calls)
            && (forall c <- inventory.calls[n0..n1] :: KindOf(c) == InsertKind)
            && Moved(inventory.calls[n0..n1]) == removed
            && (forall c <- inventory.calls[n1..] :: KindOf(c) == ExtractKind)
            && Moved(inventory.calls[n1..]) == added
  {
    ghost var start := inventory.calls;
    Settle(inventory, removed, InsertKind);
    ghost var mid := inventory.calls;
    Settle(inventory, added, ExtractKind);
    assert inventory.calls[|start|..|mid|] == mid[|start|..];
  }

  /** The batch: each non-air pattern bit is cleared and then set (SpaceOccupied is ignored). */
  method WriteMerge(area: AreaMutator, source: map<Pos, BlockState>)
    modifies area
    ensures area.cells == Merged(old(area.cells), source)
  {
    ghost var before := area.cells;
    var todo := NonAir(source);
    while todo != {}
      invariant todo <= NonAir(source)
      invariant area.cells == Overlaid(before, source, NonAir(source) - todo)
      decreases todo
    {
      var p :| p in todo;
      area.ClearInAreaTarget(p);
      var ignored := area.SetInAreaTarget(source[p], p);
      todo := todo - {p};
    }
  }
}
