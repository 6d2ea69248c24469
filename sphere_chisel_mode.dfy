/**
 * SphereChiselMode: chiseling (left click) and placing (right click) every bit of a sphere.
 *
 * The geometry is abstract: the ray trace yields the sphere centre or a miss, the points
 * included into the context around the centre are given, and bit membership in the sphere is
 * the mode's `inSphere` predicate. The cells of the area the context's mutator covers are the
 * `AreaMutator` passed in.
 */
module SphereChiselMode {
  import opened Wrappers
  import opened WorldArea
  import opened ItemStackUtils
  import opened ChiselingContext

  /** A sphere mode: its diameter in bits and its membership test (distance to centre <= radius). */
  datatype SphereMode = SphereMode(diameter: nat, inSphere: (Pos, Vec3) -> bool)

  datatype EventResult = Deny | Default | Allow

  /** ClickProcessingState: whether the click was consumed, and the event result. */
  datatype ClickProcessingState = ClickProcessingState(shouldCancel: bool, nextState: EventResult)

  const DEFAULT_STATE: ClickProcessingState := ClickProcessingState(false, Default)
  const ALLOWED_STATE: ClickProcessingState := ClickProcessingState(true, Allow)

  /**
   * SphereAreaFilter.test: false for entries that are not in a world; otherwise the bit must lie
   * in the sphere and be non-air unless the operation processes air.
   */
  predicate SphereTest(mode: SphereMode, processesAir: bool, center: Vec3, e: StateEntry)
  {
    e.inWorld && mode.inSphere(e.pos, center) && (e.state != AIR || processesAir)
  }

  /** The filter never accepts an entry outside a world, nor air when air is not processed. */
  lemma SphereFilterRejects(mode: SphereMode, processesAir: bool, center: Vec3, e: StateEntry)
    ensures !e.inWorld ==> !SphereTest(mode, processesAir, center, e)
    ensures e.state == AIR && !processesAir ==> !SphereTest(mode, processesAir, center, e)
    ensures e.inWorld && mode.inSphere(e.pos, center) && e.state != AIR ==> SphereTest(mode, processesAir, center, e)
  {
  }

  /** The bits of an area the sphere filter accepts. */
  function Selected(cells: map<Pos, BlockState>, mode: SphereMode, processesAir: bool, center: Vec3): set<Pos>
  {
    set p | p in cells && SphereTest(mode, processesAir, center, StateEntry(p, cells[p], true))
  }

  /** The air bits of an area the sphere filter accepts (the bits a right click fills). */
  function AirSelected(cells: map<Pos, BlockState>, mode: SphereMode, processesAir: bool, center: Vec3): set<Pos>
  {
    set p | p in cells && cells[p] == AIR && SphereTest(mode, processesAir, center, StateEntry(p, cells[p], true))
  }

  /** An operation that does not process air never has anything to fill. */
  lemma NothingToFillWithoutAir(cells: map<Pos, BlockState>, mode: SphereMode, center: Vec3)
    ensures AirSelected(cells, mode, false, center) == {}
  {
  }

  /** The area with the given bits set to s, every other bit as before. */
  function SetAll(cells: map<Pos, BlockState>, ps: set<Pos>, s: BlockState): (r: map<Pos, BlockState>)
    ensures r.Keys == cells.Keys
    ensures forall p :: p in ps && p in cells ==> r[p] == s
    ensures forall p :: p in cells && p !in ps ==> r[p] == cells[p]
  {
    map p | p in cells :: if p in ps then s else cells[p]
  }

  /**
   * processRayTraceIntoContext: on a miss nothing changes; on a hit the sphere filter is installed
   * and every given point around the centre is included into the context.
   */
  method ProcessRayTraceIntoContext(mode: SphereMode, context: ChiselingContext, trace: Option<Vec3>, points: seq<Vec3>)
    returns (center: Option<Vec3>)
    modifies context
    ensures center == trace
    ensures trace.None? ==> context.filter == old(context.filter) && context.region == old(context.region)
    ensures trace.Some? ==>
              (context.filter.Some? &&
               forall e :: context.filter.value(e) == SphereTest(mode, context.processesAir, trace.value, e))
    ensures trace.Some? && |points| > 0 ==> context.region.Some? && Inside(context.region.value, points[|points| - 1])
    ensures context.complete == old(context.complete) && context.metadata == old(context.metadata)
    ensures context.callbackRuns == old(context.callbackRuns) && context.itemDamage == old(context.itemDamage)
  {
    if trace.None? {
      return None;
    }
    var c := trace.value;
    var processesAir := context.processesAir;
    context.SetStateFilter(e => SphereTest(mode, processesAir, c, e));
    for i := 0 to |points|
      invariant context.filter.Some? && forall e :: context.filter.value(e) == SphereTest(mode, context.processesAir, c, e)
      invariant i > 0 ==> context.region.Some? && Inside(context.region.value, points[i - 1])
      invariant context.complete == old(context.complete) && context.metadata == old(context.metadata)
      invariant context.callbackRuns == old(context.callbackRuns) && context.itemDamage == old(context.itemDamage)
    {
      context.Include(points[i]);
    }
    return trace;
  }

  /**
   * The bits a damaging batch clears: of the accepted bits in visit order, those after whose damage
   * the tool is not broken (the i-th accepted bit brings the damage to d0 + i + 1). Without damage
   * every accepted bit is cleared.
   */
  ghost function Kept(order: seq<Pos>, d0: int, damaging: bool, breaksAt: int -> bool): set<Pos>
  {
    set i | 0 <= i < |order| && (!damaging || !breaksAt(d0 + i + 1)) :: order[i]
  }

  /** Each bit occurs at most once in a visit order. */
  ghost predicate Distinct(order: seq<Pos>)
  {
    forall i, j :: 0 <= i < j < |order| ==> order[i] != order[j]
  }

  /** Visiting one more accepted bit keeps it exactly when its damage leaves the tool whole. */
  lemma KeptAppend(order: seq<Pos>, d0: int, damaging: bool, breaksAt: int -> bool, p: Pos)
    ensures Kept(order + [p], d0, damaging, breaksAt)
            == Kept(order, d0, damaging, breaksAt)
               + (if !damaging || !breaksAt(d0 + |order| + 1) then {p} else {})
  {
    var o := order + [p];
    forall q | q in Kept(o, d0, damaging, breaksAt)
      ensures q in Kept(order, d0, damaging, breaksAt) || (q == p && (!damaging || !breaksAt(d0 + |order| + 1)))
    {
      var i :| 0 <= i < |o| && (!damaging || !breaksAt(d0 + i + 1)) && o[i] == q;
      if i < |order| {
        assert o[i] == order[i];
      }
    }
    forall q | q in Kept(order, d0, damaging, breaksAt)
      ensures q in Kept(o, d0, damaging, breaksAt)
    {
      var i :| 0 <= i < |order| && (!damaging || !breaksAt(d0 + i + 1)) && order[i] == q;
      assert o[i] == q;
    }
    if !damaging || !breaksAt(d0 + |order| + 1) {
      assert o[|order|] == p;
    }
  }

  /** The kept bits are among the visited ones, and without damage they are all of them. */
  lemma KeptVisited(order: seq<Pos>, d0: int, damaging: bool, breaksAt: int -> bool)
    ensures forall q :: q in Kept(order, d0, damaging, breaksAt) ==> q in order
    ensures !damaging ==> forall q :: q in order ==> q in Kept(order, d0, damaging, breaksAt)
  {
    if !damaging {
      forall q | q in order
        ensures q in Kept(order, d0, damaging, breaksAt)
      {
        var i :| 0 <= i < |order| && order[i] == q;
      }
    }
  }

  /**
   * onLeftClickBy: in a simulation nothing is edited; otherwise the context completes, the anchor
   * is recorded, and every accepted bit is damaged for in some visit order; those for which the
   * tool survives its damage are cleared and counted under their former state, and the counts go
   * to the player.
   */
  method OnLeftClickBy(mode: SphereMode, context: ChiselingContext, trace: Option<Vec3>, points: seq<Vec3>,
                       area: AreaMutator, inventory: BitInventory)
    returns (r: ClickProcessingState, ghost cleared: set<Pos>, ghost order: seq<Pos>)
    modifies context, area, inventory
    ensures context.simulation ==> r == DEFAULT_STATE && context.complete == old(context.complete)
    ensures r == DEFAULT_STATE ==> area.cells == old(area.cells) && inventory.calls == old(inventory.calls)
    ensures r == DEFAULT_STATE ==> context.itemDamage == old(context.itemDamage)
    ensures r != DEFAULT_STATE ==> r == ALLOWED_STATE && trace.Some? && !context.simulation
    ensures r == ALLOWED_STATE <==> !context.simulation && trace.Some? && context.region.Some?
    ensures r == ALLOWED_STATE ==>
              && context.complete
              && context.GetMetadata(ANCHOR) == Some(Vector(trace.value))
              && Distinct(order)
              && (forall q :: q in order <==> q in Selected(old(area.cells), mode, context.processesAir, trace.value))
              && context.itemDamage == old(context.itemDamage) + (if context.supportsDamaging then |order| else 0)
              && cleared == Kept(order, old(context.itemDamage), context.supportsDamaging, context.breaksAt)
              && cleared <= Selected(old(area.cells), mode, context.processesAir, trace.value)
              && (!context.supportsDamaging ==> cleared == Selected(old(area.cells), mode, context.processesAir, trace.value))
              && area.cells == SetAll(old(area.cells), cleared, AIR)
              && |old(inventory.calls)| <= |inventory.calls|
              && inventory.calls[..|old(inventory.calls)|] == old(inventory.calls)
              && Moved(inventory.calls[|old(inventory.calls)|..]) == Tally(cleared, old(area.cells))
              && Total(Tally(cleared, old(area.cells))) == |cleared|
    ensures !context.simulation ==> context.complete
  {
    cleared, order := {}, [];
    var center := ProcessRayTraceIntoContext(mode, context, trace, points);
    if context.simulation {
      return DEFAULT_STATE, cleared, order;
    }
    context.SetComplete();
    if center.None? {
      return DEFAULT_STATE, cleared, order;
    }
    var c := center.value;
    context.SetMetadata(ANCHOR, Some(Vector(c)));
    var mutator := context.GetMutator();
    if mutator.None? {
      return DEFAULT_STATE, cleared, order;
    }
    var resultingBitCount;
    ghost var before := area.cells;
    resultingBitCount, cleared, order := ChiselSelected(mode, context, area, c);
    Settle(inventory, resultingBitCount, SpawnKind);
    TallyTotal(cleared, before);
    return ALLOWED_STATE, cleared, order;
  }

  /**
   * The batch of onLeftClickBy: every bit the context's filter accepts is damaged for, in some
   * visit order; when the tool survives it is counted under its state (putIfAbsent, then +1) and
   * cleared.
   */
  method ChiselSelected(mode: SphereMode, context: ChiselingContext, area: AreaMutator, c: Vec3)
    returns (resultingBitCount: map<BlockState, nat>, ghost cleared: set<Pos>, ghost order: seq<Pos>)
    requires !context.simulation && context.filter.Some?
    requires forall e :: context.filter.value(e) == SphereTest(mode, context.processesAir, c, e)
    modifies context, area
    ensures Distinct(order)
    ensures forall q :: q in order <==> q in Selected(old(area.cells), mode, context.processesAir, c)
    ensures context.itemDamage == old(context.itemDamage) + (if context.supportsDamaging then |order| else 0)
    ensures cleared == Kept(order, old(context.itemDamage), context.supportsDamaging, context.breaksAt)
    ensures cleared <= Selected(old(area.cells), mode, context.processesAir, c)
    ensures !context.supportsDamaging ==> cleared == Selected(old(area.cells), mode, context.processesAir, c)
    ensures area.cells == SetAll(old(area.cells), cleared, AIR)
    ensures resultingBitCount == Tally(cleared, old(area.cells))
    ensures context.complete == old(context.complete) && context.metadata == old(context.metadata)
    ensures context.region == old(context.region) && context.filter == old(context.filter)
  {
    var filter: StateFilter := context.filter.value;
    resultingBitCount := map[];
    cleared, order := {}, [];
    ghost var before := area.cells;
    ghost var pa := context.processesAir;
    ghost var damaging := context.supportsDamaging;
    ghost var d0 := context.itemDamage;
    var todo := area.cells.Keys;
    while todo != {}
      invariant ChiselProgress(before, area.cells, cleared, todo, order, mode, pa, c, damaging, d0, context.itemDamage, context.breaksAt)
      invariant resultingBitCount == Tally(cleared, before)
      invariant context.supportsDamaging == damaging && context.processesAir == pa && !context.simulation
      invariant context.complete == old(context.complete) && context.metadata == old(context.metadata)
      invariant context.region == old(context.region) && context.filter == old(context.filter)
      decreases todo
    {
      var p :| p in todo;
      resultingBitCount, cleared, order := ChiselAt(mode, context, area, c, filter, p, before, todo, d0, resultingBitCount, cleared, order);
      todo := todo - {p};
    }
    ChiselDone(before, area.cells, cleared, order, mode, pa, c, damaging, d0, context.itemDamage, context.breaksAt);
  }

  /**
   * One bit of the batch: when the filter accepts it, it is damaged for and appended to the visit
   * order, and when the tool survives the damage it is counted and cleared.
   */
  method ChiselAt(mode: SphereMode, context: ChiselingContext, area: AreaMutator, c: Vec3, filter: StateFilter, p: Pos,
                  ghost before: map<Pos, BlockState>, ghost todo: set<Pos>, ghost d0: int,
                  count: map<BlockState, nat>, ghost cleared: set<Pos>, ghost order: seq<Pos>)
    returns (count': map<BlockState, nat>, ghost cleared': set<Pos>, ghost order': seq<Pos>)
    requires !context.simulation
    requires forall e :: filter(e) == SphereTest(mode, context.processesAir, c, e)
    requires ChiselProgress(before, area.cells, cleared, todo, order, mode, context.processesAir, c,
                            context.supportsDamaging, d0, context.itemDamage, context.breaksAt)
    requires count == Tally(cleared, before) && p in todo
    modifies context, area
    ensures ChiselProgress(before, area.cells, cleared', todo - {p}, order', mode, context.processesAir, c,
                           context.supportsDamaging, d0, context.itemDamage, context.breaksAt)
    ensures count' == Tally(cleared', before)
    ensures context.complete == old(context.complete) && context.metadata == old(context.metadata)
    ensures context.region == old(context.region) && context.filter == old(context.filter)
  {
    var entry := area.EntryAt(p);
    if filter(entry) {
      count', cleared', order' := DamageAndClear(mode, context, area, c, p, before, todo, d0, count, cleared, order);
    } else {
      count', cleared', order' := count, cleared, order;
      SkipStep(before, area.cells, cleared, todo, order, mode, context.processesAir, c,
               context.supportsDamaging, d0, context.itemDamage, context.breaksAt, p);
    }
  }

  /** An accepted bit: the tool is damaged for it, and when it survives the bit is counted and cleared. */
  method DamageAndClear(mode: SphereMode, context: ChiselingContext, area: AreaMutator, c: Vec3, p: Pos,
                        ghost before: map<Pos, BlockState>, ghost todo: set<Pos>, ghost d0: int,
                        count: map<BlockState, nat>, ghost cleared: set<Pos>, ghost order: seq<Pos>)
    returns (count': map<BlockState, nat>, ghost cleared': set<Pos>, ghost order': seq<Pos>)
    requires !context.simulation
    requires ChiselProgress(before, area.cells, cleared, todo, order, mode, context.processesAir, c,
                            context.supportsDamaging, d0, context.itemDamage, context.breaksAt)
    requires count == Tally(cleared, before) && p in todo
    requires SphereTest(mode, context.processesAir, c, StateEntry(p, area.cells[p], true))
    modifies context, area
    ensures ChiselProgress(before, area.cells, cleared', todo - {p}, order', mode, context.processesAir, c,
                           context.supportsDamaging, d0, context.itemDamage, context.breaksAt)
    ensures count' == Tally(cleared', before)
    ensures order' == order + [p]
    ensures cleared' == if !context.supportsDamaging || !context.breaksAt(context.itemDamage) then cleared + {p} else cleared
    ensures context.complete == old(context.complete) && context.metadata == old(context.metadata)
    ensures context.region == old(context.region) && context.filter == old(context.filter)
  {
    ghost var pa := context.processesAir;
    ghost var damaging := context.supportsDamaging;
    ghost var cells := area.cells;
    ghost var damage := context.itemDamage;
    ghost var breaksAt := context.breaksAt;
    assert p in cells;
    var currentState := area.cells[p];
    var ok := context.TryDamageItem(1);
    assert context.itemDamage == damage + (if damaging then 1 else 0);
    assert ok <==> !damaging || !breaksAt(damage + 1);
    order' := order + [p];
    if ok {
      ChiselStep(before, cells, cleared, todo, order, mode, pa, c, damaging, d0, damage, breaksAt, p);
      count' := CountCleared(before, cleared, count, p, currentState);
      area.ClearInAreaTarget(p);
      assert area.cells == cells[p := AIR];
      cleared' := cleared + {p};
    } else {
      BreakStep(before, cells, cleared, todo, order, mode, pa, c, damaging, d0, damage, breaksAt, p);
      count', cleared' := count, cleared;
    }
  }

  /** resultingBitCount.putIfAbsent(state, 0), then +1: the tally of the cleared bits grows by the bit p. */
  function CountCleared(ghost before: map<Pos, BlockState>, ghost cleared: set<Pos>, count: map<BlockState, nat>,
                        p: Pos, currentState: BlockState): (count': map<BlockState, nat>)
    requires cleared <= before.Keys && p in before && p !in cleared
    requires count == Tally(cleared, before) && currentState == before[p]
    ensures count' == Tally(cleared + {p}, before)
  {
    TallyAdd(cleared, before, p);
    count[currentState := (if currentState in count then count[currentState] else 0) + 1]
  }

  /**
   * The chisel batch's progress over the visited bits (those not in `todo`): the visit order holds
   * each accepted visited bit once, the tool took one damage per entry when damaging, the cleared
   * bits are those the damage left the tool whole for, and only cleared bits changed.
   */
  ghost predicate ChiselProgress(before: map<Pos, BlockState>, after: map<Pos, BlockState>, cleared: set<Pos>,
                                 todo: set<Pos>, order: seq<Pos>, mode: SphereMode, pa: bool, c: Vec3,
                                 damaging: bool, d0: int, damage: int, breaksAt: int -> bool)
  {
    && todo <= before.Keys && after.Keys == before.Keys
    && Distinct(order)
    && (forall q :: q in order <==> q in before && q !in todo && SphereTest(mode, pa, c, StateEntry(q, before[q], true)))
    && damage == d0 + (if damaging then |order| else 0)
    && cleared == Kept(order, d0, damaging, breaksAt)
    && (forall q :: q in before ==> after[q] == if q in cleared then AIR else before[q])
  }

  /**
   * Visiting an accepted, unvisited bit appends it to the order; when its damage leaves the tool
   * whole, clearing it keeps the progress.
   */
  lemma ChiselStep(before: map<Pos, BlockState>, after: map<Pos, BlockState>, cleared: set<Pos>,
                   todo: set<Pos>, order: seq<Pos>, mode: SphereMode, pa: bool, c: Vec3,
                   damaging: bool, d0: int, damage: int, breaksAt: int -> bool, p: Pos)
    requires ChiselProgress(before, after, cleared, todo, order, mode, pa, c, damaging, d0, damage, breaksAt)
    requires p in todo && SphereTest(mode, pa, c, StateEntry(p, after[p], true))
    requires !damaging || !breaksAt(damage + 1)
    ensures p in before && after[p] == before[p] && p !in cleared && cleared <= before.Keys
    ensures ChiselProgress(before, after[p := AIR], cleared + {p}, todo - {p}, order + [p], mode, pa, c,
                           damaging, d0, damage + (if damaging then 1 else 0), breaksAt)
  {
    VisitStep(before, after, cleared, todo, order, mode, pa, c, damaging, d0, damage, breaksAt, p);
  }

  /** Visiting an accepted bit whose damage breaks the tool appends it to the order and clears nothing. */
  lemma BreakStep(before: map<Pos, BlockState>, after: map<Pos, BlockState>, cleared: set<Pos>,
                  todo: set<Pos>, order: seq<Pos>, mode: SphereMode, pa: bool, c: Vec3,
                  damaging: bool, d0: int, damage: int, breaksAt: int -> bool, p: Pos)
    requires ChiselProgress(before, after, cleared, todo, order, mode, pa, c, damaging, d0, damage, breaksAt)
    requires p in todo && SphereTest(mode, pa, c, StateEntry(p, after[p], true))
    requires damaging && breaksAt(damage + 1)
    ensures ChiselProgress(before, after, cleared, todo - {p}, order + [p], mode, pa, c,
                           damaging, d0, damage + 1, breaksAt)
  {
    VisitStep(before, after, cleared, todo, order, mode, pa, c, damaging, d0, damage, breaksAt, p);
  }

  /** The facts both visiting steps share: p is new to the order, and the kept set grows by p exactly when p is kept. */
  lemma VisitStep(before: map<Pos, BlockState>, after: map<Pos, BlockState>, cleared: set<Pos>,
                  todo: set<Pos>, order: seq<Pos>, mode: SphereMode, pa: bool, c: Vec3,
                  damaging: bool, d0: int, damage: int, breaksAt: int -> bool, p: Pos)
    requires ChiselProgress(before, after, cleared, todo, order, mode, pa, c, damaging, d0, damage, breaksAt)
    requires p in todo && SphereTest(mode, pa, c, StateEntry(p, after[p], true))
    ensures p in before && after[p] == before[p] && p !in cleared && p !in order && cleared <= before.Keys
    ensures Distinct(order + [p])
    ensures Kept(order + [p], d0, damaging, breaksAt)
            == cleared + (if !damaging || !breaksAt(damage + 1) then {p} else {})
  {
    KeptVisited(order, d0, damaging, breaksAt);
    KeptAppend(order, d0, damaging, breaksAt, p);
    var o := order + [p];
    forall i, j | 0 <= i < j < |o|
      ensures o[i] != o[j]
    {
      if j < |order| {
        assert o[i] == order[i] && o[j] == order[j];
      } else {
        assert o[i] == order[i] && order[i] in order;
      }
    }
  }

  /** Passing over a bit the filter rejects keeps the progress. */
  lemma SkipStep(before: map<Pos, BlockState>, after: map<Pos, BlockState>, cleared: set<Pos>,
                 todo: set<Pos>, order: seq<Pos>, mode: SphereMode, pa: bool, c: Vec3,
                 damaging: bool, d0: int, damage: int, breaksAt: int -> bool, p: Pos)
    requires ChiselProgress(before, after, cleared, todo, order, mode, pa, c, damaging, d0, damage, breaksAt)
    requires p in todo && !SphereTest(mode, pa, c, StateEntry(p, after[p], true))
    ensures ChiselProgress(before, after, cleared, todo - {p}, order, mode, pa, c, damaging, d0, damage, breaksAt)
  {
    KeptVisited(order, d0, damaging, breaksAt);
  }

  /** What the chisel batch's progress says once every bit has been visited. */
  lemma ChiselDone(before: map<Pos, BlockState>, after: map<Pos, BlockState>, cleared: set<Pos>,
                   order: seq<Pos>, mode: SphereMode, pa: bool, c: Vec3,
                   damaging: bool, d0: int, damage: int, breaksAt: int -> bool)
    requires ChiselProgress(before, after, cleared, {}, order, mode, pa, c, damaging, d0, damage, breaksAt)
    ensures forall q :: q in order <==> q in Selected(before, mode, pa, c)
    ensures cleared <= Selected(before, mode, pa, c)
    ensures !damaging ==> cleared == Selected(before, mode, pa, c)
    ensures after == SetAll(before, cleared, AIR)
  {
    KeptVisited(order, d0, damaging, breaksAt);
  }

  /** The batch of onRightClickBy: every bit of `targets` takes the held state (overrideState). */
  method FillSelected(area: AreaMutator, targets: set<Pos>, held: BlockState)
    modifies area
    ensures area.cells == SetAll(old(area.cells), targets, held)
  {
    ghost var before := area.cells;
    var todo := targets;
    while todo != {}
      invariant todo <= targets
      invariant area.cells == SetAll(before, targets - todo, held)
      decreases todo
    {
      var p :| p in todo;
      area.OverrideState(p, held);
      todo := todo - {p};
    }
  }

  /**
   * onRightClickBy: in a simulation nothing is edited; otherwise, with a non-air held bit state,
   * the air bits the filter accepts are counted; the context completes; and only when the player
   * is creative or the inventory can supply that many bits are they all set to the held state
   * (a non-creative inventory giving up exactly that count). The click is consumed either way.
   */
  method OnRightClickBy(mode: SphereMode, context: ChiselingContext, trace: Option<Vec3>, points: seq<Vec3>,
                        area: AreaMutator, inventory: BitInventory, player: Player)
    returns (r: ClickProcessingState)
    modifies context, area, inventory
    ensures context.simulation ==> r == DEFAULT_STATE && context.complete == old(context.complete)
    ensures r == DEFAULT_STATE ==> area.cells == old(area.cells) && inventory.calls == old(inventory.calls)
    ensures r == DEFAULT_STATE ==> context.complete == old(context.complete)
    ensures r != DEFAULT_STATE ==> r == ALLOWED_STATE && trace.Some? && !context.simulation && context.complete
    ensures HeldBitBlockStateFromPlayer(Some(player)) == AIR ==> r == DEFAULT_STATE
    ensures r == ALLOWED_STATE <==>
              !context.simulation && trace.Some? && context.region.Some? && HeldBitBlockStateFromPlayer(Some(player)) != AIR
    ensures r == ALLOWED_STATE ==>
              var held := HeldBitBlockStateFromPlayer(Some(player));
              var missing := AirSelected(old(area.cells), mode, context.processesAir, trace.value);
              && held != AIR
              && context.GetMetadata(ANCHOR) == Some(Vector(trace.value))
              && (if player.creative || inventory.canExtract(held, |missing|) then
                    && area.cells == SetAll(old(area.cells), missing, held)
                    && inventory.calls == old(inventory.calls) + (if player.creative then [] else [Extract(held, |missing|)])
                  else
                    area.cells == old(area.cells) && inventory.calls == old(inventory.calls))
  {
    var center := ProcessRayTraceIntoContext(mode, context, trace, points);
    if context.simulation {
      return DEFAULT_STATE;
    }
    if center.None? {
      return DEFAULT_STATE;
    }
    var c := center.value;
    context.SetMetadata(ANCHOR, Some(Vector(c)));
    var mutator := context.GetMutator();
    if mutator.None? {
      return DEFAULT_STATE;
    }
    var heldBlockState := HeldBitBlockStateFromPlayer(Some(player));
    if heldBlockState == AIR {
      return DEFAULT_STATE;
    }
    // the ray trace installed the sphere filter, so getStateFilter() is present here
    var filter: StateFilter := context.filter.value;
    var missing := set p | p in area.cells && area.cells[p] == AIR && filter(area.EntryAt(p));
    assert missing == AirSelected(area.cells, mode, context.processesAir, c);
    var missingBitCount := |missing|;
    context.SetComplete();
    if inventory.canExtract(heldBlockState, missingBitCount) || player.creative {
      if !player.creative {
        inventory.Call(Extract(heldBlockState, missingBitCount));
      }
      FillSelected(area, missing, heldBlockState);
    }
    return ALLOWED_STATE;
  }

  /**
   * isStillValid: with a recomputed centre, valid exactly when the stored anchor is that centre;
   * without one, valid exactly when no anchor is stored.
   */
  function IsStillValid(context: ChiselingContext, center: Option<Vec3>): (valid: bool)
    reads context
    ensures valid <==>
              ((center.Some? && context.GetMetadata(ANCHOR) == Some(Vector(center.value)))
               || (center.None? && context.GetMetadata(ANCHOR).None?))
  {
    var anchor := context.GetMetadata(ANCHOR);
    match center
    case Some(d) => anchor.Some? && anchor.value.Vector? && anchor.value.v == d
    case None => anchor.None?
  }
}
