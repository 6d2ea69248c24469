/**
 * The shared vocabulary of the chiseling code: block-state ids, bit positions, world vectors,
 * state entries, an area mutator over a finite map of cells, a player's bit inventory (as the
 * ledger of calls made on it) and per-state bit tallies.
 *
 * The area mutator and the bit inventory are interfaces whose implementations are not part of
 * this model; they are modelled by the least the callers rely on.
 */
module WorldArea {
  import opened Wrappers

  /** A block state, as an opaque id. */
  type BlockState = nat

  /** The air state. */
  const AIR: BlockState := 0

  /** A bit position inside an area (integer bit-grid coordinates). */
  datatype Pos = Pos(x: int, y: int, z: int)

  /** A world-space vector (Vector3d). */
  datatype Vec3 = Vec3(x: real, y: real, z: real)

  /** One bit of an area, as handed to filters: its position, state and whether it lies in a world. */
  datatype StateEntry = StateEntry(pos: Pos, state: BlockState, inWorld: bool)

  /** Where a voxel blob's bytes come from: an encoded blob, or a whole block of one state. */
  datatype BlobSource = FromBytes(data: seq<bv8>) | FromState(stateId: int)

  /** A state filter built for an area (Predicate<IStateEntryInfo>). */
  type StateFilter = StateEntry -> bool

  /** The exception IAreaMutator.setInAreaTarget raises when the target bit is not air. */
  datatype MutationError = SpaceOccupied

  /** An area mutator: the cells of the covered area, updated in place. */
  class AreaMutator {
    var cells: map<Pos, BlockState>

    constructor (cells: map<Pos, BlockState>)
      ensures this.cells == cells
    {
      this.cells := cells;
    }

    /** getInAreaTarget: the entry at p, empty outside the area. */
    function GetInAreaTarget(p: Pos): (r: Option<BlockState>)
      reads this
      ensures r.Some? <==> p in cells
      ensures r.Some? ==> r.value == cells[p]
    {
      if p in cells then Some(cells[p]) else None
    }

    /** The entry for the bit at p, as the in-world streams produce it. */
    function EntryAt(p: Pos): StateEntry
      reads this
      requires p in cells
    {
      StateEntry(p, cells[p], true)
    }

    /** clearInAreaTarget: the bit at p becomes air; positions outside the area are left alone. */
    method ClearInAreaTarget(p: Pos)
      modifies this
      ensures cells == if p in old(cells) then old(cells)[p := AIR] else old(cells)
    {
      if p in cells {
        cells := cells[p := AIR];
      }
    }

    /** setInAreaTarget: fails with SpaceOccupied when the bit at p is not air. */
    method SetInAreaTarget(s: BlockState, p: Pos) returns (r: Outcome<MutationError>)
      modifies this
      ensures r.Fail? <==> p in old(cells) && old(cells)[p] != AIR
      ensures cells == if p in old(cells) && old(cells)[p] == AIR then old(cells)[p := s] else old(cells)
    {
      if p in cells && cells[p] != AIR {
        return Fail(SpaceOccupied);
      }
      if p in cells {
        cells := cells[p := s];
      }
      return Pass;
    }

    /** overrideState: the bit at p takes state s whatever it held. */
    method OverrideState(p: Pos, s: BlockState)
      modifies this
      ensures cells == if p in old(cells) then old(cells)[p := s] else old(cells)
    {
      if p in cells {
        cells := cells[p := s];
      }
    }
  }

  /** A call made on a player's bit inventory. */
  datatype InventoryCall =
    | InsertOrDiscard(state: BlockState, count: int)
    | Extract(state: BlockState, count: int)
    | InsertIntoOrSpawn(state: BlockState, count: int)

  /**
   * A player's bit inventory. What it can take or give is decided by the unseen implementation,
   * so `canInsert` / `canExtract` are fixed oracles and the effect of each call is the call
   * itself, appended to `calls`.
   */
  class BitInventory {
    const canInsert: (BlockState, int) -> bool
    const canExtract: (BlockState, int) -> bool
    var calls: seq<InventoryCall>

    constructor (canInsert: (BlockState, int) -> bool, canExtract: (BlockState, int) -> bool)
      ensures this.canInsert == canInsert && this.canExtract == canExtract && calls == []
    {
      this.canInsert := canInsert;
      this.canExtract := canExtract;
      calls := [];
    }

    method Call(c: InventoryCall)
      modifies this
      ensures calls == old(calls) + [c]
    {
      calls := calls + [c];
    }
  }

  /** The kind of a call, so that a run of calls of one kind can be summed per state. */
  datatype CallKind = InsertKind | ExtractKind | SpawnKind

  function KindOf(c: InventoryCall): CallKind {
    match c
    case InsertOrDiscard(_, _) => InsertKind
    case Extract(_, _) => ExtractKind
    case InsertIntoOrSpawn(_, _) => SpawnKind
  }

  function MakeCall(kind: CallKind, s: BlockState, n: int): (c: InventoryCall)
    ensures KindOf(c) == kind && c.state == s && c.count == n
  {
    match kind
    case InsertKind => InsertOrDiscard(s, n)
    case ExtractKind => Extract(s, n)
    case SpawnKind => InsertIntoOrSpawn(s, n)
  }

  /** Bits per state that a run of calls moves, summed over the run. */
  function Moved(calls: seq<InventoryCall>): map<BlockState, int>
  {
    if calls == [] then map[]
    else
      var before := Moved(calls[..|calls| - 1]);
      var c := calls[|calls| - 1];
      before[c.state := (if c.state in before then before[c.state] else 0) + c.count]
  }

  /**
   * Hands a whole tally to the inventory, one call per state (Map.forEach; the iteration order
   * of a hash map is not modelled). Afterwards the new calls move exactly the tally, one state
   * per call.
   */
  method Settle(inv: BitInventory, tally: map<BlockState, nat>, kind: CallKind)
    modifies inv
    ensures |inv.calls| == |old(inv.calls)| + |tally|
    ensures inv.calls[..|old(inv.calls)|] == old(inv.calls)
    ensures forall c <- inv.calls[|old(inv.calls)|..] :: KindOf(c) == kind
    ensures Moved(inv.calls[|old(inv.calls)|..]) == tally
  {
    ghost var start := inv.calls;
    var todo := tally.Keys;
    ghost var done: map<BlockState, int> := map[];
    while todo != {}
      invariant todo <= tally.Keys
      invariant done == map s | s in tally.Keys && s !in todo :: tally[s] as int
      invariant |inv.calls| == |start| + |done|
      invariant inv.calls[..|start|] == start
      invariant forall c <- inv.calls[|start|..] :: KindOf(c) == kind
      invariant Moved(inv.calls[|start|..]) == done
      decreases todo
    {
      var s :| s in todo;
      ghost var run := inv.calls[|start|..];
      inv.Call(MakeCall(kind, s, tally[s]));
      assert inv.calls[|start|..] == run + [MakeCall(kind, s, tally[s])];
      assert (run + [MakeCall(kind, s, tally[s])])[..|run|] == run;
      todo := todo - {s};
      done := done[s := tally[s]];
    }
    assert done == tally;
  }

  /* ---------------------------------------------------------------- tallies */

  /** The states a set of bits carries. */
  function StatesOf(ps: set<Pos>, labels: map<Pos, BlockState>): set<BlockState>
    requires ps <= labels.Keys
  {
    set p | p in ps :: labels[p]
  }

  /** The bits of ps that carry state s. */
  function WithState(ps: set<Pos>, labels: map<Pos, BlockState>, s: BlockState): set<Pos>
    requires ps <= labels.Keys
  {
    set p | p in ps && labels[p] == s
  }

  /** Per-state counts of a set of bits, each bit counted under the state `labels` gives it. */
  function Tally(ps: set<Pos>, labels: map<Pos, BlockState>): map<BlockState, nat>
    requires ps <= labels.Keys
  {
    map s | s in StatesOf(ps, labels) :: |WithState(ps, labels, s)|
  }

  ghost function Pick<T>(s: set<T>): T
    requires s != {}
  {
    var x :| x in s; x
  }

  /** The sum of a tally's counts. */
  ghost function Total(m: map<BlockState, nat>): nat
    decreases |m|
  {
    if |m| == 0 then 0
    else
      var k := Pick(m.Keys);
      assert (m - {k}).Keys == m.Keys - {k};
      m[k] + Total(m - {k})
  }

  lemma {:induction false} TotalRemove(m: map<BlockState, nat>, k: BlockState)
    requires k in m
    ensures Total(m) == m[k] + Total(m - {k})
    decreases |m|
  {
    var j := Pick(m.Keys);
    assert (m - {j}).Keys == m.Keys - {j};
    if j != k {
      assert (m - {k}).Keys == m.Keys - {k};
      TotalRemove(m - {j}, k);
      TotalRemove(m - {k}, j);
      assert m - {j} - {k} == m - {k} - {j};
    }
  }

  /** Dropping one state's bits from the set drops that state's entry from the tally. */
  lemma TallyWithout(ps: set<Pos>, labels: map<Pos, BlockState>, k: BlockState)
    requires ps <= labels.Keys
    ensures Tally(ps, labels) - {k} == Tally(ps - WithState(ps, labels, k), labels)
  {
    var rest := ps - WithState(ps, labels, k);
    var t := Tally(ps, labels) - {k};
    var u := Tally(rest, labels);
    forall s | s in u
      ensures s in t
    {
      var q :| q in rest && labels[q] == s;
    }
    forall s | s in t
      ensures s in u && t[s] == u[s]
    {
      var q :| q in ps && labels[q] == s;
      assert q in rest;
      assert WithState(ps, labels, s) == WithState(rest, labels, s);
    }
  }

  /** A tally's counts add up to the number of bits tallied. */
  lemma {:induction false} TallyTotal(ps: set<Pos>, labels: map<Pos, BlockState>)
    requires ps <= labels.Keys
    ensures Total(Tally(ps, labels)) == |ps|
    decreases |ps|
  {
    if ps == {} {
      assert Tally(ps, labels) == map[];
    } else {
      var p :| p in ps;
      var k := labels[p];
      var same := WithState(ps, labels, k);
      var rest := ps - same;
      assert p in same;
      assert k in Tally(ps, labels);
      TotalRemove(Tally(ps, labels), k);
      TallyWithout(ps, labels, k);
      assert ps == same + rest;
      TallyTotal(rest, labels);
    }
  }

  /** Counting one more bit adds one to its state's count (putIfAbsent then +1). */
  lemma TallyAdd(ps: set<Pos>, labels: map<Pos, BlockState>, p: Pos)
    requires ps <= labels.Keys && p in labels && p !in ps
    ensures Tally(ps + {p}, labels) ==
            Tally(ps, labels)[labels[p] := (if labels[p] in Tally(ps, labels) then Tally(ps, labels)[labels[p]] else 0) + 1]
  {
    var s := labels[p];
    var before := Tally(ps, labels);
    var after := Tally(ps + {p}, labels);
    assert WithState(ps + {p}, labels, s) == WithState(ps, labels, s) + {p};
    forall t | t in after && t != s
      ensures t in before && after[t] == before[t]
    {
      var q :| q in ps + {p} && labels[q] == t;
      assert WithState(ps + {p}, labels, t) == WithState(ps, labels, t);
    }
    forall t | t in before
      ensures t in after
    {
      var q :| q in ps && labels[q] == t;
      assert q in ps + {p};
    }
    if s !in before {
      assert WithState(ps, labels, s) == {};
    }
  }
}
