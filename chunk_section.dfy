/**
 * ChunkSectionUtils: whole-section operations on a 16 x 16 x 16 section of block-state ids
 * (quarter-turn rotation, mirroring, fill from the bottom, NBT read with its corrupt-data fallback,
 * cloning).
 *
 * A section is a fixed buffer of 4096 state ids (`ChunkSection.cells`); cell (x, y, z) lives at
 * index y * 256 + z * 16 + x. Block states are opaque ids and 0 is air, the state a new section
 * holds everywhere.
 */
module ChunkSectionUtils {
  import opened Wrappers

  /** Cells per side (StateEntrySize.current().getBitsPerBlockSide()). */
  const SIDE: int := 16
  /** Cells per section (StateEntrySize.current().getBitsPerBlock()). */
  const VOLUME: int := 4096
  /** The air state id. */
  const AIR: int := 0

  datatype Axis = X | Y | Z

  /** A cell coordinate inside a section (or, for turned vectors, any integer triple). */
  datatype Cell = Cell(x: int, y: int, z: int)

  predicate InSection(c: Cell) {
    0 <= c.x < 16 && 0 <= c.y < 16 && 0 <= c.z < 16
  }

  /** Storage index of a cell: y-major, then z, then x. */
  function Index(c: Cell): (i: int)
    requires InSection(c)
    ensures 0 <= i < VOLUME
  {
    c.x + 16 * c.z + 256 * c.y
  }

  /** The cell stored at index i: the inverse of Index. */
  function CellAt(i: int): (c: Cell)
    requires 0 <= i < VOLUME
    ensures InSection(c) && Index(c) == i
  {
    var y, rest := i / 256, i % 256;
    assert i == 256 * y + rest && 0 <= rest < 256;
    assert rest == 16 * (rest / 16) + rest % 16;
    Cell(rest % 16, y, rest / 16)
  }

  lemma CellAtIndex(c: Cell)
    requires InSection(c)
    ensures CellAt(Index(c)) == c
  {
    var i := Index(c);
    assert i / 256 == c.y;
    assert i % 256 == c.x + 16 * c.z;
  }

  /** Distinct cells are stored at distinct indices. */
  lemma IndexInjective(c: Cell, d: Cell)
    requires InSection(c) && InSection(d) && Index(c) == Index(d)
    ensures c == d
  {
    CellAtIndex(c);
    CellAtIndex(d);
  }

  /* ---------------------------------------------------------------- rotation */

  /**
   * Twice the offset of a coordinate from the section centre 7.5. The Java code subtracts the
   * centre vector (7.5, 7.5, 7.5) in doubles; doubling keeps the same values exact in integers.
   */
  function Centred(c: int): int { 2 * c - 15 }

  /** Adds the centre back (and halves): the inverse of Centred. */
  function Uncentred(d: int): int { (d + 15) / 2 }

  /**
   * One positive (right-handed) quarter turn of a centre-relative vector about an axis
   * (VectorUtils.rotate90Degrees).
   */
  function TurnVector(v: Cell, axis: Axis): Cell {
    match axis
    case X => Cell(v.x, -v.z, v.y)
    case Y => Cell(v.z, v.y, -v.x)
    case Z => Cell(-v.y, v.x, v.z)
  }

  /**
   * One quarter turn of a cell about the section centre: subtract the centre, turn, add the
   * centre back. The result is always a whole cell, so the Java code's x1000 / round step
   * changes nothing.
   */
  function QuarterTurn(c: Cell, axis: Axis): (r: Cell)
    ensures axis == X ==> r == Cell(c.x, 15 - c.z, c.y)
    ensures axis == Y ==> r == Cell(c.z, c.y, 15 - c.x)
    ensures axis == Z ==> r == Cell(15 - c.y, c.x, c.z)
    ensures InSection(c) ==> InSection(r)
  {
    var v := TurnVector(Cell(Centred(c.x), Centred(c.y), Centred(c.z)), axis);
    Cell(Uncentred(v.x), Uncentred(v.y), Uncentred(v.z))
  }

  /** The quarter turn in the opposite direction. */
  function QuarterUnturn(c: Cell, axis: Axis): (r: Cell)
    ensures QuarterTurn(r, axis) == c
    ensures InSection(c) ==> InSection(r)
  {
    match axis
    case X => Cell(c.x, c.z, 15 - c.y)
    case Y => Cell(15 - c.z, c.y, c.x)
    case Z => Cell(c.y, 15 - c.x, c.z)
  }

  lemma UnturnQuarterTurn(c: Cell, axis: Axis)
    ensures QuarterUnturn(QuarterTurn(c, axis), axis) == c
  {
  }

  /** n quarter turns in a row, as the inner `for i < rotationCount` loop applies them. */
  function TurnN(c: Cell, axis: Axis, n: int): (r: Cell)
    ensures InSection(c) ==> InSection(r)
    decreases n
  {
    if n <= 0 then c else QuarterTurn(TurnN(c, axis, n - 1), axis)
  }

  /** n quarter turns backwards, the first one applied first. */
  function UnturnN(c: Cell, axis: Axis, n: int): (r: Cell)
    ensures InSection(c) ==> InSection(r)
    decreases n
  {
    if n <= 0 then c else UnturnN(QuarterUnturn(c, axis), axis, n - 1)
  }

  lemma {:induction false} TurnNUnturnN(c: Cell, axis: Axis, n: int)
    ensures TurnN(UnturnN(c, axis, n), axis, n) == c
    decreases n
  {
    if n > 0 {
      TurnNUnturnN(QuarterUnturn(c, axis), axis, n - 1);
    }
  }

  lemma {:induction false} UnturnNTurnN(c: Cell, axis: Axis, n: int)
    ensures UnturnN(TurnN(c, axis, n), axis, n) == c
    decreases n
  {
    if n > 0 {
      var prev := TurnN(c, axis, n - 1);
      UnturnQuarterTurn(prev, axis);
      UnturnNTurnN(c, axis, n - 1);
    }
  }

  /** Unturning m + n times is unturning n times and then m times. */
  lemma {:induction false} UnturnNAdd(c: Cell, axis: Axis, m: int, n: int)
    requires m >= 0 && n >= 0
    ensures UnturnN(UnturnN(c, axis, n), axis, m) == UnturnN(c, axis, m + n)
    decreases n
  {
    if n > 0 {
      UnturnNAdd(QuarterUnturn(c, axis), axis, m, n - 1);
    }
  }

  /** Four quarter turns about the same axis bring every cell back (the closure property). */
  lemma FourQuarterTurns(c: Cell, axis: Axis)
    ensures TurnN(c, axis, 4) == c
  {
    assert TurnN(c, axis, 2) == QuarterTurn(QuarterTurn(c, axis), axis);
  }

  /** The cell map of k quarter turns is injective on the section: no target cell is written twice. */
  lemma TurnNInjective(c: Cell, d: Cell, axis: Axis, n: int)
    requires InSection(c) && InSection(d) && c != d
    ensures TurnN(c, axis, n) != TurnN(d, axis, n)
    ensures Index(TurnN(c, axis, n)) != Index(TurnN(d, axis, n))
  {
    UnturnNTurnN(c, axis, n);
    UnturnNTurnN(d, axis, n);
    if Index(TurnN(c, axis, n)) == Index(TurnN(d, axis, n)) {
      IndexInjective(TurnN(c, axis, n), TurnN(d, axis, n));
    }
  }

  /** ... and onto the section: every target cell is the turn of exactly one source cell. */
  lemma TurnNOnto(q: Cell, axis: Axis, n: int)
    requires InSection(q)
    ensures InSection(UnturnN(q, axis, n)) && TurnN(UnturnN(q, axis, n), axis, n) == q
  {
    TurnNUnturnN(q, axis, n);
  }

  /* ---------------------------------------------------------------- whole-section values */

  /** The contents of a section, as a value. */
  type Grid = s: seq<int> | |s| == VOLUME witness seq(VOLUME, _ => AIR)

  /** The section rotate90Degrees builds: each target cell holds the source cell that turns onto it. */
  function Rotated(g: Grid, axis: Axis, n: int): Grid {
    seq(VOLUME, i requires 0 <= i < VOLUME => g[Index(UnturnN(CellAt(i), axis, n))])
  }

  /** Every source cell lands on its turned position. */
  lemma RotatedMovesCells(g: Grid, axis: Axis, n: int, c: Cell)
    requires InSection(c)
    ensures Rotated(g, axis, n)[Index(TurnN(c, axis, n))] == g[Index(c)]
  {
    CellAtIndex(TurnN(c, axis, n));
    UnturnNTurnN(c, axis, n);
  }

  /** Zero (or a negative number of) quarter turns move nothing. */
  lemma RotatedNone(g: Grid, axis: Axis, n: int)
    requires n <= 0
    ensures Rotated(g, axis, n) == g
  {
    forall i | 0 <= i < VOLUME
      ensures Rotated(g, axis, n)[i] == g[i]
    {
    }
  }

  /** Rotating by m and then by n quarter turns is rotating by m + n. */
  lemma RotatedCompose(g: Grid, axis: Axis, m: int, n: int)
    requires m >= 0 && n >= 0
    ensures Rotated(Rotated(g, axis, m), axis, n) == Rotated(g, axis, m + n)
  {
    forall i | 0 <= i < VOLUME
      ensures Rotated(Rotated(g, axis, m), axis, n)[i] == Rotated(g, axis, m + n)[i]
    {
      var q := UnturnN(CellAt(i), axis, n);
      CellAtIndex(q);
      UnturnNAdd(CellAt(i), axis, m, n);
    }
  }

  /** Four single quarter turns give back the original section. */
  lemma RotatedFourTimes(g: Grid, axis: Axis)
    ensures Rotated(Rotated(Rotated(Rotated(g, axis, 1), axis, 1), axis, 1), axis, 1) == g
  {
    RotatedCompose(g, axis, 1, 1);
    RotatedCompose(g, axis, 2, 1);
    RotatedCompose(g, axis, 3, 1);
    forall i | 0 <= i < VOLUME
      ensures Rotated(g, axis, 4)[i] == g[i]
    {
      var c := CellAt(i);
      TurnNUnturnN(c, axis, 4);
      FourQuarterTurns(UnturnN(c, axis, 4), axis);
    }
  }

  /** Reflection of one coordinate: c -> 15 - c on the chosen axis. */
  function Mirror(c: Cell, axis: Axis): (r: Cell)
    ensures InSection(c) ==> InSection(r)
  {
    match axis
    case X => Cell(15 - c.x, c.y, c.z)
    case Y => Cell(c.x, 15 - c.y, c.z)
    case Z => Cell(c.x, c.y, 15 - c.z)
  }

  /** Distinct source cells are mirrored onto distinct target cells. */
  lemma MirrorInjective(c: Cell, d: Cell, axis: Axis)
    requires InSection(c) && InSection(d) && c != d
    ensures Index(Mirror(c, axis)) != Index(Mirror(d, axis))
  {
    if Index(Mirror(c, axis)) == Index(Mirror(d, axis)) {
      IndexInjective(Mirror(c, axis), Mirror(d, axis));
    }
  }

  /** The section mirror builds: each target cell holds the source cell mirrored onto it. */
  function Mirrored(g: Grid, axis: Axis): Grid {
    seq(VOLUME, i requires 0 <= i < VOLUME => g[Index(Mirror(CellAt(i), axis))])
  }

  /** Only the chosen coordinate is reflected: cell (x, y, z) of the source lands on its mirror. */
  lemma MirroredMovesCells(g: Grid, axis: Axis, c: Cell)
    requires InSection(c)
    ensures Mirrored(g, axis)[Index(Mirror(c, axis))] == g[Index(c)]
  {
    CellAtIndex(Mirror(c, axis));
  }

  /** Mirroring twice about the same axis gives back the original section. */
  lemma MirroredTwice(g: Grid, axis: Axis)
    ensures Mirrored(Mirrored(g, axis), axis) == g
  {
    var once := Mirrored(g, axis);
    forall i | 0 <= i < VOLUME
      ensures Mirrored(once, axis)[i] == g[i]
    {
      var c := CellAt(i);
      var m := Mirror(c, axis);
      CellAtIndex(m);
      assert Mirror(m, axis) == c;
      assert once[Index(m)] == g[Index(c)];
    }
  }

  /** Position of a cell in fillFromBottom's scan: y outermost, then x, then z. */
  function ScanRank(c: Cell): int {
    256 * c.y + 16 * c.x + c.z
  }

  /** The cell at a scan position: the inverse of ScanRank. */
  function CellOfRank(r: int): (c: Cell)
    requires 0 <= r < VOLUME
    ensures InSection(c) && ScanRank(c) == r
  {
    var y, rest := r / 256, r % 256;
    assert r == 256 * y + rest && 0 <= rest < 256;
    assert rest == 16 * (rest / 16) + rest % 16;
    Cell(rest / 16, y, rest % 16)
  }

  lemma ScanRankInjective(c: Cell, d: Cell)
    requires InSection(c) && InSection(d) && ScanRank(c) == ScanRank(d)
    ensures c == d
  {
    var r := ScanRank(c);
    assert r / 256 == c.y == d.y;
    assert r % 256 == 16 * c.x + c.z == 16 * d.x + d.z;
  }

  /** Number of cells fillFromBottom writes: Math.max(0, Math.min(amount, 4096)). */
  function Clamp(amount: int): (k: int)
    ensures 0 <= k <= VOLUME
    ensures amount <= 0 ==> k == 0
    ensures 0 <= amount <= VOLUME ==> k == amount
    ensures amount >= VOLUME ==> k == VOLUME
  {
    if amount < 0 then 0 else if amount > VOLUME then VOLUME else amount
  }

  /** The first k cells in scan order hold s, every other cell is as in g. */
  function FirstCells(g: Grid, s: int, k: int): Grid {
    seq(VOLUME, i requires 0 <= i < VOLUME => if ScanRank(CellAt(i)) < k then s else g[i])
  }

  /** The section fillFromBottom leaves behind. */
  function FilledFromBottom(g: Grid, s: int, amount: int): Grid {
    FirstCells(g, s, Clamp(amount))
  }

  /** A non-positive amount changes nothing. */
  lemma FillNothing(g: Grid, s: int, amount: int)
    requires amount <= 0
    ensures FilledFromBottom(g, s, amount) == g
  {
    forall i | 0 <= i < VOLUME
      ensures FilledFromBottom(g, s, amount)[i] == g[i]
    {
      assert ScanRank(CellAt(i)) >= 0;
    }
  }

  /** An amount of 4096 or more fills the whole section. */
  lemma FillEverything(g: Grid, s: int, amount: int)
    requires amount >= VOLUME
    ensures FilledFromBottom(g, s, amount) == seq(VOLUME, _ => s)
  {
    forall i | 0 <= i < VOLUME
      ensures FilledFromBottom(g, s, amount)[i] == s
    {
      assert ScanRank(CellAt(i)) < VOLUME;
    }
  }

  /** The written cells are exactly the cells at scan positions 0 .. Clamp(amount) - 1. */
  lemma FillWritesScanPrefix(g: Grid, s: int, amount: int, r: int)
    requires 0 <= r < VOLUME
    ensures r < Clamp(amount) ==> FilledFromBottom(g, s, amount)[Index(CellOfRank(r))] == s
    ensures r >= Clamp(amount) ==> FilledFromBottom(g, s, amount)[Index(CellOfRank(r))] == g[Index(CellOfRank(r))]
  {
    CellAtIndex(CellOfRank(r));
  }

  /** Filling one more cell: the step of fillFromBottom's loop. */
  lemma FillStep(g: Grid, s: int, c: Cell)
    requires InSection(c)
    ensures FirstCells(g, s, ScanRank(c) + 1) == FirstCells(g, s, ScanRank(c))[Index(c) := s]
  {
    var after := FirstCells(g, s, ScanRank(c) + 1);
    var written := FirstCells(g, s, ScanRank(c))[Index(c) := s];
    forall i | 0 <= i < VOLUME
      ensures after[i] == written[i]
    {
      if ScanRank(CellAt(i)) == ScanRank(c) {
        ScanRankInjective(CellAt(i), c);
      } else if i == Index(c) {
        CellAtIndex(c);
      }
    }
  }

  /** Position of a cell in rotate90Degrees' scan: x outermost, then y, then z. */
  function TurnRank(c: Cell): int {
    256 * c.x + 16 * c.y + c.z
  }

  lemma TurnRankInjective(c: Cell, d: Cell)
    requires InSection(c) && InSection(d) && TurnRank(c) == TurnRank(d)
    ensures c == d
  {
    var r := TurnRank(c);
    assert r / 256 == c.x == d.x;
    assert r % 256 == 16 * c.y + c.z == 16 * d.y + d.z;
  }

  /** Every cell rotate90Degrees scans before position k has been written, turned, into dst. */
  ghost predicate RotatedBelow(src: Grid, dst: Grid, axis: Axis, n: int, k: int) {
    forall c :: InSection(c) && TurnRank(c) < k ==> dst[Index(TurnN(c, axis, n))] == src[Index(c)]
  }

  /** One iteration of rotate90Degrees' innermost loop extends the written part by one cell. */
  lemma RotateStep(src: Grid, dst: Grid, axis: Axis, n: int, c: Cell)
    requires InSection(c) && RotatedBelow(src, dst, axis, n, TurnRank(c))
    ensures RotatedBelow(src, dst[Index(TurnN(c, axis, n)) := src[Index(c)]], axis, n, TurnRank(c) + 1)
  {
    var next := dst[Index(TurnN(c, axis, n)) := src[Index(c)]];
    forall d | InSection(d) && TurnRank(d) < TurnRank(c) + 1
      ensures next[Index(TurnN(d, axis, n))] == src[Index(d)]
    {
      if d != c {
        if TurnRank(d) == TurnRank(c) {
          TurnRankInjective(d, c);
        }
        TurnNInjective(d, c, axis, n);
      }
    }
  }

  /** Once every cell is written, the target is the rotated section. */
  lemma RotatedComplete(src: Grid, dst: Grid, axis: Axis, n: int)
    requires RotatedBelow(src, dst, axis, n, VOLUME)
    ensures dst == Rotated(src, axis, n)
  {
    var rotated := Rotated(src, axis, n);
    forall i | 0 <= i < VOLUME
      ensures dst[i] == rotated[i]
    {
      TurnNOnto(CellAt(i), axis, n);
      assert TurnRank(UnturnN(CellAt(i), axis, n)) < VOLUME;
    }
  }

  /** Every cell mirror scans before position k has been written, mirrored, into dst. */
  ghost predicate MirroredBelow(src: Grid, dst: Grid, axis: Axis, k: int) {
    forall c :: InSection(c) && ScanRank(c) < k ==> dst[Index(Mirror(c, axis))] == src[Index(c)]
  }

  /** One iteration of mirror's innermost loop extends the written part by one cell. */
  lemma MirrorStep(src: Grid, dst: Grid, axis: Axis, c: Cell)
    requires InSection(c) && MirroredBelow(src, dst, axis, ScanRank(c))
    ensures MirroredBelow(src, dst[Index(Mirror(c, axis)) := src[Index(c)]], axis, ScanRank(c) + 1)
  {
    var next := dst[Index(Mirror(c, axis)) := src[Index(c)]];
    forall d | InSection(d) && ScanRank(d) < ScanRank(c) + 1
      ensures next[Index(Mirror(d, axis))] == src[Index(d)]
    {
      if d != c {
        if ScanRank(d) == ScanRank(c) {
          ScanRankInjective(d, c);
        }
        MirrorInjective(d, c, axis);
      }
    }
  }

  /** Once every cell is written, the target is the mirrored section. */
  lemma MirroredComplete(src: Grid, dst: Grid, axis: Axis)
    requires MirroredBelow(src, dst, axis, VOLUME)
    ensures dst == Mirrored(src, axis)
  {
    var mirrored := Mirrored(src, axis);
    forall i | 0 <= i < VOLUME
      ensures dst[i] == mirrored[i]
    {
      var c := Mirror(CellAt(i), axis);
      assert Mirror(c, axis) == CellAt(i);
      assert ScanRank(c) < VOLUME;
    }
  }

  /* ---------------------------------------------------------------- NBT */

  /**
   * The NBT compound a section is stored in. `states` is what the palette and block-state
   * arrays decode to; the compressed form keeps a flag and a gzip payload beside them.
   */
  datatype SectionTag =
    | EmptyTag
    | Tag(compressedFlag: Option<bool>, compressedData: Option<seq<bv8>>, states: Grid)

  /** The section contents deserializeNBT leaves behind; `inflate` is the gzip read plus palette read. */
  function Deserialized(g: Grid, nbt: SectionTag, inflate: seq<bv8> -> Option<Grid>): Grid {
    match nbt
    case EmptyTag => g
    case Tag(flag, data, states) =>
      if flag == Some(true) && data.Some? then
        match inflate(data.value)
        case Some(decoded) => decoded
        case None => FilledFromBottom(g, AIR, VOLUME)
      else states
  }

  /** An empty compound leaves the section untouched. */
  lemma DeserializeEmpty(g: Grid, inflate: seq<bv8> -> Option<Grid>)
    ensures Deserialized(g, EmptyTag, inflate) == g
  {
  }

  /** A compressed payload that fails to decompress resets every cell to air. */
  lemma DeserializeCorrupt(g: Grid, data: seq<bv8>, states: Grid, inflate: seq<bv8> -> Option<Grid>)
    requires inflate(data) == None
    ensures Deserialized(g, Tag(Some(true), Some(data), states), inflate) == seq(VOLUME, _ => AIR)
  {
    FillEverything(g, AIR, VOLUME);
  }

  /** serializeNBT: the uncompressed palette form of the section. */
  function SerializeNbt(g: Grid): (t: SectionTag)
    ensures t.Tag? && t.compressedFlag != Some(true)
  {
    Tag(None, None, g)
  }

  /** Reading back what serializeNBT wrote restores the contents, whatever the section held before. */
  lemma SerializeRoundTrip(before: Grid, g: Grid, inflate: seq<bv8> -> Option<Grid>)
    ensures Deserialized(before, SerializeNbt(g), inflate) == g
  {
  }

  const AIR_GRID: Grid := seq(VOLUME, _ => AIR)

  /* ---------------------------------------------------------------- the section object */

  /** A chunk section: a fixed buffer of 4096 block-state ids. */
  class ChunkSection {
    const cells: array<int>

    predicate Valid() {
      cells.Length == VOLUME
    }

    /** new ChunkSection(0): every cell holds air. */
    constructor ()
      ensures Valid() && fresh(cells)
      ensures cells[..] == AIR_GRID
    {
      cells := new int[VOLUME](_ => AIR);
    }

    function GetBlockState(c: Cell): int
      requires Valid() && InSection(c)
      reads cells
    {
      cells[Index(c)]
    }

    method SetBlockState(c: Cell, s: int)
      requires Valid() && InSection(c)
      modifies cells
      ensures cells[..] == old(cells[..])[Index(c) := s]
    {
      cells[Index(c)] := s;
    }
  }

  /**
   * rotate90Degrees: a count of 0 returns the very same section; any other count writes every
   * source cell, turned rotationCount times about the centre, into a new section.
   */
  method Rotate90Degrees(source: ChunkSection, axis: Axis, rotationCount: int) returns (target: ChunkSection)
    requires source.Valid()
    ensures target.Valid()
    ensures rotationCount == 0 ==> target == source
    ensures rotationCount != 0 ==> fresh(target) && fresh(target.cells)
    ensures target.cells[..] == Rotated(source.cells[..], axis, rotationCount)
  {
    if rotationCount == 0 {
      RotatedNone(source.cells[..], axis, 0);
      return source;
    }
    target := new ChunkSection();
    ghost var src: Grid := source.cells[..];
    for x := 0 to SIDE
      invariant target.Valid() && fresh(target) && fresh(target.cells)
      invariant RotatedBelow(src, target.cells[..], axis, rotationCount, 256 * x)
    {
      for y := 0 to SIDE
        invariant target.Valid() && fresh(target) && fresh(target.cells)
        invariant RotatedBelow(src, target.cells[..], axis, rotationCount, 256 * x + 16 * y)
      {
        for z := 0 to SIDE
          invariant target.Valid() && fresh(target) && fresh(target.cells)
          invariant RotatedBelow(src, target.cells[..], axis, rotationCount, 256 * x + 16 * y + z)
        {
          var working := Cell(x, y, z);
          var rotated := TurnCell(working, axis, rotationCount);
          RotateStep(src, target.cells[..], axis, rotationCount, working);
          target.SetBlockState(rotated, source.GetBlockState(working));
        }
      }
    }
    RotatedComplete(src, target.cells[..], axis, rotationCount);
  }

  /** The innermost loop of rotate90Degrees: rotationCount quarter turns of one cell about the centre. */
  method TurnCell(working: Cell, axis: Axis, rotationCount: int) returns (rotated: Cell)
    ensures rotated == TurnN(working, axis, rotationCount)
  {
    rotated := working;
    var i := 0;
    while i < rotationCount
      invariant rotated == TurnN(working, axis, i)
      invariant 0 <= i && (i <= rotationCount || i == 0)
    {
      rotated := QuarterTurn(rotated, axis);
      i := i + 1;
    }
  }

  /** mirror: writes every source cell, reflected on the axis, into a new section. */
  method MirrorSection(source: ChunkSection, axis: Axis) returns (result: ChunkSection)
    requires source.Valid()
    ensures result.Valid() && fresh(result) && fresh(result.cells)
    ensures result.cells[..] == Mirrored(source.cells[..], axis)
  {
    result := new ChunkSection();
    ghost var src: Grid := source.cells[..];
    for y := 0 to SIDE
      invariant result.Valid() && fresh(result) && fresh(result.cells)
      invariant MirroredBelow(src, result.cells[..], axis, 256 * y)
    {
      for x := 0 to SIDE
        invariant result.Valid() && fresh(result) && fresh(result.cells)
        invariant MirroredBelow(src, result.cells[..], axis, 256 * y + 16 * x)
      {
        for z := 0 to SIDE
          invariant result.Valid() && fresh(result) && fresh(result.cells)
          invariant MirroredBelow(src, result.cells[..], axis, 256 * y + 16 * x + z)
        {
          var here := Cell(x, y, z);
          var blockState := source.GetBlockState(here);
          var mirrored := Mirror(here, axis);
          MirrorStep(src, result.cells[..], axis, here);
          result.SetBlockState(mirrored, blockState);
        }
      }
    }
    MirroredComplete(src, result.cells[..], axis);
  }

  /**
   * fillFromBottom: sets the first Clamp(amount) cells, in y / x / z scan order, to s and stops
   * as soon as that many are written.
   */
  method FillFromBottom(section: ChunkSection, s: int, amount: int)
    requires section.Valid()
    modifies section.cells
    ensures section.cells[..] == FilledFromBottom(old(section.cells[..]), s, amount)
  {
    ghost var g: Grid := section.cells[..];
    var loopCount := Clamp(amount);
    if loopCount == 0 {
      FillNothing(g, s, amount);
      return;
    }
    var count := 0;
    for y := 0 to SIDE
      invariant count == 256 * y
      invariant count <= loopCount && (count == loopCount ==> count == VOLUME)
      invariant section.cells[..] == FirstCells(g, s, count)
    {
      for x := 0 to SIDE
        invariant count == 256 * y + 16 * x
        invariant count <= loopCount && (count == loopCount ==> count == VOLUME)
        invariant section.cells[..] == FirstCells(g, s, count)
      {
        for z := 0 to SIDE
          invariant count == 256 * y + 16 * x + z
          invariant count <= loopCount && (count == loopCount ==> count == VOLUME)
          invariant section.cells[..] == FirstCells(g, s, count)
        {
          FillStep(g, s, Cell(x, y, z));
          section.SetBlockState(Cell(x, y, z), s);
          count := count + 1;
          if count == loopCount {
            return;
          }
        }
      }
    }
  }

  /**
   * deserializeNBT: an empty compound changes nothing; a compressed payload is decompressed and
   * read, and when that fails every cell is reset to air instead of raising; otherwise the
   * palette arrays are read.
   */
  method DeserializeNbt(section: ChunkSection, nbt: SectionTag, inflate: seq<bv8> -> Option<Grid>)
    requires section.Valid()
    modifies section.cells
    ensures section.cells[..] == Deserialized(old(section.cells[..]), nbt, inflate)
  {
    if nbt.EmptyTag? {
      return;
    }
    if nbt.compressedFlag == Some(true) && nbt.compressedData.Some? {
      var decoded := inflate(nbt.compressedData.value);
      if decoded.Some? {
        LoadStates(section, decoded.value);
      } else {
        FillFromBottom(section, AIR, VOLUME);
      }
    } else {
      LoadStates(section, nbt.states);
    }
  }

  /** The palette container read: every cell takes the decoded state. */
  method LoadStates(section: ChunkSection, states: Grid)
    requires section.Valid()
    modifies section.cells
    ensures section.cells[..] == states
  {
    for i := 0 to VOLUME
      invariant section.cells[..i] == states[..i]
    {
      section.cells[i] := states[i];
    }
  }

  /** cloneSection: a new section read back from the source's uncompressed serialization. */
  method CloneSection(source: ChunkSection) returns (clone: ChunkSection)
    requires source.Valid()
    ensures clone.Valid() && fresh(clone) && fresh(clone.cells)
    ensures clone.cells[..] == source.cells[..]
  {
    clone := new ChunkSection();
    DeserializeNbt(clone, SerializeNbt(source.cells[..]), _ => None);
  }
}
