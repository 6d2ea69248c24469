/**
 * TileEntityBlockChiseled: the tile of a chiseled block. Its state is a set of optional
 * properties (side-solidity flags, the representative block id, opacity, light level, the
 * voxel-blob reference and the neighbour tracker), reassigned by reading stored data, filling,
 * and setting a new blob; a pick-item cache is reassigned by getItemStack.
 *
 * Voxel blobs are 4096-cell grids of state ids; decoding, encoding, statistics, the side-flag
 * scan, the Y spin and the pick-item stack builder are oracles. World calls are recorded as
 * effects, in order.
 */
module TileEntityBlockChiseled {
  import opened Wrappers
  import opened ItemStackUtils
  import opened WorldArea

  /** Block.getStateId of cobblestone's default state: block id 4, metadata 0. */
  const COBBLESTONE: int := 4

  const BLOB_CELLS: int := 4096

  /** A voxel blob: the state id of each of its cells (0 is air). */
  type Blob = b: seq<int> | |b| == BLOB_CELLS witness seq(BLOB_CELLS, _ => 0)

  /** new VoxelBlob(): every cell air. */
  const EMPTY_BLOB: Blob := seq(BLOB_CELLS, _ => 0)

  /** VoxelBlob.fill(s). */
  function Filled(s: int): (b: Blob)
    ensures forall i :: 0 <= i < BLOB_CELLS ==> b[i] == s
  {
    seq(BLOB_CELLS, _ => s)
  }

  /** VoxelBlob.canMerge: no cell is filled in both blobs. */
  predicate BlobsMerge(a: Blob, b: Blob) {
    forall i :: 0 <= i < BLOB_CELLS ==> a[i] == 0 || b[i] == 0
  }

  /** Merging is symmetric, always possible with an empty blob, and refused on any shared filled cell. */
  lemma BlobsMergeProperties(a: Blob, b: Blob, i: int)
    ensures BlobsMerge(a, b) == BlobsMerge(b, a)
    ensures BlobsMerge(a, EMPTY_BLOB)
    ensures 0 <= i < BLOB_CELLS && a[i] != 0 && b[i] != 0 ==> !BlobsMerge(a, b)
  {
  }

  /** The six faces, in EnumFacing ordinal order. */
  datatype Facing = Down | Up | North | South | West | East

  function Ordinal(f: Facing): (n: nat)
    ensures n < 6
  {
    match f
    case Down => 0
    case Up => 1
    case North => 2
    case South => 3
    case West => 4
    case East => 5
  }

  predicate IsHorizontal(f: Facing) {
    f.North? || f.South? || f.West? || f.East?
  }

  /** EnumFacing.rotateYCCW on the horizontal faces (the vertical ones have no such rotation). */
  function RotateYCCW(f: Facing): (g: Facing)
    requires IsHorizontal(f)
    ensures IsHorizontal(g) && g != f
  {
    match f
    case North => West
    case West => South
    case South => East
    case East => North
  }

  function RotateYCCWTimes(f: Facing, n: nat): (g: Facing)
    requires IsHorizontal(f)
    ensures IsHorizontal(g)
  {
    if n == 0 then f else RotateYCCW(RotateYCCWTimes(f, n - 1))
  }

  /** Four quarter turns bring a horizontal face back. */
  lemma {:induction false} FourTurnsIdentity(f: Facing, n: nat)
    requires IsHorizontal(f)
    ensures RotateYCCWTimes(f, n + 4) == RotateYCCWTimes(f, n)
  {
    if n == 0 {
      assert RotateYCCWTimes(f, 4) == RotateYCCW(RotateYCCW(RotateYCCW(RotateYCCW(f))));
    } else {
      FourTurnsIdentity(f, n - 1);
      assert RotateYCCWTimes(f, n + 4) == RotateYCCW(RotateYCCWTimes(f, n + 3));
    }
  }

  /** The facing the pick item is built for depends only on the rotation count modulo four. */
  lemma {:induction false} TurnsModFour(f: Facing, n: nat)
    requires IsHorizontal(f)
    ensures RotateYCCWTimes(f, n) == RotateYCCWTimes(f, n % 4)
    decreases n
  {
    if n >= 4 {
      TurnsModFour(f, n - 4);
      FourTurnsIdentity(f, n - 4);
    }
  }

  /**
   * A VoxelBlobStateReference. References are compared by identity in the code; each one made
   * here carries a fresh serial number, so equal values are the same reference.
   */
  datatype BlobRef = BlobRef(serial: nat, source: BlobSource, seed: int)

  /** The tile's extended block state; None is a property with no value (a null state has none). */
  datatype Props = Props(side: Option<bv32>, block: Option<int>, opacity: Option<real>, light: Option<int>,
                         blob: Option<BlobRef>, tracker: bool)

  const DEFAULT_PROPS: Props := Props(None, None, None, None, None, false)

  /** VoxelBlob.getVoxelStats. */
  datatype BlobStats = BlobStats(mostCommonState: int, isFullBlock: bool, blockLight: real)

  /** The unseen VoxelBlob code the tile calls. */
  datatype Voxels = Voxels(
    decode: BlobSource -> Option<Blob>,
    /** What a fresh blob holds after fromLegacyByteArray, whether or not that threw. */
    fromLegacy: seq<bv8> -> Blob,
    toBytes: Blob -> seq<bv8>,
    stateBytes: int -> seq<bv8>,
    stats: Blob -> BlobStats,
    opacityOf: Blob -> real,
    sideFlagsOf: Blob -> bv32,
    spinY: Blob -> Blob,
    /** BitAccess.getBitsAsItem for a blob and a facing. */
    bitsAsItem: (Blob, Option<Facing>) -> ItemStack)

  /** The bytes a reference holds (VoxelBlobStateReference.getByteArray). */
  function RefBytes(vox: Voxels, r: BlobRef): seq<bv8> {
    match r.source
    case FromBytes(d) => d
    case FromState(s) => vox.stateBytes(s)
  }

  /** The stored compound: "s", "b", "l", "lv", "X" (versioned voxels) and "v" (legacy voxels). */
  datatype ChiselTag = ChiselTag(side: bv32, block: int, opacity: real, light: int, versioned: seq<bv8>, legacy: seq<bv8>)

  /** What writeChisleData does to the compound. */
  datatype WriteOutcome =
    | NothingWritten
    | Written(tag: ChiselTag)
    /** The side flags are unboxed while absent: a NullPointerException after part of the compound is written. */
    | SideFlagsMissing

  /**
   * writeChisleData: nothing without a block id or a blob reference; otherwise opacity defaults
   * to 1.0 and light to 0, and the reference's bytes go under the versioned key.
   */
  function WriteChisleData(vox: Voxels, p: Props): (w: WriteOutcome)
    ensures w.NothingWritten? <==> p.block.None? || p.blob.None?
    ensures w.SideFlagsMissing? <==> p.block.Some? && p.blob.Some? && p.side.None?
    ensures w.Written? ==> w.tag.side == p.side.value && w.tag.block == p.block.value
    ensures w.Written? ==> w.tag.versioned == RefBytes(vox, p.blob.value)
    ensures w.Written? ==> w.tag.opacity == (if p.opacity.None? then 1.0 else p.opacity.value)
    ensures w.Written? ==> w.tag.light == (if p.light.None? then 0 else p.light.value)
  {
    if p.block.None? || p.blob.None? then NothingWritten
    else if p.side.None? then SideFlagsMissing
    else
      Written(ChiselTag(p.side.value, p.block.value, if p.opacity.None? then 1.0 else p.opacity.value,
                        if p.light.None? then 0 else p.light.value, RefBytes(vox, p.blob.value), []))
  }

  /** The versioned bytes readChisleData settles on: legacy voxels are converted when only they are present. */
  function VersionedBytes(vox: Voxels, t: ChiselTag): (v: seq<bv8>)
    ensures |t.versioned| > 0 ==> v == t.versioned
    ensures |t.versioned| == 0 && |t.legacy| > 0 ==> v == vox.toBytes(vox.fromLegacy(t.legacy))
  {
    if |t.versioned| == 0 && |t.legacy| > 0 then vox.toBytes(vox.fromLegacy(t.legacy)) else t.versioned
  }

  /**
   * The properties readChisleData sets: every value from the compound, a block id of 0 read as
   * cobblestone, a new reference to the settled bytes, and a neighbour tracker.
   */
  function ReadProps(vox: Voxels, t: ChiselTag, serial: nat, seed: int): (p: Props)
    ensures p.block == Some(if t.block == 0 then COBBLESTONE else t.block)
    ensures p.side == Some(t.side) && p.opacity == Some(t.opacity) && p.light == Some(t.light) && p.tracker
    ensures p.blob.Some? && p.blob.value.serial == serial
  {
    Props(Some(t.side), Some(if t.block == 0 then COBBLESTONE else t.block), Some(t.opacity), Some(t.light),
          Some(BlobRef(serial, FromBytes(VersionedBytes(vox, t)), seed)), true)
  }

  /**
   * Writing then reading keeps the side flags and the blob bytes, keeps a non-zero block id,
   * and fills in the opacity and light defaults.
   */
  lemma WriteReadRoundTrip(vox: Voxels, p: Props, serial: nat, seed: int)
    requires WriteChisleData(vox, p).Written?
    ensures var q := ReadProps(vox, WriteChisleData(vox, p).tag, serial, seed);
            && q.side == p.side
            && (p.block != Some(0) ==> q.block == p.block)
            && q.opacity == Some(if p.opacity.None? then 1.0 else p.opacity.value)
            && q.light == Some(if p.light.None? then 0 else p.light.value)
            && RefBytes(vox, q.blob.value) == RefBytes(vox, p.blob.value)
  {
  }

  /** Java's (int) cast of a float: truncation toward zero. */
  function Truncate(r: real): int {
    if r >= 0.0 then r.Floor else -((-r).Floor)
  }

  /** setBlob's light level: the blob's block light scaled to 15, truncated and clamped to [0, 15]. */
  function LightLevel(light: real): (lv: int)
    ensures 0 <= lv <= 15
    ensures 0.0 <= light <= 1.0 ==> lv == (light * 15.0).Floor
  {
    var scaled := Truncate(light * 15.0);
    if scaled < 0 then 0 else if scaled > 15 then 15 else scaled
  }

  /** isSideSolid: solid when no flags are stored, else the flag bit of the side's ordinal. */
  function IsSideSolid(p: Props, side: Facing): (solid: bool)
    ensures p.side.Some? ==> (solid <==> (p.side.value >> Ordinal(side)) & 1 == 1)
    ensures p.side == Some(0xFF) ==> solid
  {
    p.side.None? || p.side.value & (1 << Ordinal(side)) != 0
  }

  /** getBlockState: the state of the stored block id when it names one, else the alternative's default. */
  function BlockStateOf(p: Props, stateById: int -> Option<int>, alternativeDefault: int): (s: int)
    ensures p.block.None? ==> s == alternativeDefault
    ensures p.block.Some? && stateById(p.block.value).Some? ==> s == stateById(p.block.value).value
    ensures p.block.Some? && stateById(p.block.value).None? ==> s == alternativeDefault
  {
    if p.block.Some? && stateById(p.block.value).Some? then stateById(p.block.value).value else alternativeDefault
  }

  /** getBlob: empty without a reference, all cobblestone when the reference does not decode. */
  function BlobOf(vox: Voxels, p: Props): (b: Blob)
    ensures p.blob.None? ==> b == EMPTY_BLOB
    ensures p.blob.Some? && vox.decode(p.blob.value.source).None? ==> b == Filled(COBBLESTONE)
    ensures p.blob.Some? && vox.decode(p.blob.value.source).Some? ==> b == vox.decode(p.blob.value.source).value
  {
    match p.blob
    case None => EMPTY_BLOB
    case Some(r) =>
      match vox.decode(r.source)
      case None => Filled(COBBLESTONE)
      case Some(b) => b
  }

  /** The blob spun n times about Y. */
  function SpinTimes(vox: Voxels, b: Blob, n: nat): Blob {
    if n == 0 then b else vox.spinY(SpinTimes(vox, b, n - 1))
  }

  /** The pick stack for a blob: spun `rotations` times with the facing turned as often, or unspun without a player. */
  function PickStack(vox: Voxels, b: Blob, face: Option<Facing>, rotations: int): ItemStack
    requires face.Some? ==> IsHorizontal(face.value)
  {
    if face.None? then vox.bitsAsItem(b, None)
    else
      var n: nat := if rotations > 0 then rotations else 0;
      vox.bitsAsItem(SpinTimes(vox, b, n), Some(RotateYCCWTimes(face.value, n)))
  }

  /** The pick-item cache: the stack, the blob reference and the rotation count it was made for. */
  datatype PickCache = PickCache(out: ItemStack, ref: Option<BlobRef>, rotations: int)

  /** A world call the tile makes. */
  datatype Effect =
    | SetWorldBlock(stateId: int, flags: int)
    | MarkDirty
    | SendUpdate
    | PartChange
    | NotifyBlock
    | NotifyNeighbors
    | RemoveChiseledBlock
    | CheckLight

  /** How setBlob ended. */
  datatype SetBlobResult =
    | StoredWithoutWorld
    /** The unboxing of an absent block id (no world, no most common state) threw. */
    | BlockIdMissing
    | ReplacedByFullBlock
    | UpdatedTile
    | RemovedBlock

  class ChiseledTile {
    const vox: Voxels
    const hasWorld: bool
    /** getPositionRandom(pos): the client-side position seed, 0 on the server. */
    const positionSeed: int
    /** ModUtil.getRotationIndex. */
    const rotationIndex: Facing -> int
    /** The occluding container's isBlobOccluded, when one is set (the tile itself never occludes). */
    const occlusion: Option<Blob -> bool>

    var props: Props
    var pickcache: Option<PickCache>
    /** The serial number the next blob reference gets. */
    var nextSerial: nat
    var effects: seq<Effect>

    constructor (vox: Voxels, hasWorld: bool, positionSeed: int, rotationIndex: Facing -> int, occlusion: Option<Blob -> bool>)
      ensures this.vox == vox && this.hasWorld == hasWorld && this.positionSeed == positionSeed
      ensures this.rotationIndex == rotationIndex && this.occlusion == occlusion
      ensures props == DEFAULT_PROPS && pickcache.None? && effects == [] && Valid()
    {
      this.vox := vox;
      this.hasWorld := hasWorld;
      this.positionSeed := positionSeed;
      this.rotationIndex := rotationIndex;
      this.occlusion := occlusion;
      props := DEFAULT_PROPS;
      pickcache := None;
      nextSerial := 0;
      effects := [];
    }

    /** Every reference the tile and its cache hold was made before the next serial number. */
    predicate Valid()
      reads this
    {
      && (props.blob.Some? ==> props.blob.value.serial < nextSerial)
      && (pickcache.Some? && pickcache.value.ref.Some? ==> pickcache.value.ref.value.serial < nextSerial)
    }

    method NewRef(source: BlobSource) returns (r: BlobRef)
      modifies this
      ensures r == BlobRef(old(nextSerial), source, positionSeed) && nextSerial == old(nextSerial) + 1
      ensures props == old(props) && pickcache == old(pickcache) && effects == old(effects)
    {
      r := BlobRef(nextSerial, source, positionSeed);
      nextSerial := nextSerial + 1;
    }

    /**
     * readChisleData: the properties become those of the compound, with a fresh reference the
     * pick cache cannot match; with a world, the light is re-checked when the level changed.
     */
    method ReadChisleData(t: ChiselTag)
      modifies this
      ensures props == ReadProps(vox, t, old(nextSerial), positionSeed)
      ensures effects == old(effects) + (if hasWorld && old(props).light != Some(t.light) then [CheckLight] else [])
      ensures pickcache == old(pickcache)
      ensures old(Valid()) ==> Valid() && (pickcache.Some? ==> pickcache.value.ref != props.blob)
    {
      var oldLV := props.light;
      var v := t.versioned;
      if |v| == 0 {
        var vx := t.legacy;
        if |vx| > 0 {
          var bx := vox.fromLegacy(vx);
          v := vox.toBytes(bx);
        }
      }
      var b := t.block;
      if b == 0 {
        b := COBBLESTONE;
      }
      var ref := NewRef(FromBytes(v));
      props := Props(Some(t.side), Some(b), Some(t.opacity), Some(t.light), Some(ref), true);
      if oldLV.None? || oldLV.value != t.light {
        if hasWorld {
          effects := effects + [CheckLight];
        }
      }
    }

    /**
     * fillWith: all six sides solid, full opacity, the block's light, a reference to a whole
     * block of the state, and the block id replaced only by a non-zero state id.
     */
    method FillWith(stateId: int, blockLight: int)
      modifies this
      ensures props.side == Some(0xFF) && props.opacity == Some(1.0) && props.light == Some(blockLight) && props.tracker
      ensures props.blob == Some(BlobRef(old(nextSerial), FromState(stateId), positionSeed))
      ensures props.block == if stateId != 0 then Some(stateId) else old(props).block
      ensures forall f :: IsSideSolid(props, f)
      ensures effects == old(effects) + [MarkDirty] && pickcache == old(pickcache)
      ensures old(Valid()) ==> Valid() && (pickcache.Some? ==> pickcache.value.ref != props.blob)
    {
      var ref := NewRef(FromState(stateId));
      var state := props.(side := Some(0xFF), opacity := Some(1.0), light := Some(blockLight), blob := Some(ref), tracker := true);
      if stateId != 0 {
        state := state.(block := Some(stateId));
      }
      props := state;
      effects := effects + [MarkDirty];
    }

    function GetBlob(): Blob
      reads this
    {
      BlobOf(vox, props)
    }

    /** canMerge: the blobs do not overlap and the occluding container (if any) does not occlude it. */
    function CanMerge(vb: Blob): (ok: bool)
      reads this
      ensures ok ==> BlobsMerge(GetBlob(), vb)
      ensures occlusion.None? ==> (ok <==> BlobsMerge(GetBlob(), vb))
      ensures occlusion.Some? ==> (ok <==> BlobsMerge(GetBlob(), vb) && !occlusion.value(vb))
    {
      BlobsMerge(GetBlob(), vb) && !(occlusion.Some? && occlusion.value(vb))
    }

    /**
     * setBlob: without a world the tile just takes the blob (its block id the most common state,
     * or the old id when that is air). With a world: a full blob replaces the block by its most
     * common state; otherwise a non-air most common state updates the tile and notifies; otherwise
     * the chiseled block is removed. The light is re-checked whenever the clamped level changed.
     */
    method SetBlob(vb: Blob, triggerUpdates: bool) returns (r: SetBlobResult)
      modifies this
      ensures var common := vox.stats(vb);
              var lv := LightLevel(common.blockLight);
              var check := if old(props).light != Some(lv) then [CheckLight] else [];
              && (!hasWorld && common.mostCommonState == 0 && old(props).block.None? ==>
                    r == BlockIdMissing && props == old(props) && effects == old(effects))
              && (!hasWorld && (common.mostCommonState != 0 || old(props).block.Some?) ==>
                    && r == StoredWithoutWorld && effects == old(effects)
                    && props == Props(Some(vox.sideFlagsOf(vb)),
                                      Some(if common.mostCommonState == 0 then old(props).block.value else common.mostCommonState),
                                      Some(vox.opacityOf(vb)), Some(lv),
                                      Some(BlobRef(old(nextSerial), FromBytes(vox.toBytes(vb)), positionSeed)), true))
              && (hasWorld && common.isFullBlock ==>
                    && r == ReplacedByFullBlock && props == old(props)
                    && effects == old(effects) + [SetWorldBlock(common.mostCommonState, if triggerUpdates then 3 else 0)] + check)
              && (hasWorld && !common.isFullBlock && common.mostCommonState != 0 ==>
                    && r == UpdatedTile
                    && props == old(props).(side := Some(vox.sideFlagsOf(vb)),
                                            blob := Some(BlobRef(old(nextSerial), FromBytes(vox.toBytes(vb)), positionSeed)),
                                            light := Some(lv), opacity := Some(vox.opacityOf(vb)),
                                            block := Some(common.mostCommonState))
                    && effects == old(effects) + [MarkDirty, SendUpdate, PartChange, NotifyBlock]
                                  + (if triggerUpdates then [NotifyNeighbors] else []) + check)
              && (hasWorld && !common.isFullBlock && common.mostCommonState == 0 ==>
                    r == RemovedBlock && props == old(props) && effects == old(effects) + [RemoveChiseledBlock] + check)
      ensures props.light.Some? && props != old(props) ==> 0 <= props.light.value <= 15
      ensures pickcache == old(pickcache)
      ensures old(Valid()) ==> Valid() && (props != old(props) && pickcache.Some? ==> pickcache.value.ref != props.blob)
    {
      var olv := props.light;
      var common := vox.stats(vb);
      var opacity := vox.opacityOf(vb);
      var lv := LightLevel(common.blockLight);
      var sideFlags := vox.sideFlagsOf(vb);
      if !hasWorld {
        var mostCommon := common.mostCommonState;
        if mostCommon == 0 {
          if props.block.None? {
            return BlockIdMissing;
          }
          mostCommon := props.block.value;
        }
        var ref := NewRef(FromBytes(vox.toBytes(vb)));
        props := Props(Some(sideFlags), Some(mostCommon), Some(opacity), Some(lv), Some(ref), true);
        return StoredWithoutWorld;
      }
      if common.isFullBlock {
        effects := effects + [SetWorldBlock(common.mostCommonState, if triggerUpdates then 3 else 0)];
        r := ReplacedByFullBlock;
      } else if common.mostCommonState != 0 {
        var ref := NewRef(FromBytes(vox.toBytes(vb)));
        props := props.(side := Some(sideFlags), blob := Some(ref), light := Some(lv), opacity := Some(opacity),
                        block := Some(common.mostCommonState));
        effects := effects + [MarkDirty, SendUpdate, PartChange, NotifyBlock];
        if triggerUpdates {
          effects := effects + [NotifyNeighbors];
        }
        r := UpdatedTile;
      } else {
        effects := effects + [RemoveChiseledBlock];
        r := RemovedBlock;
      }
      if olv.None? || olv.value != lv {
        effects := effects + [CheckLight];
      }
    }

    /**
     * getItemStack: the cached stack when the cache was made for the same rotation count and the
     * very same blob reference; otherwise the pick stack is built (spinning the blob and turning
     * the facing once per rotation) and cached.
     */
    method GetItemStack(placeFace: Option<Facing>) returns (r: ItemStack)
      requires placeFace.Some? ==> IsHorizontal(placeFace.value)
      modifies this
      ensures var rotations := if placeFace.Some? then rotationIndex(placeFace.value) else 0;
              var hit := old(pickcache).Some? && old(pickcache).value.rotations == rotations
                         && old(pickcache).value.ref == props.blob;
              && (hit ==> r == old(pickcache).value.out && pickcache == old(pickcache))
              && (!hit ==> r == PickStack(vox, GetBlob(), placeFace, rotations)
                           && pickcache == Some(PickCache(r, props.blob, rotations)))
      ensures props == old(props) && effects == old(effects) && nextSerial == old(nextSerial)
      ensures old(Valid()) ==> Valid()
    {
      var cache := pickcache;
      if placeFace.Some? {
        var enumfacing := placeFace.value;
        var rotations := rotationIndex(enumfacing);
        if cache.Some? && cache.value.rotations == rotations && cache.value.ref == props.blob {
          return cache.value.out;
        }
        var vb := GetBlob();
        var countDown := rotations;
        ghost var steps: nat := 0;
        while countDown > 0
          invariant countDown + steps == rotations && (steps > 0 ==> countDown >= 0)
          invariant IsHorizontal(enumfacing)
          invariant vb == SpinTimes(vox, GetBlob(), steps)
          invariant enumfacing == RotateYCCWTimes(placeFace.value, steps)
          decreases countDown
        {
          countDown := countDown - 1;
          enumfacing := RotateYCCW(enumfacing);
          vb := vox.spinY(vb);
          steps := steps + 1;
        }
        r := vox.bitsAsItem(vb, Some(enumfacing));
        pickcache := Some(PickCache(r, props.blob, rotations));
      } else {
        if cache.Some? && cache.value.rotations == 0 && cache.value.ref == props.blob {
          return cache.value.out;
        }
        r := vox.bitsAsItem(GetBlob(), None);
        pickcache := Some(PickCache(r, props.blob, 0));
      }
    }
  }
}
