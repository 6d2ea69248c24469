/**
 * ChiselingContext: the mutable state of one chiseling interaction. It holds the completion
 * flag, the region the interaction covers (the world-area mutator, kept as its start and end
 * points), the state filter and the metadata map. It also answers permission checks over the
 * region and damages the causing item.
 */
module ChiselingContext {
  import opened Wrappers
  import opened WorldArea

  /** The bounds of the area mutator the context holds (IMutatorFactory.covering(world, start, end)). */
  datatype Region = Region(start: Vec3, end: Vec3)

  function Min(a: real, b: real): real { if a <= b then a else b }
  function Max(a: real, b: real): real { if a >= b then a else b }

  /** isInside: the point lies in the closed box between start and end. */
  predicate Inside(r: Region, p: Vec3) {
    r.start.x <= p.x <= r.end.x && r.start.y <= p.y <= r.end.y && r.start.z <= p.z <= r.end.z
  }

  /** Every point of `inner` lies in `outer`. */
  predicate Encloses(outer: Region, inner: Region) {
    outer.start.x <= inner.start.x && outer.start.y <= inner.start.y && outer.start.z <= inner.start.z &&
    inner.end.x <= outer.end.x && inner.end.y <= outer.end.y && inner.end.z <= outer.end.z
  }

  /** The region include builds around an outside point: componentwise min of starts, max of ends. */
  function Grow(r: Region, p: Vec3): Region {
    Region(Vec3(Min(p.x, r.start.x), Min(p.y, r.start.y), Min(p.z, r.start.z)),
           Vec3(Max(p.x, r.end.x), Max(p.y, r.end.y), Max(p.z, r.end.z)))
  }

  /** The grown region holds the point and everything the old one held ... */
  lemma GrowEncloses(r: Region, p: Vec3)
    ensures Inside(Grow(r, p), p) && Encloses(Grow(r, p), r)
    ensures forall q :: Inside(r, q) ==> Inside(Grow(r, p), q)
  {
  }

  /** ... and is the smallest box that does. */
  lemma GrowIsSmallest(r: Region, p: Vec3, box: Region)
    requires Inside(box, p) && Encloses(box, r)
    ensures Encloses(box, Grow(r, p))
  {
  }

  /** Growing by a point already inside changes nothing. */
  lemma GrowInsideUnchanged(r: Region, p: Vec3)
    requires Inside(r, p)
    ensures Grow(r, p) == r
  {
  }

  /** A block position. */
  datatype BlockPos = BlockPos(x: int, y: int, z: int)

  /** The block positions BlockPosStreamProvider.getForRange(start, end) walks: floors of the bounds, inclusive. */
  predicate Covers(r: Region, b: BlockPos) {
    r.start.x.Floor <= b.x <= r.end.x.Floor &&
    r.start.y.Floor <= b.y <= r.end.y.Floor &&
    r.start.z.Floor <= b.z <= r.end.z.Floor
  }

  /** A metadata key (IMetadataKey), as an opaque id; ANCHOR is the sphere modes' anchor key. */
  type MetadataKey = nat
  const ANCHOR: MetadataKey := 0

  /** A metadata value: a vector (the anchor) or any other value, as an opaque id. */
  datatype MetaValue = Vector(v: Vec3) | OtherValue(id: nat)

  class ChiselingContext {
    const simulation: bool
    /** The causing item is a chiseling item that is damageable during chiseling. */
    const supportsDamaging: bool
    /** A player is attached. */
    const hasPlayer: bool
    /** The world is a full level (world instanceof World). */
    const inLevel: bool
    /** Whether a BreakEvent posted for the block goes through (is not cancelled). */
    const canEdit: BlockPos -> bool
    /** The mode of operation processes air (ChiselingOperation.processesAir). */
    const processesAir: bool
    /** The completion callback is the snapshots' no-op. */
    const noopCallback: bool
    /** IMetadataKey.snapshot for each key. */
    const snapshotOf: (MetadataKey, MetaValue) -> MetaValue
    /** ItemStack.hurtAndBreak: whether the causing item breaks once its damage reaches the given total. */
    const breaksAt: int -> bool

    var complete: bool
    var region: Option<Region>
    var filter: Option<StateFilter>
    var metadata: map<MetadataKey, Option<MetaValue>>
    /** How often the completion callback has run. */
    var callbackRuns: nat
    /** Damage dealt to the causing item so far. */
    var itemDamage: int

    /** The public constructor: nothing covered, no filter, no metadata, not complete. */
    constructor (simulation: bool, isChiselingItem: bool, damageableDuringChiseling: bool, hasPlayer: bool,
                 inLevel: bool, canEdit: BlockPos -> bool, processesAir: bool,
                 snapshotOf: (MetadataKey, MetaValue) -> MetaValue, breaksAt: int -> bool)
      ensures this.simulation == simulation && this.supportsDamaging == (isChiselingItem && damageableDuringChiseling)
      ensures this.hasPlayer == hasPlayer && this.inLevel == inLevel && this.canEdit == canEdit
      ensures this.processesAir == processesAir && this.snapshotOf == snapshotOf && this.breaksAt == breaksAt
      ensures !noopCallback && !complete && region.None? && filter.None? && metadata == map[]
      ensures callbackRuns == 0 && itemDamage == 0
    {
      this.simulation := simulation;
      this.supportsDamaging := isChiselingItem && damageableDuringChiseling;
      this.hasPlayer := hasPlayer;
      this.inLevel := inLevel;
      this.canEdit := canEdit;
      this.processesAir := processesAir;
      this.noopCallback := false;
      this.snapshotOf := snapshotOf;
      this.breaksAt := breaksAt;
      complete := false;
      region := None;
      filter := None;
      metadata := map[];
      callbackRuns := 0;
      itemDamage := 0;
    }

    /** The snapshot constructor: always a simulation, a no-op callback, no causing item. */
    constructor Snapshot(complete: bool, region: Option<Region>, hasPlayer: bool, inLevel: bool,
                         canEdit: BlockPos -> bool, processesAir: bool,
                         snapshotOf: (MetadataKey, MetaValue) -> MetaValue, breaksAt: int -> bool)
      ensures simulation && noopCallback && !supportsDamaging
      ensures this.complete == complete && this.region == region
      ensures this.hasPlayer == hasPlayer && this.inLevel == inLevel && this.canEdit == canEdit
      ensures this.processesAir == processesAir && this.snapshotOf == snapshotOf && this.breaksAt == breaksAt
      ensures filter.None? && metadata == map[] && callbackRuns == 0 && itemDamage == 0
    {
      simulation := true;
      supportsDamaging := false;
      this.hasPlayer := hasPlayer;
      this.inLevel := inLevel;
      this.canEdit := canEdit;
      this.processesAir := processesAir;
      noopCallback := true;
      this.snapshotOf := snapshotOf;
      this.breaksAt := breaksAt;
      this.complete := complete;
      this.region := region;
      filter := None;
      metadata := map[];
      callbackRuns := 0;
      itemDamage := 0;
    }

    /** Some block the region covers is refused by the permission check. */
    predicate Refused(r: Region) {
      exists x: int, y: int, z: int
        | r.start.x.Floor <= x <= r.end.x.Floor && r.start.y.Floor <= y <= r.end.y.Floor
          && r.start.z.Floor <= z <= r.end.z.Floor
        :: !canEdit(BlockPos(x, y, z))
    }

    /** The permission check runs (and may drop the region) only with a region, a player and a level. */
    predicate Checked() reads this {
      region.Some? && hasPlayer && inLevel
    }

    /**
     * getMutator: without a region, a player or a level, the region as it is; otherwise, when the
     * permission check refuses any covered block, the region is dropped for good and nothing is
     * returned.
     */
    method GetMutator() returns (m: Option<Region>)
      modifies this
      ensures m.Some? <==> old(region).Some? && !(old(Checked()) && Refused(old(region).value))
      ensures m.Some? ==> m == old(region) && region == old(region)
      ensures m.None? ==> region.None?
      ensures m.Some? ==> forall b :: hasPlayer && inLevel && Covers(m.value, b) ==> canEdit(b)
      ensures complete == old(complete) && filter == old(filter) && metadata == old(metadata)
      ensures callbackRuns == old(callbackRuns) && itemDamage == old(itemDamage)
    {
      if region.None? || !hasPlayer || !inLevel {
        return region;
      }
      if Refused(region.value) {
        region := None;
        return None;
      }
      m := region;
    }

    /** The region getMutator would hand out: present and not refused. */
    predicate Usable() reads this {
      region.Some? && !(Checked() && Refused(region.value))
    }

    /**
     * include: when the point lies outside the usable region (or there is none), the region grows
     * to the componentwise bounds of itself and the point, or becomes the single point.
     */
    method Include(p: Vec3)
      modifies this
      ensures region == if old(Usable()) && Inside(old(region).value, p) then old(region)
                        else if old(Usable()) then Some(Grow(old(region).value, p))
                        else Some(Region(p, p))
      ensures region.Some? && Inside(region.value, p)
      ensures old(Usable()) ==> Encloses(region.value, old(region).value)
      ensures complete == old(complete) && filter == old(filter) && metadata == old(metadata)
      ensures callbackRuns == old(callbackRuns) && itemDamage == old(itemDamage)
    {
      var current := GetMutator();
      if current.None? || !Inside(current.value, p) {
        var again := GetMutator();
        if again.Some? {
          var mutator := GetMutator();
          region := Some(Grow(mutator.value, p));
          GrowEncloses(mutator.value, p);
        } else {
          region := Some(Region(p, p));
        }
      } else {
        assert Encloses(region.value, region.value);
      }
    }

    /** setComplete: marks the interaction complete and runs the callback, on every call. */
    method SetComplete()
      modifies this
      ensures complete && callbackRuns == old(callbackRuns) + 1
      ensures region == old(region) && filter == old(filter) && metadata == old(metadata)
      ensures itemDamage == old(itemDamage)
    {
      complete := true;
      callbackRuns := callbackRuns + 1;
    }

    /**
     * tryDamageItem: succeeds without damage when damage is unsupported or this is a simulation;
     * otherwise damages the causing item and fails exactly when it broke.
     */
    method TryDamageItem(damage: int) returns (ok: bool)
      modifies this
      ensures !supportsDamaging || simulation ==> ok && itemDamage == old(itemDamage)
      ensures supportsDamaging && !simulation ==>
                itemDamage == old(itemDamage) + damage && (ok <==> !breaksAt(itemDamage))
      ensures complete == old(complete) && region == old(region) && filter == old(filter)
      ensures metadata == old(metadata) && callbackRuns == old(callbackRuns)
    {
      if !supportsDamaging || simulation {
        return true;
      }
      itemDamage := itemDamage + damage;
      ok := !breaksAt(itemDamage);
    }

    method SetStateFilter(f: StateFilter)
      modifies this
      ensures filter == Some(f)
      ensures complete == old(complete) && region == old(region) && metadata == old(metadata)
      ensures callbackRuns == old(callbackRuns) && itemDamage == old(itemDamage)
    {
      filter := Some(f);
    }

    method ClearStateFilter()
      modifies this
      ensures filter.None?
      ensures complete == old(complete) && region == old(region) && metadata == old(metadata)
      ensures callbackRuns == old(callbackRuns) && itemDamage == old(itemDamage)
    {
      filter := None;
    }

    /** getMetadata: the stored value, empty for a missing key or a null value. */
    function GetMetadata(k: MetadataKey): (v: Option<MetaValue>)
      reads this
      ensures v.Some? ==> k in metadata && metadata[k] == v
      ensures k in metadata ==> v == metadata[k]
    {
      if k in metadata then metadata[k] else None
    }

    /** setMetadata: the key reads back as the value set; every other key reads as before. */
    method SetMetadata(k: MetadataKey, v: Option<MetaValue>)
      modifies this
      ensures metadata == old(metadata)[k := v]
      ensures GetMetadata(k) == v
      ensures forall other :: other != k ==> GetMetadata(other) == old(GetMetadata(other))
      ensures complete == old(complete) && region == old(region) && filter == old(filter)
      ensures callbackRuns == old(callbackRuns) && itemDamage == old(itemDamage)
    {
      metadata := metadata[k := v];
    }

    /** removeMetadata: the key reads as empty; every other key reads as before. */
    method RemoveMetadata(k: MetadataKey)
      modifies this
      ensures metadata == old(metadata) - {k}
      ensures GetMetadata(k).None?
      ensures forall other :: other != k ==> GetMetadata(other) == old(GetMetadata(other))
      ensures complete == old(complete) && region == old(region) && filter == old(filter)
      ensures callbackRuns == old(callbackRuns) && itemDamage == old(itemDamage)
    {
      metadata := metadata - {k};
    }

    /**
     * createSnapshot: a new simulation context over the same bounds with the same completion
     * flag, no filter, and a snapshot of every metadata entry whose value is present.
     */
    method CreateSnapshot() returns (s: ChiselingContext)
      ensures fresh(s)
      ensures s.simulation && s.noopCallback && !s.supportsDamaging
      ensures s.complete == complete && s.region == region && s.filter.None?
      ensures s.hasPlayer == hasPlayer && s.inLevel == inLevel && s.canEdit == canEdit
      ensures s.metadata == SnapshotMetadata(metadata, snapshotOf)
    {
      s := new ChiselingContext.Snapshot(complete, region, hasPlayer, inLevel, canEdit, processesAir, snapshotOf, breaksAt);
      var newMetadata: map<MetadataKey, Option<MetaValue>> := map[];
      var todo := metadata.Keys;
      while todo != {}
        invariant todo <= metadata.Keys
        invariant newMetadata == SnapshotMetadata(map k | k in metadata && k !in todo :: metadata[k], snapshotOf)
        decreases todo
      {
        var k :| k in todo;
        var value := GetMetadata(k);
        if value.Some? {
          newMetadata := newMetadata[k := Some(snapshotOf(k, value.value))];
        }
        todo := todo - {k};
      }
      assert (map k | k in metadata && k !in todo :: metadata[k]) == metadata;
      s.metadata := newMetadata;
    }
  }

  /** The metadata a snapshot holds: each present value snapshotted, absent values dropped. */
  function SnapshotMetadata(m: map<MetadataKey, Option<MetaValue>>, snapshotOf: (MetadataKey, MetaValue) -> MetaValue)
    : map<MetadataKey, Option<MetaValue>>
  {
    map k | k in m && m[k].Some? :: Some(snapshotOf(k, m[k].value))
  }

  /** A snapshot's metadata has no absent values, and keeps exactly the keys whose value was present. */
  lemma SnapshotKeepsPresentKeys(m: map<MetadataKey, Option<MetaValue>>, snapshotOf: (MetadataKey, MetaValue) -> MetaValue, k: MetadataKey)
    ensures k in SnapshotMetadata(m, snapshotOf) <==> k in m && m[k].Some?
    ensures k in SnapshotMetadata(m, snapshotOf) ==> SnapshotMetadata(m, snapshotOf)[k].Some?
  {
  }
}
