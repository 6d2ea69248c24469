# Chisels & Bits core, modelled in Dafny

Chisels & Bits is a Minecraft mod. It lets a player cut a block into a 16×16×16 grid of "bits".
Each bit holds a block state of its own. This project models the mod's core logic and proves properties of it:

- **Section transforms** (`ChunkSectionUtils`). A 16³ section of block-state ids is rotated by quarter
  turns about its centre (7.5, 7.5, 7.5), mirrored along an axis, or filled from the bottom in y/x/z scan order.
  Its stored form is read with an all-air fallback when the stored data is corrupt. The section is a class over
  an `array<int>` of 4096 cells, indexed `y*256 + z*16 + x`.
- **Shared structures** (`ShareWorldData`). A share string is located between the `[C&B](` and `)[C&B]`
  markers. It is Base64-decoded and inflated. The result is parsed into a header, a block-index table, a
  model table of tagged records, and the structure bytes. `getBlob` looks up a position through a 3-D linear index.
- **Pattern placement and sphere chiseling**
  - `MergePatternPlacementType`: the ordered feasibility checks, the per-state tallies of removed and added bits,
    the clear-then-set merge into the area, and the inventory settlement. The "enough bits" test is a parameter,
    so the placement is stated both for the code's `canInsert` and for the corrected `canExtract`.
  - `SphereChiselMode`: clear-and-count on a left click and fill-air on a right click.
  - Both work over the area as a finite map from positions to state ids (`WorldArea`). The bit inventory is a
    class that records the calls made to it.
- **Bit storage** (`BitStorageBlockEntity`). A tank holds a solid state or a fluid and up to 4096 bits.
  It supports insertion with leftovers, extraction that resets the tank at zero, a simulate flag, and saving and loading.
  A storage runs either the code's own acceptance tests or the corrected one (see "## Findings"), fixed when it is built.
- **Chiseled tile** (`TileEntityBlockChiseled`). The tile's stored properties are written and read with
  their defaults. It also covers the side-solidity test, the three-way outcome of `setBlob`, `fillWith`,
  `canMerge`, and the cached pick item with its rotation loop.
- **Chiseling context** (`ChiselingContext`). A mutable object holding a bounding region that only grows, a
  permission-checked mutator, a completion flag, a state filter, metadata and snapshots.
- **Small utilities**
  - `ColorUtils`: ARGB packing and its inverse.
  - `ItemStackUtils`: item and hand selection rules.
  - `SelectedToolModeRendererRegistry`: an id-keyed registry with a duplicate check.

Foreign code becomes oracles: function-typed parameters or `const` fields of a class. This covers
VoxelBlob, the palette container, NBT, Deflate/Inflate, Base64 (section 4 of RFC 4648), the share format
reader, the bit inventory's capacity tests and the permission event.
Block states are abstract ids (`nat`/`int`), and air is 0. Java `int` values are the `JavaInt.I32` type.
Integer arithmetic is written out with `JavaInt.Wrap32` where it can wrap:
- the sizes and the linear index in `ShareWorldData`;
- the merged count `bits + getCount()` of a bit-storage insertion;
- the top-up in `addAllPossibleBits`.

`ColorUtils` works on `bv32` bit patterns. The float rounding of the light level is not modelled (see "## Left out").

Every stateful operation is a method whose `ensures` ties its new state, or its result, to a specification
function of the old state. The properties the code promises are then proved about those functions as lemmas.

## Model

| member | source | states |
|---|---|---|
| ChunkSectionUtils.QuarterTurn | src/main/java/mod/chiselsandbits/utils/ChunkSectionUtils.java:121-130 | one quarter turn about the centre 7.5, as explicit integer coordinates per axis; it keeps cells inside the section |
| ChunkSectionUtils.UnturnQuarterTurn | src/main/java/mod/chiselsandbits/utils/ChunkSectionUtils.java:121-130 | undoing a quarter turn gives the original cell back |
| ChunkSectionUtils.TurnNUnturnN | src/main/java/mod/chiselsandbits/utils/ChunkSectionUtils.java:121-126 | k quarter turns composed with their inverse are the identity on cells |
| ChunkSectionUtils.UnturnNTurnN | src/main/java/mod/chiselsandbits/utils/ChunkSectionUtils.java:121-126 | the inverse composed with k quarter turns is the identity on cells |
| ChunkSectionUtils.FourQuarterTurns | src/main/java/mod/chiselsandbits/utils/ChunkSectionUtils.java:121-126 | four quarter turns return every cell to its place |
| ChunkSectionUtils.TurnNInjective | src/main/java/mod/chiselsandbits/utils/ChunkSectionUtils.java:115-144 | distinct source cells land on distinct target cells, so no target cell is written twice |
| ChunkSectionUtils.TurnNOnto | src/main/java/mod/chiselsandbits/utils/ChunkSectionUtils.java:115-144 | every target cell is the image of exactly one in-section source cell, so the per-cell map is a permutation of the grid |
| ChunkSectionUtils.RotatedMovesCells | src/main/java/mod/chiselsandbits/utils/ChunkSectionUtils.java:111-144 | the rotated grid holds each source cell's state at the turned position |
| ChunkSectionUtils.RotatedNone | src/main/java/mod/chiselsandbits/utils/ChunkSectionUtils.java:108-109 | a rotation by a multiple of four quarter turns (including zero) leaves the grid unchanged |
| ChunkSectionUtils.RotatedCompose | src/main/java/mod/chiselsandbits/utils/ChunkSectionUtils.java:111-126 | rotating by m and then by n quarter turns is rotating by m + n |
| ChunkSectionUtils.RotatedFourTimes | src/main/java/mod/chiselsandbits/utils/ChunkSectionUtils.java:107-147 | four single-quarter-turn rotations give the original grid |
| ChunkSectionUtils.MirrorInjective | src/main/java/mod/chiselsandbits/utils/ChunkSectionUtils.java:186-211 | mirroring sends distinct cells to distinct cells |
| ChunkSectionUtils.MirroredMovesCells | src/main/java/mod/chiselsandbits/utils/ChunkSectionUtils.java:186-211 | the mirrored grid holds each cell's state where only the chosen coordinate became 15 - c |
| ChunkSectionUtils.MirroredTwice | src/main/java/mod/chiselsandbits/utils/ChunkSectionUtils.java:186-211 | mirroring twice along the same axis gives the original grid |
| ChunkSectionUtils.Clamp | src/main/java/mod/chiselsandbits/utils/ChunkSectionUtils.java:157-183 | the number of cells filled is amount clamped to [0, 4096] |
| ChunkSectionUtils.FillNothing | src/main/java/mod/chiselsandbits/utils/ChunkSectionUtils.java:157-183 | an amount of 0 or less changes nothing |
| ChunkSectionUtils.FillEverything | src/main/java/mod/chiselsandbits/utils/ChunkSectionUtils.java:157-183 | an amount of 4096 or more fills every cell |
| ChunkSectionUtils.FillWritesScanPrefix | src/main/java/mod/chiselsandbits/utils/ChunkSectionUtils.java:157-183 | exactly the first clamp(amount) cells in y-outer, x-middle, z-inner order get the state; every other cell is unchanged |
| ChunkSectionUtils.ScanRankInjective | src/main/java/mod/chiselsandbits/utils/ChunkSectionUtils.java:167-182 | the y/x/z scan visits each cell once |
| ChunkSectionUtils.DeserializeEmpty | src/main/java/mod/chiselsandbits/utils/ChunkSectionUtils.java:70-71 | an empty compound leaves the section untouched |
| ChunkSectionUtils.DeserializeCorrupt | src/main/java/mod/chiselsandbits/utils/ChunkSectionUtils.java:73-96 | compressed data that fails to inflate resets all 4096 cells to air, with no error to the caller |
| ChunkSectionUtils.SerializeRoundTrip | src/main/java/mod/chiselsandbits/utils/ChunkSectionUtils.java:149-155 | reading back the uncompressed serialisation of a grid yields that grid |
| ChunkSectionUtils.ChunkSection.constructor | src/main/java/mod/chiselsandbits/utils/ChunkSectionUtils.java:113 | a new section is all air, in fresh storage |
| ChunkSectionUtils.ChunkSection.SetBlockState | src/main/java/mod/chiselsandbits/utils/ChunkSectionUtils.java:132-141 | writes one cell and leaves the other 4095 unchanged |
| ChunkSectionUtils.Rotate90Degrees | src/main/java/mod/chiselsandbits/utils/ChunkSectionUtils.java:107-147 | a count of 0 returns the very same section; otherwise a fresh section holding the rotated grid; the source is never written |
| ChunkSectionUtils.TurnCell | src/main/java/mod/chiselsandbits/utils/ChunkSectionUtils.java:121-126 | the per-cell countdown loop computes k quarter turns |
| ChunkSectionUtils.MirrorSection | src/main/java/mod/chiselsandbits/utils/ChunkSectionUtils.java:186-212 | a fresh section holding the mirrored grid; the source is untouched |
| ChunkSectionUtils.FillFromBottom | src/main/java/mod/chiselsandbits/utils/ChunkSectionUtils.java:157-184 | the section afterwards is the scan-prefix fill of its old grid |
| ChunkSectionUtils.DeserializeNbt | src/main/java/mod/chiselsandbits/utils/ChunkSectionUtils.java:69-105 | the section afterwards is the deserialisation of the compound over its old grid, including both fallbacks |
| ChunkSectionUtils.LoadStates | src/main/java/mod/chiselsandbits/utils/ChunkSectionUtils.java:99-104 | the palette read replaces every cell with the decoded states |
| ChunkSectionUtils.CloneSection | src/main/java/mod/chiselsandbits/utils/ChunkSectionUtils.java:149-155 | a fresh section with the same cells as the source |
| JavaInt.Wrap32 | src/main/java/mod/chiselsandbits/share/ShareWorldData.java:150 | Java int arithmetic: the value modulo 2^32 in [-2^31, 2^31), unchanged when already in range |
| ShareWorldData.IndexFrom | src/main/java/mod/chiselsandbits/share/ShareWorldData.java:89-90 | String.indexOf(p, from): the first occurrence at or after from, or none |
| ShareWorldData.IndexOf | src/main/java/mod/chiselsandbits/share/ShareWorldData.java:86-87 | String.indexOf(p): the first occurrence, or none |
| ShareWorldData.Payload | src/main/java/mod/chiselsandbits/share/ShareWorldData.java:86-98 | a missing header or footer is the IOException; with both present, the result is Ok exactly when the first footer does not start before the end of the first header (otherwise `MarkersOutOfOrder`), and the payload is exactly the text between them |
| ShareWorldData.ParseString | src/main/java/mod/chiselsandbits/share/ShareWorldData.java:83-101 | the marker error, then the Base64 failure, then the parse of the decoded bytes, in that order |
| ShareWorldData.ParseCompressed | src/main/java/mod/chiselsandbits/share/ShareWorldData.java:120-136 | an inflate failure is exactly the BadDeflate error |
| ShareWorldData.ParseUncompressed | src/main/java/mod/chiselsandbits/share/ShareWorldData.java:140-171 | success needs format word 1, a header and a block table of exactly xSize·ySize·zSize entries in Java int arithmetic; the blocks are exactly the entries read, and the rest is what ReadModels reads from the cursor after them; the structure data is a prefix of the decompressed bytes |
| ShareWorldData.FormatChecked | src/main/java/mod/chiselsandbits/share/ShareWorldData.java:140-145 | a format word other than 1 is rejected before any size is read |
| ShareWorldData.ParsedFromReads | src/main/java/mod/chiselsandbits/share/ShareWorldData.java:140-171 | a parse whose every read succeeds holds the header sizes, exactly the block and model tables read, and the first min(consumedBytes, length) bytes; a negative consumed count is the negative array size |
| ShareWorldData.ReadModels | src/main/java/mod/chiselsandbits/share/ShareWorldData.java:160-171 | a missing or negative model count is an error; on success the models are exactly the records read after the aligned model count, and the structure data is exactly the first min(consumedBytes, length) bytes of the decompressed data, with the sizes and block table kept |
| ShareWorldData.ReadMany | src/main/java/mod/chiselsandbits/share/ShareWorldData.java:154-166 | a successful table read returns exactly n entries |
| ShareWorldData.ReadManyFailsOnward | src/main/java/mod/chiselsandbits/share/ShareWorldData.java:154-166 | once an entry fails to read, any longer table fails too |
| ShareWorldData.ReadManyPrefix | src/main/java/mod/chiselsandbits/share/ShareWorldData.java:154-166 | the first k entries of a table are what reading k entries gives |
| ShareWorldData.SharedWorldBlockOf | src/main/java/mod/chiselsandbits/share/ShareWorldData.java:23-48 | tag 1 is a block name with no blob; tag 2 is a blob from bytes[1..]; anything else, including an empty record, is minecraft:air |
| ShareWorldData.LinearIndexInRange | src/main/java/mod/chiselsandbits/share/ShareWorldData.java:204-206 | for in-range coordinates, x + y·xSize + z·xSize·ySize lies in the table and does not wrap |
| ShareWorldData.LinearIndexInjective | src/main/java/mod/chiselsandbits/share/ShareWorldData.java:206 | distinct positions have distinct linear indices |
| ShareWorldData.ModelBlob | src/main/java/mod/chiselsandbits/share/ShareWorldData.java:209-222 | a blob model gives its bytes; a block name that can be chiseled gives that block's state; one that cannot gives the air state |
| ShareWorldData.ShareData.constructor | src/main/java/mod/chiselsandbits/share/ShareWorldData.java:60-66 | all sizes are zero and all tables empty before reading |
| ShareWorldData.ShareData.ReadCompressed | src/main/java/mod/chiselsandbits/share/ShareWorldData.java:120-171 | on success the fields hold exactly the parse of the inflated bytes; on failure the error is returned |
| ShareWorldData.ShareData.ReadTables | src/main/java/mod/chiselsandbits/share/ShareWorldData.java:138-171 | the result is exactly the parse of the decompressed bytes, and on success the two new arrays hold its block and model tables |
| ShareWorldData.ShareData.ReadBlockTable | src/main/java/mod/chiselsandbits/share/ShareWorldData.java:154-158 | a new array of n entries; the loop fails exactly when reading n entries fails, and otherwise holds those entries and the cursor after them |
| ShareWorldData.ShareData.ReadModelTable | src/main/java/mod/chiselsandbits/share/ShareWorldData.java:160-171 | the result is exactly ReadModels from the cursor after the block table, and on success the new array holds the models read |
| ShareWorldData.ShareData.GetBlob | src/main/java/mod/chiselsandbits/share/ShareWorldData.java:199-227 | a coordinate outside the sizes gives the empty (air) reference; otherwise the model at the linear index, or air when the model id is outside the model table |
| ShareWorldData.ShareData.GetBlobInBounds | src/main/java/mod/chiselsandbits/share/ShareWorldData.java:199-227 | for a parsed structure whose size does not wrap, every in-range position reads its own table entry |
| ShareWorldData.FromString | src/main/java/mod/chiselsandbits/share/ShareWorldData.java:83-101 | the String constructor: an object holding the parse, or the IOException |
| ShareWorldData.FromCompressed | src/main/java/mod/chiselsandbits/share/ShareWorldData.java:103-107 | the byte-array constructor: an object holding the parse, or the IOException |
| WorldArea.AreaMutator.GetInAreaTarget | src/main/java/mod/chiselsandbits/pattern/placement/MergePatternPlacementType.java:91-98 | a position has an entry exactly when it is in the area, holding its state |
| WorldArea.AreaMutator.ClearInAreaTarget | src/main/java/mod/chiselsandbits/pattern/placement/MergePatternPlacementType.java:153 | the position becomes air; nothing else changes |
| WorldArea.AreaMutator.SetInAreaTarget | src/main/java/mod/chiselsandbits/pattern/placement/MergePatternPlacementType.java:154-161 | fails with SpaceOccupied exactly on a non-air cell; otherwise writes the state there |
| WorldArea.AreaMutator.OverrideState | src/main/java/mod/chiselsandbits/chiseling/modes/sphere/SphereChiselMode.java:180 | the position takes the state whatever it held; nothing else changes |
| WorldArea.Settle | src/main/java/mod/chiselsandbits/pattern/placement/MergePatternPlacementType.java:166-172 | one inventory call per tallied state, of the given kind, moving exactly the tally; earlier calls kept |
| WorldArea.TallyTotal | src/main/java/mod/chiselsandbits/chiseling/modes/sphere/SphereChiselMode.java:94-118 | the per-state counts sum to the number of positions counted |
| WorldArea.TallyAdd | src/main/java/mod/chiselsandbits/chiseling/modes/sphere/SphereChiselMode.java:107-112 | counting one more position raises its state's count by one and leaves the other counts alone |
| MergePatternPlacementType.Conflicts | src/main/java/mod/chiselsandbits/pattern/placement/MergePatternPlacementType.java:88-105 | the positions both tallies filter on lie in both the pattern and the area |
| MergePatternPlacementType.Verdict | src/main/java/mod/chiselsandbits/pattern/placement/MergePatternPlacementType.java:79-138 | the checks in order: not-a-chiseled-block, then no space for removed bits, then not enough bits, else success; creative passes both bit checks |
| MergePatternPlacementType.VerdictAsWritten | src/main/java/mod/chiselsandbits/pattern/placement/MergePatternPlacementType.java:132-138 | as written, a non-creative success only ensures every added tally passes canInsert |
| MergePatternPlacementType.Feasibility | src/main/java/mod/chiselsandbits/pattern/placement/MergePatternPlacementType.java:107-138 | with the bit check on canExtract, a non-creative success ensures the removed bits fit and the added bits are available |
| MergePatternPlacementType.AsWrittenIgnoresMissingBits | src/main/java/mod/chiselsandbits/pattern/placement/MergePatternPlacementType.java:132-138 | an inventory that accepts everything and supplies nothing passes the written check, while the corrected check fails with NotEnoughBits |
| MergePatternPlacementType.NotChiseledComesFirst | src/main/java/mod/chiselsandbits/pattern/placement/MergePatternPlacementType.java:79-86 | any non-chiseled covered block gives the not-a-chiseled-block failure, whatever the inventory |
| MergePatternPlacementType.CreativePasses | src/main/java/mod/chiselsandbits/pattern/placement/MergePatternPlacementType.java:107-138 | in creative mode a fully chiseled range always succeeds |
| MergePatternPlacementType.RemovedEqualsAdded | src/main/java/mod/chiselsandbits/pattern/placement/MergePatternPlacementType.java:88-130 | both tallies count the same positions: their totals are the number of conflicting positions |
| MergePatternPlacementType.NonAir | src/main/java/mod/chiselsandbits/pattern/placement/MergePatternPlacementType.java:147-148 | the merge writes only positions of the pattern |
| MergePatternPlacementType.Overlaid | src/main/java/mod/chiselsandbits/pattern/placement/MergePatternPlacementType.java:145-164 | overlaying keeps the area's positions |
| MergePatternPlacementType.MergedProperties | src/main/java/mod/chiselsandbits/pattern/placement/MergePatternPlacementType.java:145-164 | after the merge each non-air pattern position holds the pattern state, the rest is untouched, no conflict remains, and merging again changes nothing |
| MergePatternPlacementType.WriteMerge | src/main/java/mod/chiselsandbits/pattern/placement/MergePatternPlacementType.java:145-164 | the clear-then-set batch leaves the area as the merge of its old cells |
| MergePatternPlacementType.SettleBoth | src/main/java/mod/chiselsandbits/pattern/placement/MergePatternPlacementType.java:166-172 | the inventory gets one insert call per removed-bits state moving exactly that tally, then one extract call per added-bits state; earlier calls are kept |
| MergePatternPlacementType.PerformPlacement | src/main/java/mod/chiselsandbits/pattern/placement/MergePatternPlacementType.java:67-173 | the result is the ordered verdict with the "enough bits" test given: with canInsert, as the code passes it, the as-written verdict, and with canExtract the corrected Feasibility; a failure or a simulation changes nothing; a commit writes the merge; creative inventories are untouched; otherwise removed bits are inserted and added bits extracted after the edit |
| SphereChiselMode.SphereFilterRejects | src/main/java/mod/chiselsandbits/chiseling/modes/sphere/SphereChiselMode.java:345-354 | entries outside the world are rejected, air is rejected unless air is processed, and in-sphere non-air entries pass |
| SphereChiselMode.NothingToFillWithoutAir | src/main/java/mod/chiselsandbits/chiseling/modes/sphere/SphereChiselMode.java:345-354 | without air processing the right click selects no cells to fill |
| SphereChiselMode.SetAll | src/main/java/mod/chiselsandbits/chiseling/modes/sphere/SphereChiselMode.java:175-181 | the chosen area cells get the state and the others keep theirs |
| SphereChiselMode.ProcessRayTraceIntoContext | src/main/java/mod/chiselsandbits/chiseling/modes/sphere/SphereChiselMode.java:213-265 | no hit leaves the context alone; a hit installs the sphere filter and includes the sampled points in the region |
| SphereChiselMode.ChiselSelected | src/main/java/mod/chiselsandbits/chiseling/modes/sphere/SphereChiselMode.java:90-118 | the returned visit order holds every selected cell exactly once; the tool takes one damage per entry when damage is supported; the cleared cells are exactly the entries after whose damage the tool is not broken (all selected cells without damage), each counted under its former state |
| SphereChiselMode.ChiselAt | src/main/java/mod/chiselsandbits/chiseling/modes/sphere/SphereChiselMode.java:100-112 | one bit of the batch keeps the loop invariant: a rejected bit is passed over, an accepted one goes to the damage step |
| SphereChiselMode.DamageAndClear | src/main/java/mod/chiselsandbits/chiseling/modes/sphere/SphereChiselMode.java:105-111 | an accepted cell is appended to the visit order and damaged for; it is cleared and counted exactly when the damage leaves the tool whole |
| SphereChiselMode.CountCleared | src/main/java/mod/chiselsandbits/chiseling/modes/sphere/SphereChiselMode.java:107-108 | putIfAbsent then +1 makes the count the tally of the cleared cells with the new one added |
| SphereChiselMode.BreakStep | src/main/java/mod/chiselsandbits/chiseling/modes/sphere/SphereChiselMode.java:106-111 | appending an accepted cell whose damage breaks the tool, without clearing it, keeps the loop invariant |
| SphereChiselMode.KeptAppend | src/main/java/mod/chiselsandbits/chiseling/modes/sphere/SphereChiselMode.java:100-112 | one more visited cell joins the cleared set exactly when the damage it brings does not break the tool |
| SphereChiselMode.KeptVisited | src/main/java/mod/chiselsandbits/chiseling/modes/sphere/SphereChiselMode.java:100-112 | every cleared cell was visited, and without damage every visited cell is cleared |
| SphereChiselMode.ChiselStep | src/main/java/mod/chiselsandbits/chiseling/modes/sphere/SphereChiselMode.java:100-112 | appending an accepted cell whose damage leaves the tool whole, and clearing it, keeps the loop invariant |
| SphereChiselMode.SkipStep | src/main/java/mod/chiselsandbits/chiseling/modes/sphere/SphereChiselMode.java:100-103 | passing over a cell the filter rejects keeps the loop invariant |
| SphereChiselMode.ChiselDone | src/main/java/mod/chiselsandbits/chiseling/modes/sphere/SphereChiselMode.java:90-118 | at the end of the loop the visit order holds exactly the selected cells, and the cleared cells are exactly the ones set to air |
| SphereChiselMode.OnLeftClickBy | src/main/java/mod/chiselsandbits/chiseling/modes/sphere/SphereChiselMode.java:67-124 | simulation returns DEFAULT untouched and a DEFAULT result deals no damage; ALLOW exactly when it is no simulation, the ray hit and a region survives the permission check; then every selected cell is visited once in some order, the tool takes one damage per visit when damage is supported, exactly the cells after whose damage it is not broken are cleared, and those are counted under their former state and handed to the player |
| SphereChiselMode.FillSelected | src/main/java/mod/chiselsandbits/chiseling/modes/sphere/SphereChiselMode.java:175-181 | every selected air cell is set to the held state |
| SphereChiselMode.OnRightClickBy | src/main/java/mod/chiselsandbits/chiseling/modes/sphere/SphereChiselMode.java:134-186 | simulation or an air held state returns DEFAULT untouched, and no DEFAULT path marks the context complete; ALLOW exactly when it is no simulation, the ray hit, a region survives the permission check and the held state is not air, whether or not the bits suffice; the needed count is the number of selected air cells; they are filled only for creative or a sufficient inventory, which loses exactly that count |
| SphereChiselMode.IsStillValid | src/main/java/mod/chiselsandbits/chiseling/modes/sphere/SphereChiselMode.java:201-211 | valid exactly when the recomputed centre equals the stored anchor, or both are absent |
| BitStorageBlockEntity.Count | src/main/java/mod/chiselsandbits/block/entities/BitStorageBlockEntity.java:174-211 | a stack counts zero exactly when it is empty |
| BitStorageBlockEntity.SlotStack | src/main/java/mod/chiselsandbits/block/entities/BitStorageBlockEntity.java:155-171 | the slot is non-empty exactly when bits > 0, slot 0 and a state or fluid is held; it then holds all the bits |
| BitStorageBlockEntity.FluidAcceptsAsWritten | src/main/java/mod/chiselsandbits/block/entities/BitStorageBlockEntity.java:261-262 | as written, an empty fluid slot accepts any stack |
| BitStorageBlockEntity.SolidAcceptsAsWritten | src/main/java/mod/chiselsandbits/block/entities/BitStorageBlockEntity.java:315-316 | as written, any bit stack is accepted, whatever is stored |
| BitStorageBlockEntity.Accepts | src/main/java/mod/chiselsandbits/block/entities/BitStorageBlockEntity.java:255-316 | corrected: a stack is accepted exactly when the tank is empty or already holds the same bits |
| BitStorageBlockEntity.FluidAccepts | src/main/java/mod/chiselsandbits/block/entities/BitStorageBlockEntity.java:261-262 | the fluid path's test: the code's own comparison as written, or the corrected Accepts |
| BitStorageBlockEntity.SolidAccepts | src/main/java/mod/chiselsandbits/block/entities/BitStorageBlockEntity.java:315-316 | the solid path's test: the code's own comparison as written, or the corrected Accepts |
| BitStorageBlockEntity.InsertBy | src/main/java/mod/chiselsandbits/block/entities/BitStorageBlockEntity.java:174-211 | insertItem under the storage's test: as written it is the code's insertion, otherwise the corrected one |
| BitStorageBlockEntity.Leftover | src/main/java/mod/chiselsandbits/block/entities/BitStorageBlockEntity.java:339-346 | the leftover is merged - 4096 when over capacity and empty otherwise; stored plus leftover is what was merged |
| BitStorageBlockEntity.FluidAttempt | src/main/java/mod/chiselsandbits/block/entities/BitStorageBlockEntity.java:244-295 | applies exactly to accepted fluid bits; a committed attempt stores the fluid, its legacy block and min(bits + count, 4096) with the int sum wrapping; its leftover is the capacity leftover; simulation leaves the tank alone |
| BitStorageBlockEntity.SolidAttempt | src/main/java/mod/chiselsandbits/block/entities/BitStorageBlockEntity.java:298-349 | applies exactly to accepted solid bits; a committed attempt stores the state, no fluid and min(bits + count, 4096) with the int sum wrapping; its leftover is the capacity leftover; simulation leaves the tank alone |
| BitStorageBlockEntity.InsertConservesBits | src/main/java/mod/chiselsandbits/block/entities/BitStorageBlockEntity.java:174-211 | bits stored after plus bits returned equals bits stored before plus bits offered |
| BitStorageBlockEntity.SimulatedInsertMatches | src/main/java/mod/chiselsandbits/block/entities/BitStorageBlockEntity.java:318-346 | a simulated insertion returns the same leftover as the real one and changes nothing |
| BitStorageBlockEntity.InsertKeepsValid | src/main/java/mod/chiselsandbits/block/entities/BitStorageBlockEntity.java:174-211 | insertion keeps the bit count in [0, 4096] and the state consistent with the fluid |
| BitStorageBlockEntity.SolidInsertSets | src/main/java/mod/chiselsandbits/block/entities/BitStorageBlockEntity.java:320-331 | a committed solid insertion sets bits to min(bits + n, 4096), clears the fluid and stores the inserted state |
| BitStorageBlockEntity.InsertKeepsStoredKind | src/main/java/mod/chiselsandbits/block/entities/BitStorageBlockEntity.java:298-349 | corrected: into a non-empty tank only the same bits go in, so the stored state and fluid stay as they were |
| BitStorageBlockEntity.BlockItemInsertion | src/main/java/mod/chiselsandbits/block/entities/BitStorageBlockEntity.java:193-210 | a non-bit stack always comes back unchanged under either acceptance test; a chiselable block item with a non-air state fills a fluid-free tank holding no state or air with 4096 bits of its state (even when simulating, and without a save and update), and every other non-bit stack leaves the tank as it was |
| BitStorageBlockEntity.AsWrittenRelabelsStoredBits | src/main/java/mod/chiselsandbits/block/entities/BitStorageBlockEntity.java:261-316 | as written, inserting other bits relabels the stored bits; the corrected insertion refuses them |
| BitStorageBlockEntity.InsertBitsRest | src/main/java/mod/chiselsandbits/block/entities/BitStorageBlockEntity.java:213-219 | insertBits returns the count of the stack handed back: all of it for fluid bits or bits the test refuses; for accepted solid bits whose sum does not wrap, the bits above 4096 |
| BitStorageBlockEntity.InsertBitsWraps | src/main/java/mod/chiselsandbits/block/entities/BitStorageBlockEntity.java:318-339 | as written, the int sum wraps: one stored bit topped up with Integer.MAX_VALUE more leaves -2^31 bits and hands nothing back |
| BitStorageBlockEntity.ExtractionTakes | src/main/java/mod/chiselsandbits/block/entities/BitStorageBlockEntity.java:397-432 | extraction returns min(amount, stored) bits and removes them; at zero the tank forgets its state and fluid |
| BitStorageBlockEntity.ExtractInsertRoundTrip | src/main/java/mod/chiselsandbits/block/entities/BitStorageBlockEntity.java:397-432 | putting back what was extracted restores the tank's bit count |
| BitStorageBlockEntity.CappedExtraction | src/main/java/mod/chiselsandbits/block/entities/BitStorageBlockEntity.java:222-228 | extractItem never hands out more than the requested amount or the bit item's stack limit |
| BitStorageBlockEntity.SaveTag | src/main/java/mod/chiselsandbits/block/entities/BitStorageBlockEntity.java:107-114 | the saved tag holds the state, the fluid and the bit count |
| BitStorageBlockEntity.LoadTag | src/main/java/mod/chiselsandbits/block/entities/BitStorageBlockEntity.java:73-104 | loading takes the bit count; a saved fluid sets the fluid and its legacy block state; otherwise the fluid is kept |
| BitStorageBlockEntity.SaveLoadRoundTrip | src/main/java/mod/chiselsandbits/block/entities/BitStorageBlockEntity.java:73-114 | loading what was saved restores the tank, a missing state coming back as air |
| BitStorageBlockEntity.BitStorage.constructor | src/main/java/mod/chiselsandbits/block/entities/BitStorageBlockEntity.java:53-57 | a new tank is empty, with no light level recorded, and runs the acceptance test it is given |
| BitStorageBlockEntity.BitStorage.SaveAndUpdate | src/main/java/mod/chiselsandbits/block/entities/BitStorageBlockEntity.java:434-450 | the contents stay; an update is sent and the light is rechecked when it changed |
| BitStorageBlockEntity.BitStorage.AttemptFluidBitStackInsertion | src/main/java/mod/chiselsandbits/block/entities/BitStorageBlockEntity.java:244-295 | the tank and the result are those of the fluid attempt on the old contents under the storage's test: the code's stored-fluid comparison as written, or the corrected one |
| BitStorageBlockEntity.BitStorage.AttemptSolidBitStackInsertion | src/main/java/mod/chiselsandbits/block/entities/BitStorageBlockEntity.java:298-349 | the tank and the result are those of the solid attempt on the old contents under the storage's test: the code's incoming-state comparison as written, or the corrected one |
| BitStorageBlockEntity.BitStorage.InsertItem | src/main/java/mod/chiselsandbits/block/entities/BitStorageBlockEntity.java:174-211 | the tank and the returned stack are those of the insertion under the storage's test on the old contents: the code's insertion as written, or the corrected one |
| BitStorageBlockEntity.BitStorage.InsertBits | src/main/java/mod/chiselsandbits/block/entities/BitStorageBlockEntity.java:213-219 | returns the leftover count and updates the tank as the solid attempt does under the storage's test, with the sum wrapping as Java's int does |
| BitStorageBlockEntity.BitStorage.ExtractBits | src/main/java/mod/chiselsandbits/block/entities/BitStorageBlockEntity.java:397-432 | the tank and the returned stack are those of the extraction on the old contents |
| BitStorageBlockEntity.BitStorage.ExtractItem | src/main/java/mod/chiselsandbits/block/entities/BitStorageBlockEntity.java:222-228 | the extraction capped at the stack limit |
| BitStorageBlockEntity.BitStorage.AddAllPossibleBits | src/main/java/mod/chiselsandbits/block/entities/BitStorageBlockEntity.java:502-528 | a crouching player with a stored non-air state raises bits by min(4096 - bits, available) in int arithmetic, so a valid tank stays at most 4096; the inventory loses that count; the result is always false |
| BitStorageBlockEntity.BitStorage.Save | src/main/java/mod/chiselsandbits/block/entities/BitStorageBlockEntity.java:107-114 | the saved tag of the contents |
| BitStorageBlockEntity.BitStorage.Load | src/main/java/mod/chiselsandbits/block/entities/BitStorageBlockEntity.java:73-104 | the contents become the loaded tag over the old contents |
| TileEntityBlockChiseled.BlobsMergeProperties | src/main/java/mod/chiselsandbits/chiseledblock/TileEntityBlockChiseled.java:632-644 | mergeability is symmetric, anything merges with the empty blob, and two blobs with a common filled cell do not merge |
| TileEntityBlockChiseled.RotateYCCW | src/main/java/mod/chiselsandbits/chiseledblock/TileEntityBlockChiseled.java:569-575 | turning a facing counter-clockwise about Y gives a different horizontal facing |
| TileEntityBlockChiseled.FourTurnsIdentity | src/main/java/mod/chiselsandbits/chiseledblock/TileEntityBlockChiseled.java:569-575 | four counter-clockwise turns of a horizontal facing give it back |
| TileEntityBlockChiseled.TurnsModFour | src/main/java/mod/chiselsandbits/chiseledblock/TileEntityBlockChiseled.java:569-575 | the facing reached by the rotation countdown depends only on the rotation count modulo four |
| TileEntityBlockChiseled.WriteChisleData | src/main/java/mod/chiselsandbits/chiseledblock/TileEntityBlockChiseled.java:257-279 | nothing is written without a block id and a blob reference; with both but no side flags the unboxing throws; otherwise the side flags, block id and reference bytes are written, opacity defaulting to 1.0 and light to 0 |
| TileEntityBlockChiseled.VersionedBytes | src/main/java/mod/chiselsandbits/chiseledblock/TileEntityBlockChiseled.java:292-311 | the versioned bytes are used when present; otherwise non-empty legacy bytes are converted to the compact version |
| TileEntityBlockChiseled.ReadProps | src/main/java/mod/chiselsandbits/chiseledblock/TileEntityBlockChiseled.java:281-346 | a stored block id of 0 becomes cobblestone; side flags, opacity and light are taken as stored; a fresh blob reference is made |
| TileEntityBlockChiseled.WriteReadRoundTrip | src/main/java/mod/chiselsandbits/chiseledblock/TileEntityBlockChiseled.java:257-346 | reading back written data restores the properties, with the defaults filled in |
| TileEntityBlockChiseled.LightLevel | src/main/java/mod/chiselsandbits/chiseledblock/TileEntityBlockChiseled.java:456 | the light level lies in [0, 15] and is floor(light · 15) for light in [0, 1] |
| TileEntityBlockChiseled.IsSideSolid | src/main/java/mod/chiselsandbits/chiseledblock/TileEntityBlockChiseled.java:598-610 | with side flags stored, a side is solid exactly when its ordinal's bit is set; all flags set means every side is solid |
| TileEntityBlockChiseled.BlockStateOf | src/main/java/mod/chiselsandbits/chiseledblock/TileEntityBlockChiseled.java:197-212 | the state of the stored block id when it names one; the alternative's default without an id or when the id names no state |
| TileEntityBlockChiseled.BlobOf | src/main/java/mod/chiselsandbits/chiseledblock/TileEntityBlockChiseled.java:413-434 | no reference gives the empty blob, a reference that fails to decode gives an all-cobblestone blob, and otherwise the decoded blob |
| TileEntityBlockChiseled.ChiseledTile.constructor | src/main/java/mod/chiselsandbits/chiseledblock/TileEntityBlockChiseled.java:54-57 | a new tile has the default properties and no cached pick item |
| TileEntityBlockChiseled.ChiseledTile.NewRef | src/main/java/mod/chiselsandbits/chiseledblock/TileEntityBlockChiseled.java:499 | each new blob reference is distinct from every earlier one |
| TileEntityBlockChiseled.ChiseledTile.ReadChisleData | src/main/java/mod/chiselsandbits/chiseledblock/TileEntityBlockChiseled.java:281-346 | the properties become those read from the tag; a light recheck is requested in a world when the light changed |
| TileEntityBlockChiseled.ChiseledTile.FillWith | src/main/java/mod/chiselsandbits/chiseledblock/TileEntityBlockChiseled.java:364-395 | side flags become 0xFF (every side solid) and opacity 1.0; the block id is replaced only by a non-zero state |
| TileEntityBlockChiseled.ChiseledTile.CanMerge | src/main/java/mod/chiselsandbits/chiseledblock/TileEntityBlockChiseled.java:632-644 | a merge is allowed exactly when the blobs do not overlap and the occlusion test, when present, does not reject the blob |
| TileEntityBlockChiseled.ChiseledTile.SetBlob | src/main/java/mod/chiselsandbits/chiseledblock/TileEntityBlockChiseled.java:447-526 | without a world the blob is stored; with one a full blob replaces the world block, a non-zero most common state updates the tile, and otherwise the block is removed; the light level stays in [0, 15] |
| TileEntityBlockChiseled.ChiseledTile.GetItemStack | src/main/java/mod/chiselsandbits/chiseledblock/TileEntityBlockChiseled.java:551-596 | the cached stack is returned when it was made for the same rotation count and the very same blob reference; otherwise the pick stack of the blob spun once per rotation is returned and cached |
| ChiselingContext.GrowEncloses | src/main/java/mod/chiselsandbits/chiseling/ChiselingContext.java:159-170 | after include(p) the region contains p and everything it contained before |
| ChiselingContext.GrowIsSmallest | src/main/java/mod/chiselsandbits/chiseling/ChiselingContext.java:159-170 | the grown region is the smallest box holding the old region and p |
| ChiselingContext.GrowInsideUnchanged | src/main/java/mod/chiselsandbits/chiseling/ChiselingContext.java:172-180 | including a point already inside leaves the region unchanged |
| ChiselingContext.ChiselingContext.constructor | src/main/java/mod/chiselsandbits/chiseling/ChiselingContext.java:47-72 | a new context is incomplete, with no region, filter or metadata |
| ChiselingContext.ChiselingContext.Snapshot | src/main/java/mod/chiselsandbits/chiseling/ChiselingContext.java:74-110 | a snapshot context is a simulation with a no-op callback, keeping the completion flag and the region |
| ChiselingContext.ChiselingContext.GetMutator | src/main/java/mod/chiselsandbits/chiseling/ChiselingContext.java:118-136 | if any covered position is refused the region is dropped for good and nothing is returned; otherwise every covered position is editable |
| ChiselingContext.ChiselingContext.Include | src/main/java/mod/chiselsandbits/chiseling/ChiselingContext.java:150-183 | no region gives [p, p]; p inside leaves it; otherwise it grows to hold p; the new region holds the old one |
| ChiselingContext.ChiselingContext.SetComplete | src/main/java/mod/chiselsandbits/chiseling/ChiselingContext.java:185-190 | sets the flag and runs the callback on every call |
| ChiselingContext.ChiselingContext.TryDamageItem | src/main/java/mod/chiselsandbits/chiseling/ChiselingContext.java:255-272 | true without damage when damage is unsupported or simulated; otherwise false exactly when the item broke |
| ChiselingContext.ChiselingContext.SetStateFilter | src/main/java/mod/chiselsandbits/chiseling/ChiselingContext.java:274-278 | the filter is present afterwards |
| ChiselingContext.ChiselingContext.ClearStateFilter | src/main/java/mod/chiselsandbits/chiseling/ChiselingContext.java:280-284 | the filter is absent afterwards |
| ChiselingContext.ChiselingContext.GetMetadata | src/main/java/mod/chiselsandbits/chiseling/ChiselingContext.java:292-306 | the stored value of a key, empty when it is absent |
| ChiselingContext.ChiselingContext.SetMetadata | src/main/java/mod/chiselsandbits/chiseling/ChiselingContext.java:314-318 | sets exactly one key: it reads back as the value set, and every other key reads as before |
| ChiselingContext.ChiselingContext.RemoveMetadata | src/main/java/mod/chiselsandbits/chiseling/ChiselingContext.java:308-312 | removes exactly one key: it reads as empty afterwards, and every other key reads as before |
| ChiselingContext.ChiselingContext.CreateSnapshot | src/main/java/mod/chiselsandbits/chiseling/ChiselingContext.java:210-248 | a fresh simulated context with a no-op callback, the same completion flag and region, and the snapshot of the metadata |
| ChiselingContext.SnapshotKeepsPresentKeys | src/main/java/mod/chiselsandbits/chiseling/ChiselingContext.java:250-253 | a snapshot keeps exactly the metadata keys with present values |
| ColorUtils.Pack | src/api/java/mod/chiselsandbits/api/util/ColorUtils.java:29-37 | alpha in bits 24-31, red in 16-23, green in 8-15, blue in 0-7, each masked to 8 bits |
| ColorUtils.PackOpaque | src/api/java/mod/chiselsandbits/api/util/ColorUtils.java:24-26 | the three-channel overload is opaque |
| ColorUtils.PackGrey | src/api/java/mod/chiselsandbits/api/util/ColorUtils.java:20-22 | the one-channel overload is an opaque grey |
| ColorUtils.Unpack | src/main/java/mod/chiselsandbits/client/util/FluidCuboidUtils.java:131-134 | the renderer's extraction gives four channels in [0, 255] |
| ColorUtils.PackMasks | src/api/java/mod/chiselsandbits/api/util/ColorUtils.java:32-35 | out-of-range inputs wrap to their low 8 bits instead of bleeding into other channels |
| ColorUtils.UnpackPack | src/api/java/mod/chiselsandbits/api/util/ColorUtils.java:29-37 | extracting a packed in-range colour gives back its channels |
| ColorUtils.PackUnpack | src/main/java/mod/chiselsandbits/client/util/FluidCuboidUtils.java:131-134 | packing the extracted channels of any int gives it back |
| ColorUtils.PackInjective | src/api/java/mod/chiselsandbits/api/util/ColorUtils.java:30-37 | distinct in-range channel tuples pack to distinct ints |
| ColorUtils.OverloadsAgree | src/api/java/mod/chiselsandbits/api/util/ColorUtils.java:20-26 | pack(c) == pack(c, c, c) == pack(c, c, c, 255) |
| ItemStackUtils.GetItem | src/main/java/mod/chiselsandbits/utils/ItemStackUtils.java:53-91 | lava gives the lava bucket; a crop its clone item, or wheat seeds when that is empty; farmland and grass path dirt; fire flint and steel; a flower pot the flower pot item; a bamboo sapling bamboo; a fluid or any other block its own item, so air only comes from the block's own item |
| ItemStackUtils.SpecialBlocksPickOtherItems | src/main/java/mod/chiselsandbits/utils/ItemStackUtils.java:38-91 | pick block on farmland, grass path, fire, a flower pot, a bamboo sapling or a crop yields a non-empty one-item stack of the substitute item (dirt, flint and steel, flower pot, bamboo, the clone item or wheat seeds), whatever the block's own item |
| ItemStackUtils.GetItemStackFromBlockState | src/main/java/mod/chiselsandbits/utils/ItemStackUtils.java:38-51 | a fluid gives its filled bucket, a non-air mapped item a one-item stack of it, and otherwise the block's own stack |
| ItemStackUtils.ItemStackFromPlayer | src/main/java/mod/chiselsandbits/utils/ItemStackUtils.java:93-171 | no player gives empty; the main hand is preferred over the off hand; a stack counts only when it is non-empty and its item has the trait, since getItem() reads as air for an empty stack; the result is empty or has the wanted trait |
| ItemStackUtils.PatternHandFromPlayer | src/main/java/mod/chiselsandbits/utils/ItemStackUtils.java:173-186 | the off hand exactly when it holds a non-empty pattern stack |
| ItemStackUtils.PatternHandDisagreesWithPatternStack | src/main/java/mod/chiselsandbits/utils/ItemStackUtils.java:153-186 | with patterns in both hands the pattern stack comes from the main hand but the pattern hand is the off hand |
| ItemStackUtils.HeldBitBlockStateFromPlayer | src/main/java/mod/chiselsandbits/utils/ItemStackUtils.java:208-227 | air when there is no player or neither hand holds a non-empty bit stack |
| ItemStackUtils.EmptyHandsHoldNothing | src/main/java/mod/chiselsandbits/utils/ItemStackUtils.java:93-227 | hands holding only empty stacks supply the empty stack, the main hand and air, whatever items those stacks name |
| ItemStackUtils.HeldBitStateMatchesBitStack | src/main/java/mod/chiselsandbits/utils/ItemStackUtils.java:188-227 | the held bit state is the state of the bit stack chosen by the same hand priority |
| ItemStackUtils.StateFromItem | src/main/java/mod/chiselsandbits/utils/ItemStackUtils.java:229-245 | a block item gives its block's default state, and anything else gives air |
| SelectedToolModeRendererRegistry.PutAllKeys | src/main/java/mod/chiselsandbits/client/tool/mode/icon/SelectedToolModeRendererRegistry.java:41-49 | putting renderers adds exactly their ids as keys |
| SelectedToolModeRendererRegistry.RegisterSucceeds | src/main/java/mod/chiselsandbits/client/tool/mode/icon/SelectedToolModeRendererRegistry.java:41-49 | registration succeeds exactly when the ids are new and distinct; then each renderer is stored under its id and earlier entries stay |
| SelectedToolModeRendererRegistry.RegisterFailure | src/main/java/mod/chiselsandbits/client/tool/mode/icon/SelectedToolModeRendererRegistry.java:44-48 | a duplicate names the first renderer whose id was taken, whose put already overwrote the entry; the map is the puts up to it |
| SelectedToolModeRendererRegistry.EarlierStay | src/main/java/mod/chiselsandbits/client/tool/mode/icon/SelectedToolModeRendererRegistry.java:44-48 | renderers before the failing one stay registered |
| SelectedToolModeRendererRegistry.RendererRegistry.constructor | src/main/java/mod/chiselsandbits/client/tool/mode/icon/SelectedToolModeRendererRegistry.java:26-32 | a fresh registry holds exactly the two default renderers under their ids |
| SelectedToolModeRendererRegistry.RendererRegistry.Register | src/main/java/mod/chiselsandbits/client/tool/mode/icon/SelectedToolModeRendererRegistry.java:41-49 | the loop leaves the map and outcome of the put-then-check registration |
| SelectedToolModeRendererRegistry.RendererRegistry.GetCurrent | src/main/java/mod/chiselsandbits/client/tool/mode/icon/SelectedToolModeRendererRegistry.java:34-39 | the configured renderer when present, otherwise the root default |
| SelectedToolModeRendererRegistry.FreshRegistryCurrent | src/main/java/mod/chiselsandbits/client/tool/mode/icon/SelectedToolModeRendererRegistry.java:26-39 | a fresh registry always has a current renderer |

## Left out

- ChunkSectionUtils: the palette container, NBT and gzip are oracles. A section's storage is a plain array of state ids, and the block-count recalculation is not modelled.
- ChunkSectionUtils.QuarterTurn: `VectorUtils.rotate90Degrees` is not part of this model. It is taken to be the right-hand quarter turn about the axis, and the doubles with the ×1000/round step become exact integer arithmetic on doubled centred coordinates.
- ShareWorldData: the `BufferedImage` constructor (the screenshot decoder is not part of this model) and `getStuctureData` (re-compression through the Deflate library) are left out.
- ShareWorldData: Base64, Inflate, the UTF-8 decoding of block names and the share format reader are oracles. The byte-by-byte copy of the inflated stream is folded into the inflate oracle.
- ShareWorldData.ShareData.GetBlob: an index that wraps out of the table makes Java throw `ArrayIndexOutOfBoundsException`; the model returns `None` there instead.
- ShareWorldData.Payload: a footer found before the header makes Java's `substring` throw. The model reports it as the `MarkersOutOfOrder` error.
- SphereChiselMode: ray tracing, the sphere geometry (`processRayTraceIntoCenter`, the distance test) and `Vector3d` doubles are left out. Sphere membership is an abstract predicate, and the centre is a parameter.
- SphereChiselMode: spawning the bits the inventory cannot hold (`insertIntoOrSpawn`) becomes one recorded insert call per state.
- SphereChiselMode: the in-world stream's iteration order is not modelled. The left-click batch visits the cells in an arbitrary order, which it returns as a ghost sequence, and which cells the damage spares is stated against that order.
- MergePatternPlacementType: the change tracker, the batch mutation and the placement colours are not modelled. A failure is its colour and message kind.
- BitStorageBlockEntity: fluid millibucket conversions (float arithmetic), the Forge fluid registry scan and capability plumbing are left out. The fluid of a state and its legacy block are oracles.
- BitStorageBlockEntity: the block-item branch of `insertItem` ignores `simulate` in the source, and the model keeps that.
- BitStorageBlockEntity.InsertConservesBits: holds only when `bits + getCount()` does not wrap (`NoOverflow`). With a count within 4096 of Integer.MAX_VALUE, the Java sum wraps and the bits are not conserved; InsertBitsWraps shows this.
- BitStorageBlockEntity.InsertKeepsValid: holds only when `bits + getCount()` does not wrap. A wrapped sum leaves a negative count, as InsertBitsWraps shows.
- BitStorageBlockEntity.SolidInsertSets: stated only for a sum that does not wrap.
- TileEntityBlockChiseled: the TESR swap tasks, network packets (`getDescriptionPacket`, `onDataPacket`), `copyFrom` and the render states are left out. `rotateBlock` and `postChisel` only call `setBlob` and have no separate model.
- TileEntityBlockChiseled: `VoxelBlob` is an oracle (decode, legacy conversion, byte form, statistics, opacity, side flags, spin, bits-as-item). World notifications and lighting become recorded effects.
- TileEntityBlockChiseled: `getPositionRandom` is a constant seed of the tile. Reference identity (`cache.ref == getBlobStateReference()`) is modelled by a serial number that grows with each new reference.
- TileEntityBlockChiseled.LightLevel: `light * 15` is computed in float before the `(int)` cast; the model uses exact reals, so a product that float rounds across an integer is not modelled. A NaN light value is not modelled either; the level is clamped as an integer.
- ChiselingContext: the `BreakEvent` permission check is the `canEdit` oracle, and item damage is the `breaksAt` oracle. Region bounds are reals, not doubles.
- ItemStackUtils: blocks, items and hands are abstract datatypes. Forge's `getCloneItemStack` is part of the block datatype, and the throwables caught by `getStateFromItem` are not modelled.
- SelectedToolModeRendererRegistry.RendererRegistry.constructor: requires the two default renderers to have distinct ids. With equal ids the source's constructor would throw.
- SelectedToolModeRendererRegistry: the concurrent map becomes an ordinary sequential map.
- FluidCuboidUtils: only the channel extraction is modelled, as `ColorUtils.Unpack`; the rest is rendering.

## Findings

| source | as written | input that shows it | evidently intended | confidence | as-written member | corrected member |
|---|---|---|---|---|---|---|
| src/main/java/mod/chiselsandbits/pattern/placement/MergePatternPlacementType.java:132-138 | the "has required bits" check asks the inventory `canInsert` for each added-bits tally | a survival player whose inventory can take any bits but holds none; pattern bit of state 2 over a stored bit of state 1: the check passes and the placement succeeds | the bits the placement consumes must be available: `canExtract` for each added-bits tally, failing with NotEnoughBits otherwise | high (not executed) | MergePatternPlacementType.AsWrittenIgnoresMissingBits | MergePatternPlacementType.Feasibility |
| src/main/java/mod/chiselsandbits/block/entities/BitStorageBlockEntity.java:261-316 | the solid test builds its comparison stack from the incoming state (`getBlockBitStack(blk, bits)`), so it always matches; the fluid test compares with the stored fluid only, which a solid tank lacks | a tank holding 100 bits of state 1: inserting 5 bits of state 2 leaves 105 bits of state 2, and inserting 5 bits of fluid state 3 leaves 105 bits of that fluid | only bits of the stored kind go into a non-empty tank; other bits are returned | medium (not executed) | BitStorageBlockEntity.AsWrittenRelabelsStoredBits | BitStorageBlockEntity.InsertKeepsStoredKind |
