# Handy Indicator, modelled in Dafny

Handy Indicator is a Minecraft mod that marks containers holding items with a
coloured frame drawn around the block. The server keeps three block-state
flags in step with inventory contents: `has_items` on hoppers, dispensers,
droppers, barrels, crafters, decorated pots and chests, and `has_input` and
`has_fuel` on furnaces, blast furnaces and smokers. Whenever either half of
a double chest is updated, both halves are given the same flag; placing a
half next to an existing one updates neither. On the first server tick
after the mod is loaded, every loaded chunk is queued and re-derived ten
chunks per tick; the queued-once flag is never reset, so a later server
start in the same process queues nothing. The client wraps
the baked model of every lit block state with overlay parts. These parts
are thin frames of quads built from fixed boxes. The double-chest frame is
turned a quarter turn at a time to follow the chest's facing.

This project models that core and proves what it promises:

- `types.dfy` (module `Types`): directions and quarter turns, positions,
  the blocks the mod knows, and block states with optional properties.
- `indicator.dfy` (module `Indicator`): the per-block enable table, the
  24-bit colour getters, and the refresh queue. The queue is a pure
  `Tick` transition and a `RefreshScheduler` class whose loop is proved
  to perform it.
- `state_helper.dfy` (module `StateHelper`): the flag updates. Each one is a
  pure transition on a store of block states plus a log of block writes.
  A `World` class and the update methods, with their slot-scanning loops,
  are proved to perform exactly those transitions.
- `quad_factory.dfy` (module `QuadFactory`): quad construction, the five
  overlay shapes, and the rotation about the block's vertical centre line.
  Coordinates are exact reals.
- `model_part.dfy` (module `ModelPart`): the overlay model part. Its
  constructor sorts the quads by cull direction.
- `composite_model.dfy` (module `CompositeModel`): a model wrapped with
  overlay parts, and part collection into the caller's list.
- `model_shaper.dfy` (module `ModelShaper`): the model-cache rewrite. It
  builds the parts once, applies the state-to-overlay decision table, and
  picks the double-chest rotation.

## Model

| member | source | states |
|---|---|---|
| Indicator.IsBlockEnabled | src/main/java/dev/containerindicator/ContainerIndicator.java:64-86 | false whenever the global switch is off; a block without its own switch follows the global switch |
| Indicator.EnabledIsGlobalAndOwnSwitch | src/main/java/dev/containerindicator/ContainerIndicator.java:64-86 | enabled exactly when the global switch is on and the block's own switch (if it has one) is on |
| Indicator.OnlyOwnSwitchMatters | src/main/java/dev/containerindicator/ContainerIndicator.java:68-83 | two configurations that agree on the global switch and the block's own switch agree on that block |
| Indicator.CopperChestsShareSwitch | src/main/java/dev/containerindicator/ContainerIndicator.java:79-83 | all eight copper chest variants follow the copper-chest switch |
| Indicator.DefaultsEnableEverything | src/main/java/dev/containerindicator/ContainerIndicatorConfig.java:22-36 | with the default configuration every block is enabled |
| Indicator.Low24 | src/main/java/dev/containerindicator/ContainerIndicator.java:56-62 | masking keeps the low 24 bits: a value in [0, 0xFFFFFF], equal to the bits modulo 2^24, unchanged for a value already in range |
| Indicator.IndicatorColor | src/main/java/dev/containerindicator/ContainerIndicator.java:56-58 | the indicator colour is an RGB value in [0, 0xFFFFFF], equal to the configured colour when that is in range |
| Indicator.FuelColor | src/main/java/dev/containerindicator/ContainerIndicator.java:60-62 | the fuel colour is an RGB value in [0, 0xFFFFFF], equal to the configured colour when that is in range |
| Indicator.Tick | src/main/java/dev/containerindicator/ContainerIndicator.java:38-54 | afterwards the queue is marked filled; a filled non-empty queue strictly shrinks; refreshed ++ pending is preserved, plus the loaded chunks on the first tick only; every tick, the first included, hands exactly min(10, queue length) chunks to the refresh, appended after those already refreshed |
| Indicator.TickIgnoresLoadedOnceQueued | src/main/java/dev/containerindicator/ContainerIndicator.java:39-48 | once the queue has been filled, later ticks never enqueue again |
| Indicator.TicksDrainInOrder | src/main/java/dev/containerindicator/ContainerIndicator.java:50-53 | k ticks refresh the next min(10k, queue length) chunks in FIFO order and keep the rest queued |
| Indicator.FirstTickFillsThenDrains | src/main/java/dev/containerindicator/ContainerIndicator.java:38-54 | the first tick is the loaded chunks appended to the queue followed by an ordinary poll |
| Indicator.FirstTicksDrainInOrder | src/main/java/dev/containerindicator/ContainerIndicator.java:38-54 | k ticks from the first one hand the first min(10k, queue length) queued chunks to the refresh, in queue order, and keep the rest queued |
| Indicator.StartupRefreshesEveryLoadedChunk | src/main/java/dev/containerindicator/ContainerIndicator.java:38-54 | from the initial state, ceil(length / 10) ticks (at least one) refresh every chunk loaded at the first tick exactly once, in order |
| Indicator.QueueEmptiesAfterEnoughTicks | src/main/java/dev/containerindicator/ContainerIndicator.java:50-53 | after ceil(length / 10) ticks the queue is empty and every chunk was refreshed once, in order |
| Indicator.RefreshScheduler.ProcessRefreshQueue | src/main/java/dev/containerindicator/ContainerIndicator.java:38-54 | the tick handler's loop performs exactly one `Tick` transition on the scheduler's state |
| Indicator.RefreshScheduler.RefreshChunk | src/main/java/dev/containerindicator/ContainerIndicator.java:52 | a chunk handed to the refresh is recorded after those before it; the queue is untouched |
| StateHelper.AnyOccupied | src/main/java/dev/containerindicator/ContainerStateHelper.java:62-67 | the early-exit slot scan answers true exactly when some slot is non-empty |
| StateHelper.SyncHasItems | src/main/java/dev/containerindicator/ContainerStateHelper.java:70-77 | has_items is set at one position only when present; a write is logged exactly when the state changes; only flags change |
| StateHelper.HasItemsValue | src/main/java/dev/containerindicator/ContainerStateHelper.java:58-68 | the recomputed flag is false for a disabled block and otherwise says whether some slot is non-empty |
| StateHelper.InputValue | src/main/java/dev/containerindicator/ContainerStateHelper.java:93-97 | has_input is false when disabled and otherwise whether slot 0 exists and is non-empty; a lit input implies the container is non-empty |
| StateHelper.FuelValue | src/main/java/dev/containerindicator/ContainerStateHelper.java:93-97 | has_fuel is false when disabled and otherwise whether slot 1 exists and is non-empty; a lit fuel flag implies the container is non-empty |
| StateHelper.HasItemsUpdate | src/main/java/dev/containerindicator/ContainerStateHelper.java:48-78 | a state without has_items is untouched; otherwise the flag becomes "enabled and some slot non-empty"; no other position changes; a write is logged only on change |
| StateHelper.HasItemsWritesAtMostOnce | src/main/java/dev/containerindicator/ContainerStateHelper.java:70-77 | two identical updates in a row perform at most one write |
| StateHelper.HasItemsDisabledClears | src/main/java/dev/containerindicator/ContainerStateHelper.java:58-68 | with the block disabled the flag is cleared even for a full inventory |
| StateHelper.FurnaceUpdate | src/main/java/dev/containerindicator/ContainerStateHelper.java:80-110 | without both properties the state is untouched; otherwise has_input is slot 0 and has_fuel is slot 1 (when enabled); one combined write, only on change |
| StateHelper.FurnaceIgnoresLaterSlots | src/main/java/dev/containerindicator/ContainerStateHelper.java:94-97 | slots from index 2 on never affect the furnace flags |
| StateHelper.FurnaceWritesAtMostOnce | src/main/java/dev/containerindicator/ContainerStateHelper.java:99-109 | two identical furnace updates in a row perform at most one write |
| StateHelper.FurnaceDisabledClears | src/main/java/dev/containerindicator/ContainerStateHelper.java:94-97 | with the block disabled both furnace flags are cleared |
| StateHelper.ChestNeighbor | src/main/java/dev/containerindicator/ContainerStateHelper.java:136-141 | the other half lies clockwise of the facing for a left half and counter-clockwise for a right half, never at the chest itself |
| StateHelper.NeighborOccupied | src/main/java/dev/containerindicator/ContainerStateHelper.java:143-151 | the neighbour counts only when a chest block entity stands there, and then exactly when one of its slots is non-empty |
| StateHelper.ChestUnified | src/main/java/dev/containerindicator/ContainerStateHelper.java:122-152 | a single chest gets the plain has_items value; a half's own items always light it; a disabled chest is never lit; otherwise it is lit only through an occupied chest entity at the partner position |
| StateHelper.ChestNeighborSymmetric | src/main/java/dev/containerindicator/ContainerStateHelper.java:165-169 | the two halves of a double chest name each other as neighbour |
| StateHelper.ChestUpdate | src/main/java/dev/containerindicator/ContainerStateHelper.java:112-183 | a chest update changes flags only, and leaves a state without has_items untouched |
| StateHelper.ChestHalvesAgree | src/main/java/dev/containerindicator/ContainerStateHelper.java:154-182 | afterwards this half holds the unified value, and so does the other half when it carries has_items |
| StateHelper.ChestFrame | src/main/java/dev/containerindicator/ContainerStateHelper.java:154-182 | no position other than this one and a double chest's neighbour changes, and the neighbour only when its state carries has_items |
| StateHelper.ChestWrites | src/main/java/dev/containerindicator/ContainerStateHelper.java:154-182 | the log gains exactly this position if its state changed, then the neighbour position if this is a double chest and the neighbour's state changed: every change is broadcast and nothing else is |
| StateHelper.ChestWritesOnlyOnChange | src/main/java/dev/containerindicator/ContainerStateHelper.java:154-182 | repeating a chest update with unchanged contents writes nothing |
| StateHelper.ChestDisabledClears | src/main/java/dev/containerindicator/ContainerStateHelper.java:125-137 | with the block disabled both halves are cleared |
| StateHelper.ChestUnifiedSymmetric | src/main/java/dev/containerindicator/ContainerStateHelper.java:134-152 | updating either half computes the same value: enabled and either half non-empty |
| StateHelper.RefreshOne | src/main/java/dev/containerindicator/ContainerStateHelper.java:27-43 | the per-entity dispatch changes flag values only; what each branch leaves at the entity's position is stated by `RefreshSetsPlainContainer`, `RefreshSetsChest` and `RefreshSetsFurnace`, and what it leaves elsewhere by `RefreshOneFrame` |
| StateHelper.RefreshAll | src/main/java/dev/containerindicator/ContainerStateHelper.java:24-46 | the bulk refresh changes flag values only, keeps every state well-formed and every chest entity on a chest block; its result is stated by `RefreshAllSettles` |
| StateHelper.RefreshSetsPlainContainer | src/main/java/dev/containerindicator/ContainerStateHelper.java:30-35 | after the refresh a plain container's flag reflects its own slots |
| StateHelper.RefreshSetsChest | src/main/java/dev/containerindicator/ContainerStateHelper.java:30-32 | after the refresh a chest half carrying has_items holds the unified value of the pair |
| StateHelper.RefreshSetsFurnace | src/main/java/dev/containerindicator/ContainerStateHelper.java:36-42 | after the refresh a furnace-like state's has_input and has_fuel reflect slots 0 and 1 |
| StateHelper.RefreshOneFrame | src/main/java/dev/containerindicator/ContainerStateHelper.java:27-43 | refreshing one entity changes no position other than its own and, for a double-chest entity, its partner's |
| StateHelper.RefreshAllFrame | src/main/java/dev/containerindicator/ContainerStateHelper.java:24-46 | a bulk refresh changes no position that none of its entities touches |
| StateHelper.RefreshAllConcat | src/main/java/dev/containerindicator/ContainerStateHelper.java:24-46 | entities are refreshed one after another in enumeration order: refreshing a + b is refreshing a, then b |
| StateHelper.RefreshAllSettles | src/main/java/dev/containerindicator/ContainerStateHelper.java:24-46 | after a bulk refresh every listed entity that no later entity touches is in sync: refreshing it again changes nothing at its position |
| StateHelper.RefreshAllSyncsPlainContainer | src/main/java/dev/containerindicator/ContainerStateHelper.java:24-46 | after a bulk refresh such a plain container's flag is "enabled and some slot non-empty" for its own slots |
| StateHelper.World.RefreshAllContainers | src/main/java/dev/containerindicator/ContainerStateHelper.java:24-46 | the loop over block entities performs exactly the `RefreshAll` transition and keeps the world valid |
| StateHelper.UpdateHasItems | src/main/java/dev/containerindicator/ContainerStateHelper.java:48-78 | no level or a client-side level: nothing changes; otherwise the world undergoes exactly `HasItemsUpdate` |
| StateHelper.UpdateHasItemsFromList | src/main/java/dev/containerindicator/ContainerStateHelper.java:185-215 | the list overload performs the same `HasItemsUpdate` transition |
| StateHelper.UpdateFurnaceState | src/main/java/dev/containerindicator/ContainerStateHelper.java:80-110 | no level or a client-side level: nothing changes; otherwise exactly `FurnaceUpdate` |
| StateHelper.UpdateChestHasItems | src/main/java/dev/containerindicator/ContainerStateHelper.java:112-183 | no level or a client-side level: nothing changes; otherwise exactly `ChestUpdate` |
| QuadFactory.CreateQuad | src/client/java/dev/containerindicator/model/OverlayQuadFactory.java:213-282 | direction is the cull face when given, else the face; UVs (0,0),(0,1),(1,1),(1,0); the given tint and sprite; unshaded, no light |
| QuadFactory.CreateQuadGeometry | src/client/java/dev/containerindicator/model/OverlayQuadFactory.java:218-273 | corners are box corners scaled by 1/16 on the face's plane (UP at y1, DOWN at y0, NORTH at z0, SOUTH at z1, WEST at x0, EAST at x1); the quad is flat and wound to face outwards |
| QuadFactory.FromBoxes | src/client/java/dev/containerindicator/model/OverlayQuadFactory.java:19-132 | one quad per box, in order, facing its box's face, with the builder's tint and sprite |
| QuadFactory.StandardOverlay | src/client/java/dev/containerindicator/model/OverlayQuadFactory.java:19-40 | eight quads: four UP, then NORTH, SOUTH, WEST, EAST |
| QuadFactory.BottomOverlay | src/client/java/dev/containerindicator/model/OverlayQuadFactory.java:42-63 | eight quads: four DOWN, then NORTH, SOUTH, WEST, EAST |
| QuadFactory.PotOverlay | src/client/java/dev/containerindicator/model/OverlayQuadFactory.java:65-86 | eight quads: four UP, then NORTH, SOUTH, WEST, EAST |
| QuadFactory.ChestOverlay | src/client/java/dev/containerindicator/model/OverlayQuadFactory.java:88-109 | eight quads: four UP, then NORTH, SOUTH, WEST, EAST |
| QuadFactory.DoubleChestOverlay | src/client/java/dev/containerindicator/model/OverlayQuadFactory.java:111-132 | eight quads: four UP, then NORTH, SOUTH, WEST, EAST |
| QuadFactory.AllShapesAreProper | src/client/java/dev/containerindicator/model/OverlayQuadFactory.java:19-132 | every box of every builder has positive extent on all three axes |
| QuadFactory.FromBoxesFaceOutwards | src/client/java/dev/containerindicator/model/OverlayQuadFactory.java:227-273 | every built quad is flat and wound counter-clockwise as seen from outside |
| QuadFactory.FromBoxesCorners | src/client/java/dev/containerindicator/model/OverlayQuadFactory.java:218-219 | every corner of a built quad is a corner of its box in block units |
| QuadFactory.DoubleChestSpansTwoCells | src/client/java/dev/containerindicator/model/OverlayQuadFactory.java:111-132 | the unturned double-chest frame lies within this cell and the cell to its east, at lid height |
| QuadFactory.CubeOverlaysOutsideCell | src/client/java/dev/containerindicator/model/OverlayQuadFactory.java:19-63 | every quad of the top and bottom overlays lies entirely outside the unit cell |
| QuadFactory.RotatePointY | src/client/java/dev/containerindicator/model/OverlayQuadFactory.java:161-188 | a quarter turn never changes the height |
| QuadFactory.RotatePointInverse | src/client/java/dev/containerindicator/model/OverlayQuadFactory.java:161-188 | turning by k and then by 4 - k steps returns the exact point |
| QuadFactory.RotatePointCompose | src/client/java/dev/containerindicator/model/OverlayQuadFactory.java:161-188 | turns compose by adding step counts modulo 4 |
| QuadFactory.TurnedBy | src/client/java/dev/containerindicator/model/OverlayQuadFactory.java:190-197 | vertical directions and non-positive step counts stay put; horizontal ones stay horizontal |
| QuadFactory.TurnOneMore | src/client/java/dev/containerindicator/model/OverlayQuadFactory.java:193-195 | one more step is one more clockwise quarter turn |
| QuadFactory.TurnInverse | src/client/java/dev/containerindicator/model/OverlayQuadFactory.java:190-197 | four steps are the identity; k steps are undone by 4 - k more |
| QuadFactory.RotateDirection | src/client/java/dev/containerindicator/model/OverlayQuadFactory.java:190-197 | the getClockWise loop computes the direction `steps` quarter turns on |
| QuadFactory.RotateQuadY | src/client/java/dev/containerindicator/model/OverlayQuadFactory.java:148-159 | turning a quad keeps its heights, UVs, tint, sprite, shading and light |
| QuadFactory.JavaRem | src/client/java/dev/containerindicator/model/OverlayQuadFactory.java:136 | Java's remainder lies strictly between -b and b, has the dividend's sign, and equals the floored remainder for a non-negative dividend |
| QuadFactory.StepsOfIsQuarterTurns | src/client/java/dev/containerindicator/model/OverlayQuadFactory.java:136 | the step normalisation equals (degrees mod 360) / 90, always in 0..3 |
| QuadFactory.RotatedQuads | src/client/java/dev/containerindicator/model/OverlayQuadFactory.java:134-144 | rotation keeps the list length |
| QuadFactory.RotateQuadsY | src/client/java/dev/containerindicator/model/OverlayQuadFactory.java:134-144 | the loop builds exactly the turned list, and returns the input for zero steps |
| QuadFactory.RotationIdentities | src/client/java/dev/containerindicator/model/OverlayQuadFactory.java:135-137 | 0 degrees, 360 degrees and any angle short of a quarter turn (mod 360) give back the list |
| QuadFactory.RotationKeepsAttributes | src/client/java/dev/containerindicator/model/OverlayQuadFactory.java:139-159 | rotation keeps the order and, quad by quad, heights, UVs, tint, sprite, shading and light |
| QuadFactory.RotateQuadInverse | src/client/java/dev/containerindicator/model/OverlayQuadFactory.java:148-159 | a quad turned k and then 4 - k steps is the original quad |
| QuadFactory.RotationRoundTrip | src/client/java/dev/containerindicator/model/OverlayQuadFactory.java:134-144 | turning by 90k degrees and then by 360 - 90k degrees (e.g. 90 then 270) returns the original list |
| QuadFactory.RotationKeepsFlat | src/client/java/dev/containerindicator/model/OverlayQuadFactory.java:148-159 | a turned flat quad is flat along its turned direction |
| QuadFactory.RotationKeepsFacing | src/client/java/dev/containerindicator/model/OverlayQuadFactory.java:148-159 | a turned quad stays wound to face along its turned direction |
| ModelPart.Facing | src/client/java/dev/containerindicator/model/OverlayBlockModelPart.java:28-30 | the selection for a direction holds only quads facing that way |
| ModelPart.FacingConcat | src/client/java/dev/containerindicator/model/OverlayBlockModelPart.java:28-30 | selection distributes over concatenation, so it keeps input order |
| ModelPart.FacingCounts | src/client/java/dev/containerindicator/model/OverlayBlockModelPart.java:28-30 | a quad occurs in its own direction's list as often as in the input, and in no other list |
| ModelPart.FacingPartitions | src/client/java/dev/containerindicator/model/OverlayBlockModelPart.java:24-30 | the six direction lists together are the input, quad for quad |
| ModelPart.OverlayBlockModelPart.constructor | src/client/java/dev/containerindicator/model/OverlayBlockModelPart.java:19-34 | culled: every direction has a list holding exactly its quads in order, and no unculled list; unculled: no direction lists and every quad unculled |
| ModelPart.OverlayBlockModelPart.GetQuads | src/client/java/dev/containerindicator/model/OverlayBlockModelPart.java:36-43 | culled part: each direction gets its quads and the null query nothing; unculled part: every direction gets nothing and the null query every quad |
| ModelPart.OverlayBlockModelPart.UseAmbientOcclusion | src/client/java/dev/containerindicator/model/OverlayBlockModelPart.java:45-48 | overlays never use ambient occlusion |
| ModelPart.OverlayBlockModelPart.ParticleIcon | src/client/java/dev/containerindicator/model/OverlayBlockModelPart.java:50-53 | the particle icon is the sprite given to the constructor |
| ModelPart.EveryQuadOnce | src/client/java/dev/containerindicator/model/OverlayBlockModelPart.java:24-43 | across the null query and the six direction queries every input quad is returned exactly once |
| CompositeModel.HostPartsComeFirst | src/client/java/dev/containerindicator/model/CompositeBlockStateModel.java:20-24 | however deep the wrapping, the host's parts come first and every layer's overlays follow, inner layers first |
| CompositeModel.CollectParts | src/client/java/dev/containerindicator/model/CompositeBlockStateModel.java:20-24 | the list becomes old parts ++ the original model's parts ++ the overlay parts; earlier entries stay in front unchanged |
| CompositeModel.ParticleIcon | src/client/java/dev/containerindicator/model/CompositeBlockStateModel.java:26-29 | the particle icon is the host model's, never an overlay's |
| ModelShaper.DoubleChestDegrees | src/client/java/dev/containerindicator/mixin/client/BlockModelShaperMixin.java:62-69 | the rotation is a whole number of quarter turns in [0, 360) |
| ModelShaper.OverlaysFor | src/client/java/dev/containerindicator/mixin/client/BlockModelShaperMixin.java:71-121 | a state gets at most two overlays |
| ModelShaper.OverlaysFollowClass | src/client/java/dev/containerindicator/mixin/client/BlockModelShaperMixin.java:75-99 | the choice depends on the block's class and properties only, so a mod's subclass of a container block gets the overlays of that container |
| ModelShaper.OverlayTable | src/client/java/dev/containerindicator/mixin/client/BlockModelShaperMixin.java:71-121 | each overlay kind is chosen exactly in its row of the table (both directions); a state gets overlays iff it is lit; two overlays only as [standard, bottom] |
| ModelShaper.DoubleChestTurnsTowardsPartner | src/client/java/dev/containerindicator/mixin/client/BlockModelShaperMixin.java:56-69 | the chosen rotation turns east (the frame's far end) onto facing.clockwise, the direction of the left half's partner |
| ModelShaper.LeftHalfOverlayCoversBothHalves | src/client/java/dev/containerindicator/mixin/client/BlockModelShaperMixin.java:56-69 | every corner of a left half's turned frame lies in its own cell or its partner's cell |
| ModelShaper.BuildDoubleChestPart | src/client/java/dev/containerindicator/mixin/client/BlockModelShaperMixin.java:62-69 | a double-chest part holds the double overlay turned by the given angle, unculled |
| ModelShaper.BuildParts | src/client/java/dev/containerindicator/mixin/client/BlockModelShaperMixin.java:44-69 | the eight parts hold their builder's quads, with the stated tints and cull settings |
| ModelShaper.DoubleChestPartTurned | src/client/java/dev/containerindicator/mixin/client/BlockModelShaperMixin.java:107-115 | the part picked for a facing holds the overlay turned by that facing's angle, with NORTH as fallback |
| ModelShaper.PartTints | src/client/java/dev/containerindicator/mixin/client/BlockModelShaperMixin.java:45-49 | the bottom (fuel) overlay uses tint 1 and every other overlay tint 0 |
| ModelShaper.PartCulling | src/client/java/dev/containerindicator/mixin/client/BlockModelShaperMixin.java:51-54 | standard and bottom parts answer by cull face; pot, chest and double-chest parts are always drawn |
| ModelShaper.PartFor | src/client/java/dev/containerindicator/mixin/client/BlockModelShaperMixin.java:107-115 | the part for an overlay kind is one of the prebuilt parts; a double chest with a non-horizontal facing gets the north part |
| ModelShaper.Wrap | src/client/java/dev/containerindicator/mixin/client/BlockModelShaperMixin.java:78-79 | no overlays leave the model as it was; otherwise a composite around the original with one part per overlay, over the same host model |
| ModelShaper.WrapDrawsOverlaysLast | src/client/java/dev/containerindicator/mixin/client/BlockModelShaperMixin.java:78-79 | a wrapped model draws the original's parts, then one part per overlay in order, and keeps the particle icon |
| ModelShaper.UnlitStatesKeepTheirModel | src/client/java/dev/containerindicator/mixin/client/BlockModelShaperMixin.java:71-121 | a state keeps its model iff it is not lit; a lit state's new model wraps the old one as its original |
| ModelShaper.ReplaceModels | src/client/java/dev/containerindicator/mixin/client/BlockModelShaperMixin.java:71-121 | the map keeps its keys and every entry becomes its old model wrapped with that state's overlays |
| ModelShaper.OnReplaceCache | src/client/java/dev/containerindicator/mixin/client/BlockModelShaperMixin.java:37-122 | parts are built once as specified and every cache entry is rewritten as the decision table says |

## Left out

- Loading and saving the configuration file (JSON) and the AWT colour
  getters are not modelled. The configuration is a value, and its defaults
  are `Indicator.DefaultConfig`.
- The configuration screen and the mod-menu registration are user
  interface code.
- `ContainerIndicatorClient.java` is not part of this model. It registers
  the render layers and the colour provider that maps tint 0 to the
  indicator colour, tint 1 to the fuel colour and any other tint to white.
- The block and block-entity mixins are not part of this model. Their
  effects are assumptions of the model:
  - chests, pots and simple containers carry has_items;
  - furnaces carry has_input and has_fuel (`Types.WellFormed`);
  - inventory changes call the matching update.
- `ContainerStateHelper.refreshChunk` is not among the modelled source
  files. The per-chunk refresh is an abstract action that records the chunk
  (`Indicator.RefreshScheduler.RefreshChunk`).
- Enumerating levels and chunks (`getAllLevels`, `forEachReadyToSendChunk`)
  is host code. The loaded chunks and the block entities to refresh are
  input sequences.
- A block entity's cached block state is taken to be the level's state at
  its position.
- Item stacks are reduced to "slot is non-empty" booleans.
- Geometry uses exact reals. Java `float` rounding, UV packing, sprite
  atlas lookups, the random source and the baked quad's memory layout are
  not modelled. UVs are sprite fractions 0 or 1.
- QuadFactory.RotateQuadsY: returning the very same list object for zero
  steps is modelled as returning an equal sequence; object identity is not
  modelled.
- Blocks are compared by identity where the source uses `==` and by class
  family where it uses `instanceof`. A block from another mod is
  `Types.OtherBlock`, whose family field says which container block class
  it extends; the model does not describe a class hierarchy beyond that.
- ModelShaper.OverlaysFor requires a well-formed state, which is stronger
  than the source. The source reads the chest type and facing only when
  needed, and would throw on a state missing a property it reads.
- StateHelper.UpdateChestHasItems requires the chest state at the position
  to carry the chest properties when it carries has_items. The source would
  throw otherwise.
- Host models other than the composite are opaque. Each is a fixed list of
  parts with a particle icon (`CompositeModel.Baked`).
- Direction.getClockWise on a vertical direction throws in the host. The
  model only turns horizontal directions: chest facings are horizontal by
  `Types.WellFormed`.
