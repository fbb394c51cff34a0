# Wargaming domain layer in Dafny

This project models the in-memory domain layer of a browser wargaming tool, in which an
order of battle (ORBAT) is edited, symbols are designed and a scene is played back. The
modelled parts are:

- **The ORBAT service.** It keeps a Map of units keyed by uuid and a `rootUnits` list. Each
  unit holds a `parentId` and an ordered `children` id list. Its operations are add, update,
  recursive remove, move to another parent, tree projection, statistics and clear.
- **The unit record.** This covers the constructor's defaults, the derived `fillRate` and
  `supply.overall`, the merge-style `update`, and `toJSON`/`fromJSON`.
- **The movement-path engine's bookkeeping.** This covers the waypoint list, the read-only
  flag, and the play/stop state (`isPlaying`, `animationId`, a pending animation frame).
- **The synchronous event bus.** It has persistent and once-only listener sets.
- **Symbol identification codes (SIDC).**
  - The 20-digit code service: parse, validate, build, modify, colour and info.
  - The 15-letter code editor with its option tables.
  - The letter code builder of the symbol editor panel.
- **The organisation-tree helpers of the symbol editor panel.** These are count, find, remove
  and add over nested `{id, children}` trees.
- **The small state containers:**
  - the scene, with a unit dictionary and a graphics list;
  - the scene service, with its "no scene loaded" errors;
  - the tactical graphic, whose geometry depends on its type;
  - the in-memory key-value store;
  - the unit engine's selection and level-of-detail (LOD) band bookkeeping.

Objects whose fields the source changes in place are Dafny classes. Each class method states
its whole new state through a pure function on a datatype, such as `Updated`, `AddFn`,
`MoveFn` or `Subscribed`. The properties the source promises are proved about those functions
as lemmas.

Clocks, random ids and the animation-frame scheduler are parameters:
- `freshId`, `freshUuid` and `newId` stand for generated ids;
- `elapsed` and `frame` stand for the frame clock and the id `requestAnimationFrame` returns;
- `entityExists` says whether the unit engine knows the path's unit.

Emitted events are kept in an append-only log (`events`, `emitted`) where the model states
them.

JavaScript's defaulting rules are written out:
- `v || d` falls back on a missing value and also on `0`, `""` and `false`;
- `v !== undefined ? v : d` keeps `0`.

`Object.assign` patches become records of optional fields, one field per key the callers
pass. `backend/data/Enums.js` is not part of this model, so the enumeration values come from
shared/Enums.js.

## Model

| member | source | states |
|---|---|---|
| UnitData.OrNull | backend/data/Unit.js:16-17 | `v \|\| null` never yields an empty string: a present result is non-empty |
| UnitData.FloorDiv | backend/data/Unit.js:92 | the quotient is the mathematical floor for either sign of the divisor (used for Math.round) |
| UnitData.FillRate | backend/data/Unit.js:90-93 | 0 when authorizedStrength is 0; otherwise r is the integer nearest the exact quotient 100·strength/authorized, with halves rounded up as Math.round rounds them, stated as a two-sided bound for both signs |
| UnitData.Min3 | backend/data/Unit.js:98-101 | the result is one of the three levels and no larger than any of them |
| UnitData.NewRecord | backend/data/Unit.js:12-78 | a built record keeps the derived fields derived; a supplied non-empty uuid is kept and otherwise the fresh id is used; strength and authorizedStrength are never 0 (falling back to 100 and 120); supplied supply levels are kept, 0 included; a missing children list is [] |
| UnitData.SupplyValue | backend/data/Unit.js:115-117 | a supply value is reported exactly when some update key sets that supply kind |
| UnitData.LastValue | backend/data/Unit.js:107 | the value the last key that sets a field gives it; none exactly when no key sets that field |
| UnitData.AssignKey | backend/data/Unit.js:107 | one key overwrites its own field and leaves every other field, and the derived fields, as they were |
| UnitData.AssignAll | backend/data/Unit.js:107 | copying the keys in order leaves uuid, parentId, children, fillRate, supply, combat, movement and transform alone; each of the ten plain fields holds the value of the last key that sets it, or its old value when no key does |
| UnitData.Updated | backend/data/Unit.js:106-120 | each of the ten plain fields holds the value of the last key that sets it, or its old value; identity and hierarchy are untouched; fillRate is recomputed exactly when a strength key is supplied; supplied supply levels overwrite (0 included) and the others stay; overall is the minimum again; a record with derived fields keeps them derived |
| UnitData.Rated | backend/data/Unit.js:111-113 | only fillRate can change: it becomes the rate of the current strengths when a strength key is supplied, and the record is unchanged otherwise |
| UnitData.Resupplied | backend/data/Unit.js:114-119 | only supply can change: with a supply key, each supplied level overwrites (0 included), the others stay and overall is their minimum; without one, the record is unchanged |
| UnitData.UpdatedLastKeyWins | backend/data/Unit.js:107 | when the same key is supplied twice, the later value is what the record holds |
| UnitData.JsonAsInput | backend/data/Unit.js:125-149 | toJSON's object read as constructor input supplies uuid, children and both strengths, while the nested supply levels and position arrive as missing keys |
| UnitData.FromJson | backend/data/Unit.js:154-156 | the result keeps its derived fields derived, a non-empty uuid and the children list, and always has supply 100/100/100/100 and the position at the origin |
| UnitData.FromJsonRoundTrip | backend/data/Unit.js:125-156 | fromJSON(toJSON(u)) keeps uuid, name, parentId, children, level, branch and non-zero strengths, but resets supply to 100 and the position to the origin |
| UnitData.FromJsonLosesSupply | backend/data/Unit.js:34-39 | a unit whose fuel is not 100 does not get its supply back from the JSON round trip |
| UnitData.Unit.constructor | backend/data/Unit.js:12-78 | the object's fields are the record NewRecord builds |
| UnitData.Unit.CalculateFillRate | backend/data/Unit.js:90-93 | the rate of the object's current strengths |
| UnitData.Unit.CalculateSupplyOverall | backend/data/Unit.js:98-101 | only supply.overall changes, and it becomes the minimum of the three levels |
| UnitData.Unit.Update | backend/data/Unit.js:106-120 | the object afterwards is Updated of the object before |
| UnitData.Unit.MergeSupply | backend/data/Unit.js:114-119 | the supply merge followed by the overall recomputation, when a supply key is present |
| UnitData.Unit.AssignOne | backend/data/Unit.js:107 | the object after copying one key is AssignKey of the object before |
| UnitData.Unit.AssignNaming | backend/data/Unit.js:107 | copying a name, callsign or commander key onto the object is AssignKey of the object before |
| UnitData.Unit.AssignSymbol | backend/data/Unit.js:107 | copying a sidc, symbolSize or symbolColor key onto the object is AssignKey of the object before |
| UnitData.Unit.AssignForce | backend/data/Unit.js:107 | copying a level, branch, strength or supply key onto the object is AssignKey of the object before; a supply key leaves the nested supply alone |
| UnitData.Unit.ToJson | backend/data/Unit.js:125-149 | toJSON carries every field of the object, with the supply levels nested under supply and the position under transform |
| Orbat.AddedEvents | backend/services/ORBATService.js:41 | one unit-added event per added unit, in order |
| Orbat.NewRecordsAt | backend/services/ORBATService.js:181-187 | the i-th unit addUnits builds is the record built from the i-th input |
| Orbat.AddAllSnoc | backend/services/ORBATService.js:183-186 | adding a list and then one more unit is adding the longer list |
| Orbat.OrbatService.constructor | backend/services/ORBATService.js:13-17 | an empty Map, an empty root list and no events; Valid holds (the keys, the key order and the uuids agree) |
| Orbat.OrbatService.AddUnit | backend/services/ORBATService.js:22-44 | returns the record the Unit constructor builds; the new state is AddFn of the old, for a new or a repeated uuid; one unit-added event; Valid is kept |
| Orbat.OrbatService.UpdateUnit | backend/services/ORBATService.js:49-61 | an unknown uuid gives UnitNotFound and changes nothing; otherwise the unit becomes Updated and one update event is logged; Valid is kept |
| Orbat.OrbatService.RemoveUnit | backend/services/ORBATService.js:66-77 | needs a ranking only of the units reachable from the id, so a cycle elsewhere is allowed; an unknown uuid gives UnitNotFound and changes nothing; otherwise the state becomes RemoveRec (characterised by RemoveDeletesSubtree), one removal event is logged and Valid is kept |
| Orbat.OrbatService.RemoveRecursive | backend/services/ORBATService.js:82-103 | with a ranking of the units reachable from the id only, the state becomes RemoveRec of the old state, with no event |
| Orbat.OrbatService.RemoveEach | backend/services/ORBATService.js:87-89 | the children loop removes each child's subtree in turn, as RemoveChildren says; only the children's subtrees need a ranking |
| Orbat.OrbatService.Detach | backend/services/ORBATService.js:92-99 | the id leaves its parent's children, or rootUnits when it has no truthy parent |
| Orbat.OrbatService.Hook | backend/services/ORBATService.js:29-38 | the id is appended under a present target once, or to rootUnits once when there is no target |
| Orbat.OrbatService.GetUnit | backend/services/ORBATService.js:108-110 | Some exactly for stored uuids, with the stored record |
| Orbat.OrbatService.GetAllUnits | backend/services/ORBATService.js:115-117 | in a Valid state, one record per key, in the Map's insertion order |
| Orbat.OrbatService.GetTree | backend/services/ORBATService.js:122-137 | needs a ranking only of the units reachable from the present root ids; the top-level nodes are the root ids present in the Map, in rootUnits order, with missing ids skipped, and node i is the tree BuildNode builds for the i-th of them |
| Orbat.OrbatService.MoveUnit | backend/services/ORBATService.js:142-176 | an unknown uuid gives UnitNotFound and changes nothing; otherwise the state becomes MoveFn and a move event records the old and new parent; Valid is kept |
| Orbat.OrbatService.AddUnits | backend/services/ORBATService.js:181-188 | returns the records built from the inputs in order; the state is each of them added in turn; one event per unit; Valid is kept |
| Orbat.OrbatService.Clear | backend/services/ORBATService.js:193-198 | an empty Map and root list, plus the cleared event; Valid holds |
| Orbat.OrbatService.GetStats | backend/services/ORBATService.js:203-210 | in a Valid state, total is the number of units; byLevel and byBranch are the tallies of the units' levels and branches |
| Orbat.CountBy | backend/services/ORBATService.js:215-232 | the counting loop computes the tally of its keys |
| OrbatForest.Attach | backend/services/ORBATService.js:29-38 | linking keeps the Map's keys and order |
| OrbatForest.AddFn | backend/services/ORBATService.js:22-38 | the Map gains the uuid, appended to the key order only when it is new; the record is stored as given apart from a possible self-link, and every other unit changes at most its children list |
| OrbatForest.AddAllFn | backend/services/ORBATService.js:181-188 | the Map's keys after addUnits are the old keys plus the inputs' uuids |
| OrbatForest.UpdateFn | backend/services/ORBATService.js:49-61 | only the updated unit changes, to Updated of its old record; its parentId and children, the root list and the key order stay |
| OrbatForest.Unlink | backend/services/ORBATService.js:92-99 | unlinking keeps the Map's keys and order |
| OrbatForest.MoveFn | backend/services/ORBATService.js:148-172 | a move keeps the Map's keys and order |
| OrbatForest.Reparent | backend/services/ORBATService.js:161 | only the moved unit's parentId changes, to the target |
| OrbatForest.RemoveRec | backend/services/ORBATService.js:82-103 | needs a ranking only of the units reachable from the id; removal only deletes keys and keeps that ranking |
| OrbatForest.RemoveChildren | backend/services/ORBATService.js:87-89 | the children loop needs a ranking only of the children's subtrees, below the parent's rank; it only deletes keys and keeps that ranking |
| OrbatForest.ValuesOf | backend/services/ORBATService.js:116 | the values follow the key list one to one |
| OrbatForest.PresentIds | backend/services/ORBATService.js:132-136 | an id is kept exactly when it is listed and present |
| OrbatForest.BuildNode | backend/services/ORBATService.js:123-134 | needs a ranking only of the units reachable from the id; null exactly for a missing id; otherwise the node carries the unit's uuid, name, sidc and level |
| OrbatForest.BuildChildren | backend/services/ORBATService.js:132 | one node per present child id; with every unit stored under its uuid, the nodes' uuids are the present child ids in order |
| OrbatForest.BuildRoots | backend/services/ORBATService.js:136 | one node per present root id; with every unit stored under its uuid, the nodes' uuids are the present root ids in order |
| OrbatForest.ChildrenBuiltAsRoots | backend/services/ORBATService.js:132-136 | a children list is mapped and filtered exactly as the root list is |
| OrbatForest.BuildChildrenAt | backend/services/ORBATService.js:132 | node i of the built children is the tree BuildNode builds for the i-th present child id |
| OrbatForest.BuildRootsAt | backend/services/ORBATService.js:136 | node i of the top level is the tree BuildNode builds for the i-th present root id |
| OrbatProperties.RemoveDeletesSubtree | backend/services/ORBATService.js:82-103 | with a ranking of the units reachable from the id only, removeUnit deletes exactly the least children-closed set containing the id; survivors keep their records except that their children lists lose the deleted ids |
| OrbatProperties.SubtreeLeast | backend/services/ORBATService.js:87-89 | the subtree is closed under children and lies inside every closed set that contains the id |
| OrbatProperties.RemovePreservesWellformed | backend/services/ORBATService.js:82-103 | removal keeps the forest well formed: indexed, exact roots, parents list their children, children point back |
| OrbatProperties.RemoveDetaches | backend/services/ORBATService.js:91-99 | afterwards no deleted id is in rootUnits or in any survivor's children, the former parent's included |
| OrbatProperties.RemovalBesideCycle | backend/services/ORBATService.js:82-103 | a cycle that cannot be reached from the removed id does not stop the removal: beside a root A, two units B and C listed as each other's child, removeUnit(A) deletes only A and getTree lists only A |
| OrbatProperties.RemoveIndexed | backend/services/ORBATService.js:82-103 | removal keeps the keys, the key order and the uuids in agreement |
| OrbatProperties.AddUnderParent | backend/services/ORBATService.js:29-33 | with a resolving parent, that parent's children gain the id at the end at most once; rootUnits and the other units are untouched |
| OrbatProperties.AddAsRoot | backend/services/ORBATService.js:34-38 | without a truthy parentId, rootUnits gains the id at the end unless it is already there |
| OrbatProperties.AddOrphan | backend/services/ORBATService.js:26-33 | with a truthy parentId that does not resolve, the unit is stored but is listed neither in rootUnits nor in any children list |
| OrbatProperties.AddSelfParentCycles | backend/services/ORBATService.js:26-33 | a unit naming itself as parent becomes its own child, a cycle |
| OrbatProperties.AddPreservesWellformed | backend/services/ORBATService.js:22-38 | adding a fresh childless unit with an absent or resolving parent keeps the forest well formed |
| OrbatProperties.AddPreservesAcyclic | backend/services/ORBATService.js:22-38 | adding a fresh unit whose children are absent keeps the links acyclic |
| OrbatProperties.AttachKeepsIndexed | backend/services/ORBATService.js:29-38 | linking keeps the keys, the key order and the uuids in agreement |
| OrbatProperties.AddIndexed | backend/services/ORBATService.js:22-38 | addUnit keeps the keys, the key order and the uuids in agreement, for a new uuid and for one already stored |
| OrbatProperties.AddAllIndexed | backend/services/ORBATService.js:181-188 | addUnits keeps the keys, the key order and the uuids in agreement |
| OrbatProperties.WellformedListsOnce | backend/services/ORBATService.js:29-38 | in a well-formed forest a unit is listed only where its parentId says: under a resolving parent, or among the roots |
| OrbatProperties.AttachUnlisted | backend/services/ORBATService.js:29-38 | linking an unlisted id appends it once under the target, or to rootUnits without one, and changes no other list |
| OrbatProperties.UpdatePreserves | backend/services/ORBATService.js:49-61 | updateUnit keeps every link, so well-formedness and acyclicity are preserved |
| OrbatProperties.UpdateIndexed | backend/services/ORBATService.js:49-61 | updateUnit keeps the keys, the key order and the uuids in agreement |
| OrbatProperties.MoveClosedForm | backend/services/ORBATService.js:148-172 | the id leaves every list it was in and goes to the end of the target's children, or of rootUnits with no target; its parentId becomes the target; nothing else changes |
| OrbatProperties.MovePreservesWellformed | backend/services/ORBATService.js:148-172 | a move to none or to a present unit keeps the forest well formed |
| OrbatProperties.MoveIndexed | backend/services/ORBATService.js:142-176 | moveUnit keeps the keys, the key order and the uuids in agreement |
| OrbatProperties.MoveKeepsFieldsAt | backend/services/ORBATService.js:148-172 | a move changes only one parentId and the children lists |
| OrbatProperties.MoveToMissingParentOrphans | backend/services/ORBATService.js:161-167 | moving to a truthy id not in the Map sets parentId to it, but the unit ends up in no list |
| OrbatProperties.MoveLinks | backend/services/ORBATService.js:150-171 | a move keeps every other child link and adds only the link from the target to the id |
| OrbatProperties.MoveIntoSubtreeCycles | backend/services/ORBATService.js:142-176 | there is no cycle check: a move under the unit itself or one of its descendants leaves the links cyclic |
| OrbatProperties.MoveOutsideSubtreeAcyclic | backend/services/ORBATService.js:142-176 | a move to none, to a missing id, or outside the subtree keeps the links acyclic |
| OrbatProperties.MoveAcyclicIff | backend/services/ORBATService.js:142-176 | a move keeps the links acyclic if and only if the target is not in the moved subtree |
| OrbatProperties.TreeFollowsRoots | backend/services/ORBATService.js:136 | on a well-formed forest whose root subtrees are ranked, getTree has one node per root, in rootUnits order |
| OrbatProperties.TreeFollowsChildren | backend/services/ORBATService.js:132 | each node's children follow the unit's children list exactly, given a ranking of the unit's subtree |
| OrbatProperties.TallyCounts | backend/services/ORBATService.js:215-221 | each level is counted as often as it occurs, and only occurring levels appear |
| OrbatProperties.TallySum | backend/services/ORBATService.js:203-221 | the byLevel (or byBranch) counts add up to the number of units counted |
| OrbatProperties.StatsTotal | backend/services/ORBATService.js:204-206 | getAllUnits has exactly as many entries as the Map has keys |
| OrbatRemoval.RemoveRecExact | backend/services/ORBATService.js:82-103 | with a ranking of the units reachable from the id only, removal deletes exactly the least closed set containing the id, with the links RemovedExactly describes; an absent id changes nothing |
| OrbatRemoval.RemoveChildrenExact | backend/services/ORBATService.js:87-89 | the children loop from position i deletes exactly the least closed set containing the remaining children |
| OrbatRemoval.UnlinkEffect | backend/services/ORBATService.js:92-99 | a truthy, present parent loses every occurrence of the id; with no truthy parent the root list loses it instead |
| OrbatRemoval.UnlinkDeleteRemovesOne | backend/services/ORBATService.js:91-102 | the last steps of the recursive removal delete exactly the unit itself |
| MovePath.FromInputs | frontend/engine/MovePathEngine.js:77-81 | one waypoint per input, in order, with the input's position and handles |
| MovePath.Positions | frontend/engine/MovePathEngine.js:349-355 | the coordinates of the waypoints, in order and of the same length |
| MovePath.RemoveAt | frontend/engine/MovePathEngine.js:130 | `splice(index, 1)` removes exactly that element and shifts the later ones down |
| MovePath.KeepOrigin | frontend/engine/MovePathEngine.js:147-148 | clearing leaves `[waypoints[0]]` when the list is non-empty and `[]` otherwise |
| MovePath.KeepOriginIdempotent | frontend/engine/MovePathEngine.js:146-154 | clearing twice is the same as clearing once |
| MovePath.SetPathThenGetPath | frontend/engine/MovePathEngine.js:75-81 | after setPath(u, p), getPath returns the coordinates of p in order |
| MovePath.SnapBack | frontend/engine/MovePathEngine.js:314-318 | the snap-back update event happens exactly when there is a unit, a waypoint and a known entity, and it moves the unit to waypoint 0 |
| MovePath.MovePathEngine.constructor | frontend/engine/MovePathEngine.js:11-58 | an empty path, no unit, not playing, no frame, editable, listening |
| MovePath.MovePathEngine.SetPath | frontend/engine/MovePathEngine.js:75-84 | binds the unit and replaces the waypoints with the given points in order; the play and read-only state stay as they were |
| MovePath.MovePathEngine.SetDisplayMode | frontend/engine/MovePathEngine.js:89-93 | only the read-only flag changes |
| MovePath.MovePathEngine.AddWaypoint | frontend/engine/MovePathEngine.js:98-118 | appends at the end whatever the read-only flag, returns the new last index, and logs the added event |
| MovePath.MovePathEngine.RemoveWaypoint | frontend/engine/MovePathEngine.js:123-141 | an index out of range, or index 0, changes nothing; otherwise exactly that waypoint is removed and one event is logged |
| MovePath.MovePathEngine.ClearPath | frontend/engine/MovePathEngine.js:146-154 | only the origin survives, and the cleared event is logged |
| MovePath.MovePathEngine.Play | frontend/engine/MovePathEngine.js:250-304 | fewer than two waypoints changes nothing; when already playing, stop runs first and logs its snap-back and stopped events; a missing entity leaves isPlaying set with no frame requested; a null unit fails after isPlaying is set; otherwise playback runs, the completion event is logged when the first frame already reached the duration, the playback-start event follows, and the next frame is requested only before the duration; the path itself never changes |
| MovePath.MovePathEngine.Animate | frontend/engine/MovePathEngine.js:274-294 | not playing changes nothing; before the duration a new frame is requested; at or after it, playback ends without a snap-back and the completion event is logged |
| MovePath.MovePathEngine.Tick | frontend/engine/MovePathEngine.js:286-293 | the host runs the pending frame: the same two outcomes as one animate step |
| MovePath.MovePathEngine.Stop | frontend/engine/MovePathEngine.js:306-324 | always leaves isPlaying false, animationId null and no pending frame; the snap-back event, then the stopped event |
| MovePath.MovePathEngine.MoveUnitToPosition | frontend/engine/MovePathEngine.js:360-382 | with a unit and a known entity, one unit-updated event at the position; otherwise nothing |
| MovePath.MovePathEngine.PathInfoCount | frontend/engine/MovePathEngine.js:328-337 | null exactly with fewer than two waypoints; otherwise the count is the list length |
| MovePath.MovePathEngine.GetPath | frontend/engine/MovePathEngine.js:349-355 | one coordinate per waypoint |
| MovePath.MovePathEngine.Dispose | frontend/engine/MovePathEngine.js:409-416 | stops, unsubscribes the listener, and leaves no unit and an empty path |
| Events.Get | frontend/core/EventBus.js:31-42 | an event without an entry has no callbacks |
| Events.Subscribed | frontend/core/EventBus.js:17-25 | the callback is among the event's listeners afterwards; nothing else is added and other events are untouched |
| Events.Unsubscribed | frontend/core/EventBus.js:30-35 | the callback is no longer among the event's listeners; no entry is created or dropped; other events are untouched |
| Events.Throwers | frontend/core/EventBus.js:45-61 | exactly the invoked callbacks that throw are reported as failures |
| Events.ThrowersAppend | frontend/core/EventBus.js:45-61 | the failures of a run over two lists are those of the first followed by those of the second, so they are reported in the order the callbacks ran |
| Events.SubscribedKeepsSets | frontend/core/EventBus.js:18-21 | adding keeps every entry a set |
| Events.UnsubscribedKeepsSets | frontend/core/EventBus.js:30-35 | deleting keeps every entry a set |
| Events.SubscribeTwice | frontend/core/EventBus.js:17-25 | registering the same callback twice is registering it once, and the count grows by one only for a new callback |
| Events.UnsubscribeAbsent | frontend/core/EventBus.js:30-35 | off for a callback that is not registered changes nothing |
| Events.UnsubscribeUndoesSubscribe | frontend/core/EventBus.js:17-25 | calling the function on returns undoes a fresh registration exactly |
| Events.EventBus.constructor | frontend/core/EventBus.js:8-11 | both maps start empty |
| Events.EventBus.On | frontend/core/EventBus.js:17-25 | the persistent map gains the callback; the once map is untouched; the returned handle names the event and callback |
| Events.EventBus.Off | frontend/core/EventBus.js:30-35 | the persistent map loses the callback for that event |
| Events.EventBus.Unsubscribe | frontend/core/EventBus.js:24 | calling the returned function has the effect of off |
| Events.EventBus.Once | frontend/core/EventBus.js:71-76 | the once map gains the callback; the persistent map is untouched |
| Events.EventBus.Emit | frontend/core/EventBus.js:40-66 | every persistent listener and then every once-listener runs, even after one throws; the failures are exactly the throwing callbacks; persistent listeners remain; the event's once entry is gone |
| Events.EventBus.Clear | frontend/core/EventBus.js:81-84 | both maps become empty |
| Events.EventBus.ClearEvent | frontend/core/EventBus.js:89-92 | only that event's entries are removed, from both maps |
| Events.EventBus.ListenerCount | frontend/core/EventBus.js:97-101 | the number of persistent plus once-listeners for the event |
| SymbolCodes.ParseSidc | backend/services/SymbolService.js:21-36 | fails exactly when the length is not 20; otherwise the eight slots are the characters 0, 1, 2, 3-4, 5-9, 10-13, 14-16 and 17-19 |
| SymbolCodes.ParseJoinRoundTrip | backend/services/SymbolService.js:26-35 | joining the parsed slots in order gives back the code |
| SymbolCodes.IdentityColor | backend/services/SymbolService.js:41-54 | the four identities map to cyan, red, green and yellow; anything else maps to white |
| SymbolCodes.IdentityColorsDistinct | backend/services/SymbolService.js:41-54 | the four identities get four different colours, none of them white |
| SymbolCodes.SidcColor | backend/services/SymbolService.js:59-62 | fails exactly for a length other than 20; otherwise gives the colour of position 1 |
| SymbolCodes.ValidateSidc | backend/services/SymbolService.js:67-72 | true if and only if the length is 20 and every character is in [0-9A-Z] |
| SymbolCodes.CreateDefaultSidc | backend/services/SymbolService.js:77-85 | the length is 12 plus the option lengths, and the code starts with '3' |
| SymbolCodes.DefaultSidcParses | backend/services/SymbolService.js:77-85 | with one-, two- and five-character options the code has 20 characters and parses back to those options |
| SymbolCodes.DefaultSidcValid | backend/services/SymbolService.js:77-85 | the default code passes validateSIDC |
| SymbolCodes.CodeCharsOfDefault | backend/services/SymbolService.js:84 | a default code is valid exactly when its three option strings are |
| SymbolCodes.SliceFrom | backend/services/SymbolService.js:96-102 | JavaScript's `slice(a)`, including a start past the end |
| SymbolCodes.SliceTo | backend/services/SymbolService.js:99-102 | JavaScript's `slice(0, b)`, including an end past the end |
| SymbolCodes.ModifySidc | backend/services/SymbolService.js:90-106 | fails exactly for a length other than 20, because it parses first |
| SymbolCodes.ModifyDomainOnly | backend/services/SymbolService.js:98-100 | a two-character domain replaces positions 3-4 only; the length and the other positions stay |
| SymbolCodes.ModifyEntityTypeOnly | backend/services/SymbolService.js:101-103 | a five-character entity type replaces positions 5-9 only; the length and the other positions stay |
| SymbolCodes.ModifyIdentityHitsVersion | backend/services/SymbolService.js:95-97 | as written, a new identity lands in the version slot, position 0, and the identity slot keeps its value |
| SymbolCodes.ModifyIdentityCounterexample | backend/services/SymbolService.js:95-97 | the friendly default code patched to hostile still parses as friendly |
| SymbolCodes.ModifySidcCorrected | backend/services/SymbolService.js:90-106 | fails exactly for a length other than 20 |
| SymbolCodes.ModifyCorrectedReadsBack | backend/services/SymbolService.js:90-106 | with the identity written at position 1, every supplied slot parses back as given and the others are unchanged |
| SymbolCodes.IdentityLabel | backend/services/SymbolService.js:120-133 | a label exists exactly for the four identities |
| SymbolCodes.DomainLabel | backend/services/SymbolService.js:136-148 | '其他' exactly for domains other than '10', '30' and '50' |
| SymbolCodes.GetSidcInfo | backend/services/SymbolService.js:111-151 | fails exactly for a length other than 20; otherwise it carries the code, its colour, the parse and the two labels |
| SymbolEditing.IdentityTable | frontend/engine/SymbolEditor.js:29-37 | one-letter codes, with distinct values and distinct codes |
| SymbolEditing.LevelTable | frontend/engine/SymbolEditor.js:39-55 | one-letter echelon codes, with distinct values and distinct codes |
| SymbolEditing.BranchTable | frontend/engine/SymbolEditor.js:68-97 | every branch code and value has seven characters |
| SymbolEditing.FirstByValue | frontend/engine/SymbolEditor.js:159-161 | `find` by value: the first matching row, or none when no row matches |
| SymbolEditing.FirstByCode | frontend/engine/SymbolEditor.js:236-252 | `find` by code: the first matching row, or none when no row matches |
| SymbolEditing.ParseAffiliation | frontend/engine/SymbolEditor.js:235-238 | a table letter gives that row's identity; any other letter gives '0', FRIEND |
| SymbolEditing.ParseDimension | frontend/engine/SymbolEditor.js:243-246 | a table letter gives that row's dimension; any other letter gives 'ground' |
| SymbolEditing.ParseEchelon | frontend/engine/SymbolEditor.js:251-254 | a table letter gives that row's level; any other code gives 'battalion' |
| SymbolEditing.LevelCode | frontend/engine/SymbolEditor.js:181-184 | one letter: a known level's own letter, and 'D' for an unknown level |
| SymbolEditing.CodeOf | frontend/engine/SymbolEditor.js:159-183 | a known value's code comes from its row; an unknown value gets the fallback row's code |
| SymbolEditing.ValueOf | frontend/engine/SymbolEditor.js:235-254 | a known code's value comes from its row; an unknown code gets the fallback value |
| SymbolEditing.Generate | frontend/engine/SymbolEditor.js:150-174 | the length is 12 plus the lengths of status and echelon |
| SymbolEditing.GeneratedLayout | frontend/engine/SymbolEditor.js:164-171 | 'S', the identity letter, the dimension letter, the status, the seven-letter branch code, "--" and the echelon, at those positions |
| SymbolEditing.WithProperty | frontend/engine/SymbolEditor.js:179-187 | the key reads back as the value and every other key is kept, except that 'level' also sets the echelon to the level's letter |
| SymbolEditing.ParsedInto | frontend/engine/SymbolEditor.js:220-227 | affiliation from position 1, dimension from 2, status from 3, branch type from 4-9, echelon from 13, and the level parsed from the echelon |
| SymbolEditing.EchelonRoundTrip | frontend/engine/SymbolEditor.js:251-254 | parsing the letter of any table level gives the level back |
| SymbolEditing.UnknownLevelFallbacks | frontend/engine/SymbolEditor.js:179-187 | an unknown level gets letter 'D', and an unknown letter reads as battalion |
| SymbolEditing.GeneratedIsFourteen | frontend/engine/SymbolEditor.js:164-171 | with a one-letter status and echelon the editor's own code has 14 characters |
| SymbolEditing.ParsedBranchFallsBack | frontend/engine/SymbolEditor.js:161-223 | the six-letter branch type setSIDC reads is in no table row, so the regenerated code shows the infantry default |
| SymbolEditing.GeneratedAffiliation | frontend/engine/SymbolEditor.js:159-166 | position 1 of the generated code is the affiliation's letter |
| SymbolEditing.AffiliationLetterRoundTrip | frontend/engine/SymbolEditor.js:235-238 | a letter from the table parses to the value whose letter it is |
| SymbolEditing.UnknownAffiliationLetter | frontend/engine/SymbolEditor.js:237 | any other letter reads as FRIEND, whose letter is 'F' |
| SymbolEditing.AffiliationRoundTrip | frontend/engine/SymbolEditor.js:210-230 | a table affiliation letter survives setSIDC followed by generateSIDC |
| SymbolEditing.UnknownAffiliationIsFriend | frontend/engine/SymbolEditor.js:210-237 | setSIDC with a letter outside the table, followed by generateSIDC, gives 'F' |
| SymbolEditing.SymbolEditor.constructor | frontend/engine/SymbolEditor.js:127-142 | friendly ground, present status, infantry, battalion, echelon 'D' |
| SymbolEditing.SymbolEditor.UpdateProperty | frontend/engine/SymbolEditor.js:179-198 | the symbol becomes WithProperty; returns the generated code and logs the changed event carrying it |
| SymbolEditing.SymbolEditor.GetCurrentSidc | frontend/engine/SymbolEditor.js:203-205 | the generated code of the current symbol |
| SymbolEditing.SymbolEditor.SetSidc | frontend/engine/SymbolEditor.js:210-230 | a length other than 15 changes nothing; otherwise the symbol is the parse and is returned |
| SymbolEditing.SymbolEditor.GetCurrentSettings | frontend/engine/SymbolEditor.js:259-261 | the current fields plus the generated code |
| SymbolEditing.DefaultCodeRejected | frontend/engine/SymbolEditor.js:164-211 | the code generated from the defaults has 14 characters, so setSIDC refuses it |
| OrgEditor.Flatten | ui/managers/SymbolEditorUI.js:1309-1318 | pre-order contains every root |
| OrgEditor.FlattenAppend | ui/managers/SymbolEditorUI.js:1310-1316 | the pre-order of two forests side by side is the concatenation of their pre-orders |
| OrgEditor.Count | ui/managers/SymbolEditorUI.js:910-919 | at least the number of roots, and 0 only for an empty forest |
| OrgEditor.CountAllUnits | ui/managers/SymbolEditorUI.js:910-919 | the accumulator loop returns the number of nodes, roots and descendants |
| OrgEditor.FirstWithId | ui/managers/SymbolEditorUI.js:1311 | none exactly when no node has the id; otherwise a node with the id |
| OrgEditor.FindUnit | ui/managers/SymbolEditorUI.js:1309-1318 | a found node has the id |
| OrgEditor.FindIsFirstInPreorder | ui/managers/SymbolEditorUI.js:1309-1318 | _findUnit returns the first node with the id in pre-order, or null when there is none |
| OrgEditor.FindFindsIff | ui/managers/SymbolEditorUI.js:1309-1318 | _findUnit finds something if and only if some node has the id |
| OrgEditor.IndexOfId | ui/managers/SymbolEditorUI.js:1291 | `findIndex`: the first index with the id, or -1 |
| OrgEditor.RemoveUnitSpec | ui/managers/SymbolEditorUI.js:1290-1304 | a node is removed exactly when some node has the id; the removed node has that id and the tree's count drops by one plus the size of its subtree; a match on the current level is the first one, spliced out by index; without one, the first child list that holds the id is the one edited; otherwise the tree is unchanged |
| OrgEditor.RemoveUnit | ui/managers/SymbolEditorUI.js:1290-1304 | a failed removal changes nothing; a match on the current level shortens that level by one, and otherwise the level keeps its length |
| OrgEditor.RemoveBelow | ui/managers/SymbolEditorUI.js:1297-1303 | the descent keeps the level's length and changes nothing when it fails |
| OrgEditor.RemoveBelowFirst | ui/managers/SymbolEditorUI.js:1297-1301 | the descent edits the first node whose subtree holds the id, and only that node's child list |
| OrgEditor.RemoveUnitSplices | ui/managers/SymbolEditorUI.js:1290-1304 | leaving children lists aside, the old pre-order is the new one with the removed subtree's pre-order put back at one place, so no other node changes |
| OrgEditor.RemoveChecksLevelFirst | ui/managers/SymbolEditorUI.js:1291-1301 | the current level is searched before descending, so a root match is removed even when _findUnit would find an earlier node inside another root |
| OrgEditor.NewOrgUnit | ui/managers/SymbolEditorUI.js:809-817 | the new unit has the given id and sidc, no children, and the designation or name or '新建單位' as its name |
| OrgEditor.AppendUnderFound | ui/managers/SymbolEditorUI.js:821-824 | after the push, the parent _findUnit finds has the new unit as its last child |
| OrgEditor.AppendUnderCount | ui/managers/SymbolEditorUI.js:821-824 | the push adds exactly the new unit's nodes |
| OrgEditor.AppendUnderSplices | ui/managers/SymbolEditorUI.js:821-824 | leaving children lists aside, the new pre-order is the old one with the new unit's pre-order inserted right after the subtree of the first node _findUnit finds with the parent id, so no other node changes and the root count stays |
| OrgEditor.AddToTree | ui/managers/SymbolEditorUI.js:819-836 | refused exactly when there is no parentId and a root already exists; an unresolved parentId appends to the root list; the first parentless unit becomes the only root |
| OrgEditor.AddToTreeCount | ui/managers/SymbolEditorUI.js:808-836 | every accepted addition adds exactly the new unit's nodes |
| OrgEditor.ParentlessAtMostOneRoot | ui/managers/SymbolEditorUI.js:829-836 | through the parentless path the root list never grows past one unit |
| OrgEditor.GenerateSidc | ui/managers/SymbolEditorUI.js:1725-1751 | length 2 plus the four parts; 'S' first; 'A' after affiliation and dimension when status is '1', otherwise 'P' |
| OrgEditor.GenerateSidcLayout | ui/managers/SymbolEditorUI.js:1739 | with one-letter parts, each letter sits at its position |
| OrgEditor.DefaultCodeIsTwelve | ui/managers/SymbolEditorUI.js:1725-1751 | the panel's defaults give "SFGPUCI----F", 12 characters |
| OrgEditor.ValueByCode | ui/managers/SymbolEditorUI.js:1851-1858 | a value exactly when some row has that letter |
| OrgEditor.LoadFromSidc | ui/managers/SymbolEditorUI.js:1841-1861 | a code that is not 15 characters changes nothing; the fields _generateSIDC reads, other than dimension, are never written; dimension becomes the table WORD |
| OrgEditor.LoadThenGenerateCounterexample | ui/managers/SymbolEditorUI.js:1841-1866 | a hostile air code loaded into the defaults regenerates as "SFairPUCI----F": the wrong affiliation, with a word in the dimension slot |
| OrgEditor.LoadFromSidcCorrected | ui/managers/SymbolEditorUI.js:1841-1842 | a code that is not 15 characters changes nothing |
| OrgEditor.LoadCorrectedThenGenerate | ui/managers/SymbolEditorUI.js:1841-1866 | after the corrected load, the generated code carries back the affiliation, dimension, function id and echelon it read |
| OrgEditor.OrganizationPanel.constructor | ui/managers/SymbolEditorUI.js:94-112 | no units and the default current values |
| OrgEditor.OrganizationPanel.AddSymbolUnitToTree | ui/managers/SymbolEditorUI.js:808-839 | the tree becomes AddToTree's result, with a toast when refused |
| OrgEditor.OrganizationPanel.RemoveUnitRecursive | ui/managers/SymbolEditorUI.js:1290-1304 | the tree becomes RemoveUnit's; returns true if and only if some node had the id |
| OrgEditor.OrganizationPanel.LoadCode | ui/managers/SymbolEditorUI.js:1841-1866 | the current values become LoadFromSidc's |
| Graphics.InitialGeometry | backend/data/TacticalGraphic.js:29-64 | point types get exactly a point (the origin by default); line types get points and closed; arrows get points; areas get vertices; CIRCULAR gets center, radius (50 by `\|\|`) and angles 0 and 360; any other type gets nothing |
| Graphics.UnswitchedTypesHaveNoGeometry | backend/data/TacticalGraphic.js:29-64 | rally points, phase lines and main-effort arrows get an empty geometry |
| Graphics.InitialStyle | backend/data/TacticalGraphic.js:19-26 | a supplied fillOpacity and showLabel are kept, even 0 and false; otherwise 0.3 and true; a strokeWidth of 0 falls back to 2 |
| Graphics.PatchedGeometry | backend/data/TacticalGraphic.js:90-92 | each of the geometry keys (point, points, closed, vertices, center, radius, startAngle, endAngle) takes the supplied value and keeps its old one otherwise; the empty patch changes nothing |
| Graphics.PatchedGeometryIdempotent | backend/data/TacticalGraphic.js:90-92 | applying the same geometry patch twice is applying it once |
| Graphics.PatchedStyle | backend/data/TacticalGraphic.js:97-99 | each of the six style keys (strokeColor, fillColor, strokeWidth, fillOpacity, lineDash, showLabel) takes the supplied value and keeps its old one otherwise; the empty patch changes nothing |
| Graphics.PositionKeepsShape | backend/data/TacticalGraphic.js:104-110 | moving a circle keeps its radius and angles; a line graphic has nothing to move |
| Graphics.Positioned | backend/data/TacticalGraphic.js:104-110 | the point moves when there is one, otherwise the center when there is one, and otherwise nothing changes |
| Graphics.WithPoint | backend/data/TacticalGraphic.js:115-119 | a points list gains the point at the end, and a geometry without one is unchanged |
| Graphics.AddPointByType | backend/data/TacticalGraphic.js:115-119 | on point or area graphics addPoint changes nothing; on line and arrow graphics the points list becomes the old list with the point added at the end |
| Graphics.TacticalGraphic.constructor | backend/data/TacticalGraphic.js:12-78 | the uuid, type (POINT by default), name, layer, style, geometry, label, locked and visible defaults |
| Graphics.TacticalGraphic.UpdateGeometry | backend/data/TacticalGraphic.js:90-92 | only the geometry changes, to the patched geometry |
| Graphics.TacticalGraphic.UpdateStyle | backend/data/TacticalGraphic.js:97-99 | only the style changes, to the patched style |
| Graphics.TacticalGraphic.SetPosition | backend/data/TacticalGraphic.js:104-110 | only the geometry changes: point if set, else center if set, else nothing |
| Graphics.TacticalGraphic.AddPoint | backend/data/TacticalGraphic.js:115-119 | only the geometry changes: one point appended when there is a points list |
| Scenes.WithoutGraphic | backend/data/Scene.js:107 | the result holds exactly the graphics with another uuid, and equals the list when none matches |
| Scenes.WithoutGraphicAppend | backend/data/Scene.js:107 | the filter distributes over concatenation, so the kept graphics stay in order |
| Scenes.ValuesFromKeys | backend/data/Scene.js:91-93 | values read through a key list are all stored units |
| Scenes.Scene.constructor | backend/data/Scene.js:10-56 | supplied fields are kept and missing ones take the defaults: '新場景' by `\|\|`, version '1.0.0', the default terrain, no units, no graphics, the default settings and time, author '' |
| Scenes.Scene.AddUnit | backend/data/Scene.js:68-71 | the unit is stored under its uuid, overwriting an earlier one; nothing else changes |
| Scenes.Scene.RemoveUnit | backend/data/Scene.js:76-79 | only that key is deleted |
| Scenes.Scene.GetUnit | backend/data/Scene.js:84-86 | Some exactly for a stored uuid, with the stored unit |
| Scenes.Scene.GetAllUnits | backend/data/Scene.js:91-93 | one entry per key; every stored unit appears and every entry is a stored unit |
| Scenes.Scene.AddGraphic | backend/data/Scene.js:98-101 | appends at the end; nothing else changes |
| Scenes.Scene.RemoveGraphic | backend/data/Scene.js:106-109 | drops every graphic with the uuid and keeps the rest in order |
| SceneServices.PatchedSettings | backend/services/SceneService.js:56 | lod, camera and display are replaced when supplied and kept otherwise |
| SceneServices.PatchedTime | backend/services/SceneService.js:205 | each supplied time key is replaced and the others are kept |
| SceneServices.SettingsPatchLaws | backend/services/SceneService.js:56 | the empty patch changes nothing, and patching twice is patching once |
| SceneServices.TimePatchLaws | backend/services/SceneService.js:205 | the empty patch changes nothing, and patching twice is patching once |
| SceneServices.TimePatchCompose | backend/services/SceneService.js:205 | two successive merges are one merge in which the later keys win |
| SceneServices.Toggled | backend/services/SceneService.js:220 | isPlaying flips and nothing else changes |
| SceneServices.ToggleTwice | backend/services/SceneService.js:215-227 | toggling twice restores the time state |
| SceneServices.SceneService.constructor | backend/services/SceneService.js:14-17 | no scene and no events |
| SceneServices.SceneService.CreateScene | backend/services/SceneService.js:22-28 | a new scene becomes current, with the config's name ('新場景' by `||`), description (''), version ('1.0.0'), terrain (the default) and author (''); created event |
| SceneServices.SceneService.ClearScene | backend/services/SceneService.js:114-118 | no current scene; cleared event |
| SceneServices.SceneService.UpdateSettings | backend/services/SceneService.js:51-62 | NoSceneLoaded without a scene; otherwise the settings are merged and returned and nothing else in the scene changes |
| SceneServices.SceneService.AddUnitToScene | backend/services/SceneService.js:123-133 | NoSceneLoaded without a scene; otherwise the scene stores the unit, which is returned |
| SceneServices.SceneService.RemoveUnitFromScene | backend/services/SceneService.js:138-146 | NoSceneLoaded without a scene; otherwise that key is deleted |
| SceneServices.SceneService.UpdateUnitInScene | backend/services/SceneService.js:151-166 | NoSceneLoaded without a scene; UnitNotInScene for an absent uuid; otherwise the stored unit becomes Updated and is returned |
| SceneServices.SceneService.AddGraphicToScene | backend/services/SceneService.js:171-182 | NoSceneLoaded without a scene; otherwise a new graphic built from the data is appended and returned |
| SceneServices.SceneService.RemoveGraphicFromScene | backend/services/SceneService.js:187-195 | NoSceneLoaded without a scene; otherwise the graphics with the uuid are dropped |
| SceneServices.SceneService.UpdateTime | backend/services/SceneService.js:200-210 | NoSceneLoaded without a scene; otherwise the time is merged and returned |
| SceneServices.SceneService.TogglePlay | backend/services/SceneService.js:215-227 | NoSceneLoaded without a scene; otherwise isPlaying flips and the new value is returned |
| SceneServices.SceneService.SetPlaybackSpeed | backend/services/SceneService.js:232-242 | NoSceneLoaded without a scene; otherwise the speed is stored and returned unchanged |
| SceneServices.ToggleTwiceRestores | backend/services/SceneService.js:215-227 | two calls of togglePlay return opposite values and restore the scene's time |
| Storage.KeyCount | backend/repositories/MemoryStorage.js:74-76 | size equals the number of distinct keys |
| Storage.SetCount | backend/repositories/MemoryStorage.js:18-20 | set on an existing key keeps the size, and on a new key adds one |
| Storage.DeleteCount | backend/repositories/MemoryStorage.js:32-34 | delete lowers the size by one exactly when the key was present |
| Storage.MemoryStorage.constructor | backend/repositories/MemoryStorage.js:11-13 | an empty store |
| Storage.MemoryStorage.Set | backend/repositories/MemoryStorage.js:18-20 | the key maps to the value; a new key goes to the end of the key order; the size grows only for a new key |
| Storage.MemoryStorage.Get | backend/repositories/MemoryStorage.js:25-27 | Some exactly for a stored key, with its value |
| Storage.MemoryStorage.Delete | backend/repositories/MemoryStorage.js:32-34 | returns whether the key was present; afterwards it is absent and the size has dropped accordingly |
| Storage.MemoryStorage.Has | backend/repositories/MemoryStorage.js:39-41 | true exactly when get finds a value |
| Storage.MemoryStorage.Clear | backend/repositories/MemoryStorage.js:46-48 | size 0 and no keys |
| Storage.MemoryStorage.Keys | backend/repositories/MemoryStorage.js:53-55 | each stored key exactly once |
| Storage.MemoryStorage.Values | backend/repositories/MemoryStorage.js:60-62 | one value per key, aligned with keys() |
| Storage.MemoryStorage.Entries | backend/repositories/MemoryStorage.js:67-69 | the pairs of keys() and values(), position by position, of the same length |
| Storage.MemoryStorage.Size | backend/repositories/MemoryStorage.js:74-76 | the number of keys |
| Storage.SetThenGet | backend/repositories/MemoryStorage.js:18-27 | get(k) after set(k, v) is v, and other keys read as before |
| UnitEngines.LastReached | frontend/engine/UnitEngine.js:494-499 | the downward scan finds the highest index whose minDistance is reached, or none |
| UnitEngines.ChooseLevel | frontend/engine/UnitEngine.js:490-499 | the chosen name is 'detail' or one of the levels' names |
| UnitEngines.ConfigAlwaysDetail | frontend/engine/UnitEngine.js:490-499 | with the configured levels (frontend/core/Config.js:50-79) every distance gives 'detail' |
| UnitEngines.FirstReached | frontend/engine/UnitEngine.js:493 | the far-to-near scan finds the first index whose minDistance is reached, or none |
| UnitEngines.FarToNearPicksBand | frontend/engine/UnitEngine.js:493 | with strictly decreasing minDistances, the corrected choice is the level whose band contains the distance |
| UnitEngines.ConfigBands | frontend/core/Config.js:50-79 | corrected: 500 and beyond is strategic, [200, 500) operational, [50, 200) tactical, below 50 detail |
| UnitEngines.ChooseLevelFarToNear | frontend/engine/UnitEngine.js:490-499 | corrected scan from index 0: the chosen name is 'detail' or one of the levels' names |
| UnitEngines.FirstNamed | frontend/engine/UnitEngine.js:511 | `levels.find` by name: the first matching level, or none |
| UnitEngines.UnitEntity.constructor | frontend/engine/UnitEngine.js:283-284 | not selected, at level 'detail' |
| UnitEngines.UnitEntity.SetSelected | frontend/engine/UnitEngine.js:406-407 | only the selected flag changes |
| UnitEngines.UnitEntity.ApplyLod | frontend/engine/UnitEngine.js:510-529 | an unknown level name changes nothing; otherwise the first level with the name is applied |
| UnitEngines.UnitEntity.UpdateLod | frontend/engine/UnitEngine.js:490-505 | the level becomes ChooseLevel's; applyLOD runs only when the level changed |
| UnitEngines.UnitEngine.constructor | frontend/engine/UnitEngine.js:13-20 | no entities and no selection |
| UnitEngines.UnitEngine.AddUnit | frontend/engine/UnitEngine.js:32-64 | a registered uuid returns its entity and changes nothing; otherwise a fresh entity is registered |
| UnitEngines.UnitEngine.SelectUnit | frontend/engine/UnitEngine.js:113-128 | a registered uuid becomes the selection and its entity is highlighted; an unknown uuid un-highlights the previous entity but keeps selectedUnitId |
| UnitEngines.UnitEngine.DeselectUnit | frontend/engine/UnitEngine.js:133-141 | a truthy selection is cleared and its entity un-highlighted; an empty-string selection is kept |
| UnitEngines.UnitEngine.RemoveUnit | frontend/engine/UnitEngine.js:88-108 | the key is deleted; an unknown uuid changes nothing else; removing the selected unit clears the selection |
| UnitEngines.UnitEngine.Clear | frontend/engine/UnitEngine.js:181-188 | no entities and no selection |
| UnitEngines.UnitEngine.GetUnit | frontend/engine/UnitEngine.js:160-162 | Some exactly for a registered uuid, with its entity |
| UnitEngines.UnitEngine.GetUnitCount | frontend/engine/UnitEngine.js:174-176 | the number of registered uuids |

## Left out

- Rendering, the DOM and the 3D engine are not modelled. This covers the path line, waypoint markers, meshes, sprites, labels, GUI handlers and the `_createUI`/`_renderOrgTree`/`_showToast` calls. Only a toast counter stands in for `_showToast`.
- The Bézier curve, `getLength`, `Date.now` and `requestAnimationFrame` are not modelled. Playback is a flag state machine: a frame is a `Tick(elapsed, frame)` the host performs, and its outcome depends only on whether `elapsed` reached the 5000 ms duration. The unit's interpolated position during playback is not modelled.
- Generated ids (`generateUUID`, `'unit-' + Date.now()`) and the `createdAt`/`updatedAt` timestamps are parameters or are left out, because they come from the clock and randomness.
- Event payloads are reduced to the fields the properties need. The ORBAT, scene and path event logs stand for calls into the event bus, which is modelled separately.
- MovePath.MovePathEngine.PathInfoCount: only the waypoint count of getPathInfo is modelled. The curve length and the `toFixed` strings are floating-point formatting.
- The unit-updated listener registered by the path engine's constructor is modelled as a flag (`listening`). It only redraws visuals.
- SceneService loadScene, exportScene, importScene, saveToLocal and loadFromLocal are not modelled: they are JSON and browser-storage plumbing. getCurrentScene is a plain field read of `currentScene`.
- Scene toJSON/fromJSON and TacticalGraphic toJSON/fromJSON are not modelled: they are JSON plumbing.
- Scenes.Scene.GetAllUnits: the order of `Object.values` (insertion order for non-integer keys) is not stated. The contract states only that there is one entry per key, every stored unit is present, and nothing else is.
- Units stored in the ORBAT Map and in a scene are records (values), not shared objects. Aliasing between a caller's Unit object and the stored one, which lets an outside edit show through, is not captured.
- The `metadata` bags, `callsign`/`commander` free text beyond defaulting, and Unit fields that Object.assign could overwrite with arbitrary values are not modelled. The patch keys are the named fields only. `parentId`, `children` and the nested `supply` object are not patch keys.
- UnitEngine: the following are not modelled, because they manipulate meshes or read the camera:
  - addUnit's model, symbol and label creation;
  - updateUnit with regenerateSymbol;
  - the engine-wide updateLOD that measures camera distances;
  - updateSymbolHeight, updateConnectionLines, updateLineOpacity, updateModelSize, the toggles and dispose.
  In applyLOD, the `if (this.model)` style guards are folded into one `applied` field that records the level configuration last applied.
- EventBus: callbacks are opaque values of a type parameter, and a throwing callback is given by the `throwing` set. Handler side effects, including a handler that subscribes during emit, are not modelled. The global `Events` name table is data.
- SymbolService's `cache` and clearCache are not modelled: nothing reads the cache. validateSIDC's `typeof` check is not modelled, because the model's input is always a string.
- The SymbolEditor preview sprite and dispose are rendering, and are not modelled.
- Storage.MemoryStorage: keys are any type with equality; JavaScript's SameValueZero on objects is not modelled.
- OrbatForest.RemoveRec, OrbatForest.RemoveChildren, OrbatForest.BuildNode and Orbat.OrbatService.GetTree require a ghost ranking of the units reachable from the removed id or from rootUnits; a cycle elsewhere in the Map is allowed (RemovalBesideCycle). The source recurses without end only when such a cycle is reachable, which moveUnit can create (MoveIntoSubtreeCycles); that non-termination is not modelled.
- UnitData.FillRate: rounds the exact quotient, while Unit.js:92 rounds the double `strength / authorizedStrength * 100`; for 23 of 40 the double is 57.49999999999999, so the source gives 57 where the model gives 58.
- UnitEngines.UnitEngine.AddUnit: the source is async and awaits the creation of the model, the symbol and the label between the `has` check (UnitEngine.js:34) and `units.set` (line 58), so two overlapping calls for one uuid both build an entity and the second overwrites the first; the model's call is atomic.
- String lengths count characters, while JavaScript's `.length` counts UTF-16 units (SymbolService.js:21, SymbolEditor.js:211). The two agree on the ASCII letters and digits of the codes.
- Unit numbers are mathematical integers and reals. Strength, supply and distances are not bounded to JavaScript doubles, and NaN and Infinity are not modelled.

## Findings

| source | as written | input that shows it | evidently intended | confidence | as-written member | corrected member |
|---|---|---|---|---|---|---|
| backend/services/SymbolService.js:95-97 | `modifications.identity + result.slice(1)` writes the identity over position 0, which parseSIDC (line 27-28) reports as the version | the default code "31010000150000000000" with identity '1' gives "11010000150000000000", which still parses as identity '0' | write the identity at position 1: `result.slice(0, 1) + identity + result.slice(2)` | high, not executed | SymbolCodes.ModifyIdentityCounterexample | SymbolCodes.ModifyCorrectedReadsBack |
| ui/managers/SymbolEditorUI.js:1851-1860 | loadFromSIDC sets `identity`, the dimension word, `level` and `branchType`, while _generateSIDC (lines 1725-1739) reads `affiliation`, the dimension letter, `functionId` and `echelon` | loading "SHAPUCI-------D" and regenerating gives "SFairPUCI----F" instead of a hostile air code | write the letters _generateSIDC reads | high, not executed | OrgEditor.LoadThenGenerateCounterexample | OrgEditor.LoadCorrectedThenGenerate |
| frontend/engine/UnitEngine.js:493-499 | the loop starts at the last level, whose minDistance is 0 (frontend/core/Config.js:72-78), and stops at the first level reached | distance 600 gives 'detail' rather than 'strategic'; every distance gives 'detail' | scan from the farthest band (index 0) down, as the comment on line 493 says | high, not executed | UnitEngines.ConfigAlwaysDetail | UnitEngines.ConfigBands |

Behaviours of the code the model keeps as written:
- setPath does not reset the read-only flag or stop playback.
- addWaypoint appends even in read-only mode.
- moveUnit to an unknown parent attaches the unit nowhere instead of making it a root.
- play with a missing entity leaves `isPlaying` true.
- play with no current unit fails after setting `isPlaying`.
- Natural completion leaves the last `animationId` in place.
- The letter codes the editor generates have 14 characters, and those the panel generates have 12, so setSIDC and loadFromSIDC reject them.
- In the unit engine an empty-string id is falsy, so deselectUnit keeps a selection of "".
