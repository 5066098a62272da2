# Dynamic model reallocation for the tethered-ring transit system and launcher

This project models the engines that let a 3-D scene of a tethered ring show
thousands of virtual objects while keeping only a small pool of renderable
models: the `transitSystem` class of `transitsystems.js` and the mass-driver
`launcher` of `launcher.js`.  Each engine keeps a set of reference frames.
Each frame is cut into wedges, and each wedge holds one list of virtual
objects per kind.  On every animation tick an engine finds the window of
wedges near the camera, marks each wedge in a shared flag table (bit 0: in
view now, bit 1: in view last tick), and builds three lists from the flags:

- wedges to update;
- wedges to assign, which have just come into view;
- wedges to remove, which have just left the view.

The remove pass returns the models of the wedges that left the view to their
objects' pools.  The assign pass lends models to objects that have none; a
pool down to its last model clones it first.  The update pass re-places the
models of the classes that move or have changed.  An update of the design
parameters tears down and rebuilds the populations whose counters changed.

How the model is built:

- Reference frames, wedges and virtual objects are values: `Frame`,
  `Wedge`, `KindList` and `VirtualObject`.
- Each engine is a class. The class keeps its frames and its pool table as
  `seq` fields, and the flag table as an `array<bv8>`.
- A renderable model is a number (`Handle`), given out by a counter. A pool
  is a `seq<Handle>`, and an object names its pool by its index in the table.
- The invariant every operation keeps: the models held by objects, plus the
  models lying in pools, are exactly the numbers created so far, each once.
  So a model is never lost, never duplicated, and never shared by two
  objects.
- Placing a model becomes a `Placement` record, because placing only computes
  geometry. The console messages become `Log` entries.

Modules follow the code:

- `Windows`: wedge windows, the circular walks, and the flag loops over the
  shared array.
- `Camera`: the camera-range window of a frame.
- `Pools`: the pool table, ownership accounting and lending.
- `Wedges`: the remove, assign and update passes on one wedge.
- `Frames`: the passes over lists of wedges, and the classification of all
  frames.
- `Population`: `removeOldVirtualObjects` and the pushes of a rebuild.
- `TransitKinds`, `TransitItems`, `FacilitySlots` and `TransitRebuild`: the
  eight blocks of `transitSystem.update`.
- `TransitSystems`: the transit-system class, its constructor, the loader
  callbacks, `update` and `animate`.
- `Launchers` and `LauncherEngine`: `referenceFrame`, the launcher
  constructor's population, and the launcher's `animate`.

## Model

| member | source | states |
|---|---|---|
| Windows.Next | transitsystems.js:880 | the step of the circular walk stays below W and is `(i + 1) % W` (with NextIsMod) |
| Windows.NextIsMod | transitsystems.js:880 | Next is exactly JavaScript's `(wedgeIndex + 1) % numWedges` on the wedge range |
| Windows.Walk | transitsystems.js:879-885 | the walk from start visits start first and is never empty, so even start == finish marks one wedge |
| Windows.WalkMembers | transitsystems.js:879-893 | the walk from i to f visits exactly the wedges of the inclusive circular range i..f, including ranges that wrap past W-1 to 0 |
| Windows.WalkDistinct | transitsystems.js:879-885 | the walk ends after Dist(i, f) + 1 steps and visits no wedge twice |
| Windows.WedgesMembers | transitsystems.js:879-893 | a well-formed window walks over exactly the wedges it covers, and over none when its start is -1 |
| Windows.SelectSnoc | transitsystems.js:895-918 | filtering a walk wedge by wedge: one more wedge adds itself exactly when its flag passes the test |
| Windows.SelectMembers | transitsystems.js:895-918 | a list built by the filtering loop holds exactly the walked wedges whose flag passes the test |
| Windows.FlagTests | transitsystems.js:881-912 | with bit 0 for the current window and bit 1 for the previous one, the update test `& 1 == 1` holds iff the wedge is in view, the assign test `== 1` iff it is in view now and was not before, the remove test `== 2` iff it was in view and is not now |
| Windows.Classification | transitsystems.js:878-918 | the update list is exactly the wedges in view, the assign list exactly those newly in view, the remove list exactly those that left the view |
| Windows.ListsRelate | transitsystems.js:895-918 | every assigned wedge is also updated; no removed wedge is updated |
| Windows.ClearedHistoryAssignsAll | transitsystems.js:850-918 | with the previous start at -1, every wedge in view is assigned (assign list == update list == the window's wedges) and nothing is removed |
| Windows.SelectAll | transitsystems.js:895-909 | a filter that every walked wedge passes keeps the whole walk, in order |
| Windows.MarkRange | transitsystems.js:879-893 | the marking loop returns the walked wedges, in order (the source's clearFlagsList), and ORs the bit into exactly the flags of the window, leaving every other flag as it was |
| Windows.CollectCurrent | transitsystems.js:895-909 | the loop over the current window returns the walked wedges passing the update test and those passing the assign test, in walk order, without writing the flags |
| Windows.CollectRemoved | transitsystems.js:910-918 | the loop over the previous window returns the walked wedges passing the remove test, in walk order |
| Windows.ClearFlags | transitsystems.js:942-944 | resetting the recorded wedges sets exactly the listed flags to 0 and leaves the rest |
| Windows.ClassifyFrame | transitsystems.js:878-944 | one frame's scan from an all-zero flag table: it returns the update, assign and remove lists of the two windows and leaves every flag 0 again |
| Camera.Frac | transitsystems.js:864-869 | the fractional part lies in [0, 1) |
| Camera.FracShift | transitsystems.js:864-869 | adding a whole number of turns does not change the fractional part |
| Camera.JsRemOneNonNegative | transitsystems.js:864-869 | on a non-negative number JavaScript's `% 1` is the fractional part |
| Camera.WedgeAtBounds | transitsystems.js:870-871 | a position in [0, 1) falls in a wedge 0 .. W-1 |
| Camera.ShiftedFrac | transitsystems.js:864-869 | the source's `((a + 1) % 1 - p + 1) % 1` is the fractional part of a - p whenever a >= -1 and p is in [0, 1] |
| Camera.VisibleWindowBounds | transitsystems.js:861-876 | when the camera is farther than cameraRange the window is (-1, -1); otherwise start and finish are the wedges of frac(nearest -/+ delta - p) and lie in [0, W); the window is always well formed |
| Camera.WindowExample | transitsystems.js:861-876 | an eight-wedge frame seen with range 1500 on a ring of 8000: window (6, 1) at phase 0 and (5, 0) at phase 1/8 |
| Camera.ExampleWalks | transitsystems.js:879-885 | the windows (5, 0) and (6, 1) of 8 wedges walk over 5, 6, 7, 0 and 6, 7, 0, 1 |
| Camera.ExampleFlags | transitsystems.js:878-893 | turning from (6, 1) to (5, 0) flags wedge 5 with 1, wedges 6, 7, 0 with 3 and wedge 1 with 2 |
| Camera.AssignExample | transitsystems.js:902-905 | turning from (6, 1) to (5, 0) assigns only wedge 5 |
| Camera.RemoveExample | transitsystems.js:910-918 | turning from (6, 1) to (5, 0) removes only wedge 1 |
| Camera.UpdateExample | transitsystems.js:895-901 | turning from (6, 1) to (5, 0) updates wedges 5, 6, 7, 0, the newly assigned wedge 5 included |
| Pools.IdsCount | transitsystems.js:153-157 | every model number lo .. hi-1 occurs exactly once among the models created from lo to hi, and no other number occurs |
| Pools.PushPooled | transitsystems.js:998 | pushing a model onto one pool adds exactly that model to the table's pooled models |
| Pools.SeedPool | transitsystems.js:153-157 | the loader's loop pushes n new clones onto the pool, in creation order, and advances the model counter by n |
| Pools.SeedConserves | transitsystems.js:153-157 | a loader fill adds exactly the n new model numbers to what the pools hold |
| Pools.SeedBalanced | transitsystems.js:153-158 | a loader fill keeps the ownership balance: held plus pooled models are still exactly the models created so far |
| Pools.Acquire | transitsystems.js:1022-1032 | lending from a pool never changes the number of pools |
| Pools.AcquireFacts | transitsystems.js:1020-1041 | lending touches only its own pool; it lends nothing exactly when the pool is empty; it clones exactly when the pool holds one model and lends that clone, leaving the pool as it was; a pool that held a model still holds one; otherwise it lends the last model and the pool shrinks by one |
| Pools.PopPooled | transitsystems.js:1030 | `pop()` takes exactly the last model out of the pooled models |
| Pools.AcquireConserves | transitsystems.js:1022-1032 | lending conserves models: what leaves the pools is the lent model, and the only model that appears is the clone, numbered next |
| Wedges.EmptyWedge | launcher.js:27-43 | a new frame's wedge has one empty list per registered kind, in registration order |
| Wedges.EmptyWedgeModels | launcher.js:27-43 | a new wedge holds no model |
| Wedges.Release | transitsystems.js:996-1000 | releasing an object leaves it without a model when it has a pool (and as it was otherwise), and keeps the number of pools |
| Wedges.ReleaseConserves | transitsystems.js:996-1000 | releasing moves the held model onto the object's own pool: object and pools together hold the same models |
| Wedges.Released | transitsystems.js:995-1001 | releasing a list keeps its length and the number of pools |
| Wedges.ReleasedEach | transitsystems.js:995-1001 | after releasing a list each object with a pool holds no model and is otherwise unchanged; objects without a pool are unchanged |
| Wedges.ReleasedConserves | transitsystems.js:995-1001 | releasing a list conserves models between the list and the pools |
| Wedges.ReleasedWedge | transitsystems.js:994-1002 | releasing a wedge keeps the number of kind lists and pools |
| Wedges.ReleasedWedgeEach | transitsystems.js:994-1002 | releasing a wedge keeps every kind and list length and empties the model of every object that has a pool |
| Wedges.ReleasedWedgeConserves | transitsystems.js:994-1002 | releasing a wedge conserves models between the wedge and the pools |
| Wedges.ReleaseObjects | transitsystems.js:995-1001 | the loop over a list's objects computes exactly Released |
| Wedges.ReleaseWedge | transitsystems.js:994-1002 | the loop over a wedge's kind lists computes exactly ReleasedWedge |
| Wedges.AssignObject | transitsystems.js:1021-1040 | assigning an object never changes the number of pools |
| Wedges.AssignObjectFacts | transitsystems.js:1021-1040 | an object that already holds a model, or has no pool, is left alone; otherwise only its model changes, and it is short exactly when its pool was empty |
| Wedges.AssignObjectConserves | transitsystems.js:1021-1032 | assigning conserves models between the object and the pools, plus the clone it may create |
| Wedges.AssignedList | transitsystems.js:1020-1041 | assigning a list keeps its length and the number of pools |
| Wedges.AssignedListEach | transitsystems.js:1020-1041 | assigning a list only gives models: each object keeps its position, index and pool, and one that held a model is unchanged |
| Wedges.AssignedListNext | transitsystems.js:1022-1028 | the model counter never goes back |
| Wedges.AssignedListConserves | transitsystems.js:1020-1041 | assigning a list conserves models between the list and the pools, plus the clones it creates, numbered from next |
| Wedges.AssignSharedPool | transitsystems.js:1020-1041 | objects sharing one pool: if it holds a model every object ends with one, none is short and the pool still holds a model; if it is empty nothing changes and every object without a model is short |
| Wedges.PlacedInExact | transitsystems.js:1047-1051 | placing a list places exactly the objects holding a model, each with that model |
| Wedges.PlacedInMember | transitsystems.js:1047-1051 | one placement is in the list exactly when its object holds its model |
| Wedges.Repeat | transitsystems.js:1027 | one "Duplicating model" log entry per clone, all naming the kind |
| Wedges.AssignedWedge | transitsystems.js:1018-1053 | the assign pass on one wedge keeps the number of kind lists and pools |
| Wedges.AssignedWedgeKinds | transitsystems.js:1018-1053 | the assign pass keeps every kind list's kind and length |
| Wedges.AssignedWedgeReports | transitsystems.js:1018-1058 | models are placed at assignment only for kinds that are static and unchanged, and every ran-out report carries a positive count |
| Wedges.AssignedWedgeNext | transitsystems.js:1022-1028 | the model counter never goes back over a wedge |
| Wedges.AssignedWedgeConserves | transitsystems.js:1018-1053 | the assign pass on one wedge conserves models, plus the clones it creates |
| Wedges.AssignedListAbove | transitsystems.js:1020-1041 | assigning a list writes only the pools its objects borrow from, and the objects keep their pools |
| Wedges.AssignedWedgeAbove | transitsystems.js:1018-1053 | assigning a wedge writes only the pools its objects borrow from, and the objects keep their pools |
| Wedges.AssignObjects | transitsystems.js:1020-1041 | the loop over a list's objects computes exactly AssignedList |
| Wedges.AssignWedge | transitsystems.js:1018-1053 | the loop over a wedge's kind lists computes exactly AssignedWedge |
| Wedges.PlacedWedgeSound | transitsystems.js:1079-1092 | the update pass places only kinds it is told to place, and each placement names an object of that kind holding that model |
| Wedges.PlacedWedgeComplete | transitsystems.js:1079-1092 | the update pass places every object holding a model whose kind it is told to place |
| Wedges.PlaceWedge | transitsystems.js:1079-1092 | the loop over a wedge's kind lists computes exactly PlacedWedge |
| Frames.ReleasedWedgeCleared | transitsystems.js:994-1002 | after the remove pass a wedge's objects that have a pool hold no model |
| Frames.Removed | transitsystems.js:993-1003 | the remove pass keeps the number of frames, of wedges per frame and of pools |
| Frames.RemovedLayout | transitsystems.js:993-1003 | the remove pass changes no frame's position, windows or wedge count |
| Frames.RemovedConserves | transitsystems.js:993-1003 | the remove pass conserves models between the frames and the pools |
| Frames.RemovedEffect | transitsystems.js:993-1003 | every listed wedge ends with no model held by an object with a pool, and every unlisted wedge is unchanged |
| Frames.RemovedShape | transitsystems.js:993-1003 | the remove pass keeps every wedge's kinds and list lengths |
| Frames.RemoveAll | transitsystems.js:993-1003 | the loop over the remove list computes exactly Removed |
| Frames.Assigned | transitsystems.js:1015-1066 | the assign pass keeps the number of frames and of pools |
| Frames.AssignedLayout | transitsystems.js:1015-1066 | the assign pass changes no frame's position, windows or wedge count |
| Frames.AssignedConserves | transitsystems.js:1015-1066 | the model counter never goes back, and the frames and pools together hold the models they held plus exactly the clones made, numbered from the old counter |
| Frames.AssignedPlacesListed | transitsystems.js:1043-1051 | the assign pass places only objects in listed wedges, and only of kinds it is told to place at assignment |
| Frames.AssignedAbove | transitsystems.js:1015-1066 | the assign pass writes only pools that some object refers to |
| Frames.AssignedShape | transitsystems.js:1015-1066 | the assign pass keeps every wedge's kinds and list lengths |
| Frames.AssignAll | transitsystems.js:1015-1066 | the loop over the assign list computes exactly Assigned |
| Frames.PlacementsExact | transitsystems.js:1077-1093 | a placement is made exactly for a listed wedge, a kind it is told to place, and an object there holding that model |
| Frames.PlaceAll | transitsystems.js:1077-1093 | the loop over the update list computes exactly Placements |
| Frames.ClassifiedMembers | transitsystems.js:877-936 | a wedge is in the update list exactly when it is in the frame's current window, in the assign list exactly when it is in the current window and not the previous one, and in the remove list exactly when it is in the previous window and not the current one |
| Frames.ClassifiedFrames | transitsystems.js:939-940 | after classification every frame's previous window is its current window |
| Frames.ClassifiedAfterClearing | transitsystems.js:850-855 | once the wedge history is cleared, every wedge in view is assigned and nothing is removed |
| Frames.ClassifyFrames | transitsystems.js:858-945 | the loop with its flag array computes exactly Classified and leaves every flag cleared |
| Population.EmptiedModels | transitsystems.js:443-452 | emptying the lists of a kind in a wedge takes out exactly the models pushed onto the pool, and nothing else |
| Population.EmptiedTwice | transitsystems.js:452 | emptying a kind's lists twice is the same as once |
| Population.TornDownLayout | transitsystems.js:439-458 | removeOldVirtualObjects changes no frame's position, windows or wedge count |
| Population.TornDownConserves | transitsystems.js:439-458 | removeOldVirtualObjects moves the kind's models from the wedges to its pool, and none is lost or made |
| Population.TornDownEffect | transitsystems.js:439-458 | every listed wedge ends with its lists of the kind emptied and its other lists as they were, and every unlisted wedge is unchanged |
| Population.AllWedgesMembers | transitsystems.js:440-441 | the teardown visits exactly the wedges of the given frames |
| Population.AddToModels | transitsystems.js:482 | pushing a new object, which holds no model, changes no wedge's models |
| Population.InsertedLayout | transitsystems.js:472-499 | pushing new objects changes no frame's position, windows or wedge count |
| Population.InsertedModels | transitsystems.js:472-499 | pushing new objects changes no frame's models |
| Population.InsertedLists | transitsystems.js:472-499 | after the pushes every list holds its old objects followed by exactly the new objects bound for it, in order |
| Population.ResetHistoryModels | transitsystems.js:484 | making frames forget their last window changes no frame's models |
| Population.TearDown | transitsystems.js:439-458 | the loop over the wedges computes exactly TornDown |
| Population.ScanWedge | transitsystems.js:442-456 | one pass over a wedge reports whether the kind has a list there, returns the models it held in order, and the wedge with them emptied |
| Population.Insert | transitsystems.js:472-499 | the loop over the new objects computes exactly Inserted |
| TransitKinds.TrackCountProduct | transitsystems.js:48-53 | the track pools form a table of upward by outward entries |
| TransitKinds.PoolOfInjective | transitsystems.js:40-56 | every registered kind has a pool inside the table, and no two kinds share one |
| TransitKinds.TrackDecode | transitsystems.js:48-53 | a track pool number determines its upward and outward index |
| TransitKinds.TrackKinds | transitsystems.js:102-106 | the facilities frame registers one track kind per upward and outward index, and only those |
| TransitKinds.FrameKindsRegistered | transitsystems.js:74-124 | every kind a frame registers exists for the configured tracks |
| TransitKinds.PlacedByOnePass | transitsystems.js:1043-1085 | each kind is placed by exactly one of the assign and update passes, the update pass taking the dynamic or changed classes |
| TransitItems.WedgeOf | transitsystems.js:481 | `Math.floor(position * numWedges) % numWedges` is a wedge 0 .. 1023 |
| TransitItems.VehicleRun | transitsystems.js:478-483 | one track's vehicles: n of them, vehicle i at i steps plus the random offset |
| TransitItems.VehicleItems | transitsystems.js:472-499 | N vehicles give ceil(N/40) on each express frame and ceil(10N/40) on each collector frame, and none when N is 0 |
| TransitItems.VehicleItemsBuilt | transitsystems.js:472-499 | every new vehicle goes to one of frames 0-3, borrows from the vehicle pool and holds no model |
| TransitItems.LoopBound | transitsystems.js:478 | the loop `i < n1` over a real bound N/d runs for i below ceil(N/d) |
| TransitItems.VehicleRunPositions | transitsystems.js:479-480 | vehicle i lies in [i*step, (i+1)*step), exactly at i*step when not randomized |
| TransitItems.VehiclePositionBounds | transitsystems.js:480 | a random draw in [0, 1) moves a vehicle less than 80% of a step on |
| TransitItems.CableItems | transitsystems.js:640-658 | under either terminus test, the new cables all go to frame 6, borrow from the cable pool and hold no model |
| TransitItems.FacilityItemsBuilt | transitsystems.js:537-559 | under either terminus test, every new facility goes to frame 4, is of a facility kind, borrows from its kind's pool and holds no model |
| TransitItems.MadeCount | transitsystems.js:547-553 | one stop makes one object of each listed kind that is shown, and none of a hidden kind |
| TransitItems.FacilityStopCount | transitsystems.js:546-553 | under either test, the code's `currFloorS == prevFloorS` or the intended one, a shown terminus kind gets one object at a terminus stop, and a shown habitat one at any other stop |
| TransitItems.FacilityRunCount | transitsystems.js:543-556 | over n stops, under either test, each shown terminus kind gets one object per terminus stop of that test and shown habitats one per other stop |
| TransitItems.SlotsAtMost | transitsystems.js:543-556 | under either test, no more terminus stops than stops |
| TransitItems.CableRunCount | transitsystems.js:645-655 | under either test, one cable per terminus stop of that test when cables are shown, and none otherwise |
| TransitItems.FacilityCounts | transitsystems.js:514-659 | with the intended terminus test, the rebuilt facilities and cables number exactly what the new counters record |
| TransitItems.AsWrittenRunsAgree | transitsystems.js:543-556 | with at least one ring terminus, the facilities and cables of the first n stops are the same under the code's test and the intended one |
| TransitItems.AsWrittenAgrees | transitsystems.js:537-659 | with at least one ring terminus, the code's own test builds exactly the facilities and cables the rebuild builds |
| TransitItems.AsWrittenStrayFacilities | transitsystems.js:514-659 | as written, with no ring termini and some habitats, stop 0 gets one of each shown terminus kind and a cable when shown, and habitats are one short, while the terminus and cable counters record 0 |
| TransitItems.TrackRows | transitsystems.js:588-592 | one segment per upward and outward track at a stop, upward index outermost |
| TransitItems.TrackKindsComplete | transitsystems.js:588-592 | every track of the configured table has its kind among the track kinds |
| TransitItems.TrackItems | transitsystems.js:579-596 | the new track segments all go to frame 4, each of a track kind, borrowing from its track's pool |
| TransitItems.SolarItems | transitsystems.js:606-621 | one solar array per configured array, in frame 4 |
| TransitItems.StationaryRingItems | transitsystems.js:673-686 | one stationary ring segment per main ring at each segment position, in frame 6 |
| TransitItems.TubeItems | transitsystems.js:699-711 | one tube segment per main ring at each stop, in frame 6 |
| TransitItems.MovingRingItems | transitsystems.js:726-743 | one moving ring segment per main ring at each segment position, in frame 5 |
| FacilitySlots.TerminusSlotsSoFar | transitsystems.js:543-555 | among the first n stops, the terminus stops number floor((n-1)*nt/(nt+nh)) + 1 when nt > 0, and none when nt is 0 |
| FacilitySlots.TerminusSlotsCount | transitsystems.js:543-555 | over all nt + nh stops there are exactly nt terminus stops and nh habitat stops |
| FacilitySlots.AsWrittenAgreesWithTermini | transitsystems.js:546-555 | with nt > 0 the source's test `currFloorS == prevFloorS` picks exactly the intended terminus stops |
| FacilitySlots.TerminusSlotsAsWrittenSoFar | transitsystems.js:541-555 | as written, stop 0 is always a terminus stop, so the first n stops hold floor((n-1)*nt/(nt+nh)) + 1 of them even when nt is 0 |
| FacilitySlots.AsWrittenStrayTerminus | transitsystems.js:541-555 | as written, with no ring termini and nh habitats, stop 0 still counts as a terminus stop, so one terminus stop appears |
| FacilitySlots.AsWrittenExample | transitsystems.js:541-555 | with nt = 0 and nh = 2 the code as written makes one terminus stop where none is intended |
| TransitRebuild.Counted | transitsystems.js:524-535 | a kind is torn down exactly when it is one of the block's kinds and its old counter is non-zero |
| TransitRebuild.TearDownKindsOutline | transitsystems.js:524-535 | tearing kinds down changes no frame's position, windows or wedge count, nor the number of pools |
| TransitRebuild.RunBlocksOutline | transitsystems.js:459-744 | the blocks of an update keep each frame's phase, camera range, current window and wedge count, the number of pools, and well-formed remembered windows |
| TransitRebuild.TearDownKindsConserves | transitsystems.js:524-535 | tearing kinds down neither makes nor loses a model |
| TransitRebuild.BlockConserves | transitsystems.js:459-500 | a block whose new objects hold no model neither makes nor loses a model |
| TransitRebuild.RunBlocksConserves | transitsystems.js:459-744 | the blocks of an update neither make nor lose a model |
| TransitRebuild.TornDownEmpties | transitsystems.js:439-458 | after removeOldVirtualObjects no list of the kind in the given frames holds an object |
| TransitRebuild.TornDownKeeps | transitsystems.js:439-458 | tearing one kind down leaves an absent kind absent |
| TransitRebuild.ObjectsForNone | transitsystems.js:472-499 | with no new object of a kind, no list of that kind gets one |
| TransitRebuild.InsertedKeeps | transitsystems.js:472-499 | pushing objects of other kinds leaves an absent kind absent |
| TransitRebuild.TearDownKindsKeeps | transitsystems.js:524-535 | tearing down a block's kinds leaves an absent kind absent |
| TransitRebuild.TearDownKindsEmpties | transitsystems.js:524-535 | after the teardown no torn-down kind has an object in the block's frames |
| TransitRebuild.BlockKeeps | transitsystems.js:459-500 | a block leaves absent every kind it does not own |
| TransitRebuild.BlockAccounts | transitsystems.js:459-500 | after a block, a kind it owns whose new counter is zero has no object, provided it had none when its old counter was zero |
| TransitRebuild.RunBlocksKeep | transitsystems.js:459-744 | the blocks that do not own a kind leave it absent |
| TransitRebuild.RunBlocksAccounts | transitsystems.js:459-744 | a kind owned by exactly one block is accounted for after all eight blocks |
| TransitRebuild.BlocksKinds | transitsystems.js:459-744 | the eight blocks own the vehicles, the facilities, the tracks, the arrays, the cables, the stationary rings, the tube and the moving rings |
| TransitRebuild.OwnedOnce | transitsystems.js:459-744 | every registered kind is owned by exactly one block |
| TransitRebuild.BlocksPools | transitsystems.js:459-744 | every kind a block owns has a pool in the table |
| TransitRebuild.ItemsOKOf | transitsystems.js:459-744 | object lists built as the blocks build them meet what the blocks need of them |
| TransitRebuild.ItemListsOK | transitsystems.js:459-744 | the objects an update makes are new, of the right kinds, in the right frames, and for the facilities and cables exactly as many as the new counters |
| TransitRebuild.CounterBlockOK | transitsystems.js:565-597 | a block that compares one counter meets what a block needs |
| TransitRebuild.OneKindBlockOK | transitsystems.js:599-622 | a one-kind block that compares one counter meets what a block needs |
| TransitRebuild.VehicleBlockOK | transitsystems.js:459-500 | the vehicle block changes and repopulates as its counter does |
| TransitRebuild.SolarBlockOK | transitsystems.js:599-622 | the solar-array block changes and repopulates as its counter does |
| TransitRebuild.TubeBlockOK | transitsystems.js:689-712 | the tube block changes and repopulates as its counter does |
| TransitRebuild.MovingRingBlockOK | transitsystems.js:716-744 | the moving-ring block changes and repopulates as its counter does |
| TransitRebuild.FacilityBlockOK | transitsystems.js:512-563 | the facilities block makes no object of a facility kind whose new counter is zero, although it repopulates on any change |
| TransitRebuild.CableBlockOK | transitsystems.js:628-659 | the cable block makes no cable when the new cable counter is zero |
| TransitRebuild.StationaryRingBlockOK | transitsystems.js:661-687 | the stationary-ring block, which always counts as changed, repopulates only for a non-zero count |
| TransitRebuild.TrackBlockOK | transitsystems.js:565-597 | the track block changes and repopulates as its counter does |
| TransitRebuild.BlocksOK | transitsystems.js:459-744 | every block of an update meets what a block needs |
| TransitRebuild.UpdatedAccounted | transitsystems.js:459-744 | after an update no kind whose new counter is zero has an object, provided none whose old counter was zero had one |
| TransitRebuild.UpdatedKeeps | transitsystems.js:459-744 | an update neither makes nor loses a model, and keeps the frames' outline, the number of pools and well-formed remembered windows |
| TransitRebuild.TearDownAll | transitsystems.js:524-535 | the teardown calls, kind by kind, compute exactly TearDownKinds |
| TransitRebuild.ApplyBlock | transitsystems.js:459-500 | one block computes exactly RunBlock |
| TransitRebuild.ApplyBlocks | transitsystems.js:459-744 | the eight blocks in turn compute exactly RunBlocks |
| TransitSystems.Drained | transitsystems.js:775-779 | the queue loses exactly its longest prefix of events due before the time, and keeps the rest in order |
| TransitSystems.PhaseInTurn | transitsystems.js:786-802 | every frame's phase stays a fraction of a turn |
| TransitSystems.ViewsFit | transitsystems.js:860-876 | every frame's window this tick is well formed |
| TransitSystems.Classification | transitsystems.js:850-945 | the lists of a tick are those of the frames moved to their phases and, if a loader asked, with their history forgotten |
| TransitSystems.ClassificationFrames | transitsystems.js:850-945 | classification keeps every frame's models and wedges, and leaves each frame with this tick's window as both current and remembered |
| TransitSystems.PassesKeep | transitsystems.js:993-1093 | the three passes keep the frames' layout and wedge shape, and the number of pools |
| TransitSystems.TickConserves | transitsystems.js:771-1151 | a tick only adds models, exactly the clones it makes, numbered from the old counter |
| TransitSystems.TickKeeps | transitsystems.js:771-1151 | a tick keeps the frames' count, shape and camera ranges, sets each frame's phase, and leaves each frame's window remembered |
| TransitSystems.TickFramesOK | transitsystems.js:771-1151 | the frames after a tick are fit for the next one |
| TransitSystems.TickExact | transitsystems.js:850-918 | a tick updates exactly the wedges in view, assigns exactly the newly visible ones and removes exactly those that left the view; after a late load it assigns all it updates and removes none |
| TransitSystems.TickPlacements | transitsystems.js:1043-1093 | the placements of a tick are first those of the assign pass, only of static unchanged classes in assigned wedges, then exactly those of the update pass: every object holding a model, in an updated wedge, of a dynamic or changed class |
| TransitSystems.NewFramesEmpty | transitsystems.js:74-124 | the constructor's frames hold no model and no object |
| TransitSystems.InitialSizes | transitsystems.js:254-399 | after the constructor's fills each pool holds its configured number of clones, the late-loaded ones none |
| TransitSystems.FirstRunKeepsPools | transitsystems.js:413 | the constructor's first update tears nothing down, so it keeps the pools as they were |
| TransitSystems.NewEngineOK | transitsystems.js:37-139 | the constructor's frames and empty pools meet the engine invariant |
| TransitSystems.SeedOK | transitsystems.js:153-157 | filling a pool with fresh clones keeps the engine invariant |
| TransitSystems.UpdateOK | transitsystems.js:416-769 | an update keeps the engine invariant, under the new counters |
| TransitSystems.TickOK | transitsystems.js:771-1151 | a tick keeps the engine invariant |
| TransitSystems.DrainEvents | transitsystems.js:775-779 | the loop over the event queue computes exactly Drained |
| TransitSystems.SetPhases | transitsystems.js:786-802 | the phase assignments compute exactly Phased |
| TransitSystems.ForgetAll | transitsystems.js:850-855 | the loop over the frames computes exactly ForgetHistory |
| TransitSystems.FindWindows | transitsystems.js:858-876 | the loop over the frames computes exactly Views |
| TransitSystems.Prepare | transitsystems.js:786-876 | the phases, the history reset and the windows of a tick, which fit the frames |
| TransitSystems.RunPasses | transitsystems.js:993-1093 | the three passes compute exactly Ticked and keep the engine invariant |
| TransitSystems.Seed | transitsystems.js:153-157 | a fill appends n fresh clones to one pool and keeps the engine invariant |
| TransitSystems.FillTracks | transitsystems.js:333-361 | the track loops fill every track pool with the configured number of clones and keep the engine invariant |
| TransitSystems.FillRow | transitsystems.js:336-360 | one row of the track loops fills its pools and keeps the engine invariant |
| TransitSystems.InitialPools | transitsystems.js:254-399 | the constructor's fills leave each pool with its configured size under the engine invariant |
| TransitSystems.SeedTwo | transitsystems.js:254-399 | two fills add their clones to their two pools and keep the engine invariant |
| TransitSystems.Step | transitsystems.js:786-1093 | a tick over the state computes exactly Ticked, keeps the engine invariant and leaves every flag clear |
| TransitSystems.Rebuilt | transitsystems.js:459-744 | the update's blocks compute exactly Updated and keep the engine invariant under the new counters |
| TransitSystems.FirstBuilt | transitsystems.js:37-413 | the constructor's state meets the engine invariant under the first counters, with each pool at its configured size |
| TransitSystems.TransitSystem.constructor | transitsystems.js:37-413 | a new system meets its invariant, with the first counters, an empty event queue, the history flag raised and each pool at its configured size |
| TransitSystems.TransitSystem.Loaded | transitsystems.js:196-210 | a loader callback appends n fresh clones to its kind's pool, raises the history flag and changes nothing else |
| TransitSystems.TransitSystem.Update | transitsystems.js:416-769 | update stores exactly the rebuild and counters of Updated, keeps the model counter and the event queue, and keeps the invariant |
| TransitSystems.TransitSystem.Tick | transitsystems.js:786-1093 | a tick computes exactly Ticked on the current state and writes only the flag table |
| TransitSystems.TransitSystem.Commit | transitsystems.js:1138-1150 | storing a tick keeps the invariant, lowers the history flag and clears every hasChanged flag |
| TransitSystems.TransitSystem.Animate | transitsystems.js:771-1151 | animate leaves exactly Ticked's state, appends its log, drains exactly the due events, lowers the history flag, clears every hasChanged flag and keeps the invariant |
| Launchers.KindIndex | launcher.js:32-40 | every launcher kind has its list at one place of the seven, and that place holds that kind |
| Launchers.NewReferenceFrameEmpty | launcher.js:26-44 | a new reference frame has no window, neither current nor remembered, and its wedges each hold the seven kind lists in order, all empty |
| Launchers.PairTimeNext | launcher.js:555 | each pair is launched tInc after the one before |
| Launchers.PairCount | launcher.js:555-558 | the loop makes n <= 50 pairs, every one of them at a time before the trajectory's duration, and stops at the first time that is not, unless it reached 50 |
| Launchers.PairCountUnique | launcher.js:555-558 | any count with these two properties is the loop's count |
| Launchers.PairCountEdges | launcher.js:555-558 | no pair when the duration is not after -0.02 s; 50 pairs when the spacing is not positive and the duration is after -0.02 s |
| Launchers.Launched | launcher.js:556-557 | one object per pair |
| Launchers.LaunchedNext | launcher.js:556-557 | the next pair adds one object at -t, borrowing from the given pool and holding no model |
| Launchers.LaunchedUnheld | launcher.js:556-557 | the launched objects hold no model |
| Launchers.AddPairs | launcher.js:555-558 | the loop makes PairCount pairs, the sleds borrowing from the sled pool and the vehicles from the vehicle pool |
| Launchers.AddTubes | launcher.js:611-623 | n tubes and n rails at (i + 0.5)/n, each owning a fresh model, numbered in creation order |
| Launchers.AddScrewPair | launcher.js:632-638 | a left and a right screw at one position, each owning a fresh clone |
| Launchers.AddScrews | launcher.js:625-644 | only min(20, n) screw segments are built, each with two screws and a bracket at (i + 0.5)/n less half a bracket, all owning fresh models in creation order |
| Launchers.AddScrewStep | launcher.js:629-643 | one screw segment extends the screws by a left and right pair and the brackets by one, with three fresh models |
| Launchers.ScrewsNext | launcher.js:632-638 | the screws of the first i + 1 segments are those of the first i plus the two of segment i |
| Launchers.AddEvacuated | launcher.js:647-656 | n evacuated tubes at (i + 0.5)/n, each owning a fresh model |
| Launchers.UnheldModels | launcher.js:556-557 | objects without a model contribute none |
| Launchers.PopulatedRefs | launcher.js:553-656 | the constructor's objects borrow only from its two pools |
| Launchers.PopulatedFrom | launcher.js:553-656 | the lists the constructor's loops build form the populated wedge |
| Launchers.FillWedge | launcher.js:553-656 | the constructor's loops fill the single wedge with Populated, and the models in it are exactly those made after the 2n pair clones |
| Launchers.BuiltAccounts | launcher.js:555-603 | the wedge's models and the two pools of pair clones together are every model made, once each |
| Launchers.Built | launcher.js:532-656 | the constructor builds one frame with its populated wedge, a vehicle pool and a sled pool of n fresh clones each (sleds cloned first), and meets the launcher invariant |
| LauncherEngine.InView | launcher.js:1231-1232 | one window per frame |
| LauncherEngine.InViewFits | launcher.js:1231-1232 | every frame's window this tick, 0 .. numWedges-1, is well formed |
| LauncherEngine.TickExact | launcher.js:1231-1272 | every wedge is updated on every tick, a wedge is assigned exactly when its frame had no window before, and nothing is ever removed |
| LauncherEngine.QuietOnceSeen | launcher.js:1251-1272 | once every frame has had a window, a tick assigns and removes nothing |
| LauncherEngine.SecondTickQuiet | launcher.js:1212-1445 | after the first tick, the following tick assigns and removes nothing, whatever the changed classes |
| LauncherEngine.SeesOne | launcher.js:1231-1232 | with one wedge, a window covers it exactly when the window is visible at all |
| LauncherEngine.ClassifiedKeeps | launcher.js:1222-1299 | classification keeps the frames' models, shape and pool references, and leaves each window remembered |
| LauncherEngine.TickConserves | launcher.js:1212-1445 | a tick only adds models, exactly the clones it makes, numbered from the old counter |
| LauncherEngine.TickKeeps | launcher.js:1212-1445 | a tick keeps the frames' shape, phase, range and pool references, whole-frame windows current and remembered, and adds exactly two empty pools, which become the launcher's vehicle and sled pools |
| LauncherEngine.TickPlacements | launcher.js:1335-1409 | placements are first those of the assign pass, only of static unchanged kinds in assigned wedges, then exactly those of the update pass, which places every object holding a model whatever its class |
| LauncherEngine.TickOK | launcher.js:1212-1445 | a tick keeps the launcher invariant, and its new vehicle and sled pools are in the table |
| LauncherEngine.Step | launcher.js:1222-1409 | the tick over the state computes exactly Ticked, keeps the invariant and leaves every flag clear |
| LauncherEngine.Launcher.constructor | launcher.js:532-656 | a new launcher holds exactly what Built makes, time 0, an empty log, and its own pools as vehicle and sled pools |
| LauncherEngine.Launcher.Tick | launcher.js:1219-1409 | a tick computes exactly Ticked on the current state and writes only the flag table |
| LauncherEngine.Launcher.Commit | launcher.js:1224-1430 | storing a tick keeps the invariant, sets the frame time only when either animation is on, and clears the hasChanged flags of every class but the evacuated tube's |
| LauncherEngine.Launcher.Animate | launcher.js:1212-1445 | animate leaves exactly Ticked's state and placements, appends its log, rebinds the two pools, sets the time as the flags say and clears the hasChanged flags |

## Left out

- Geometry, rendering and floating point: positions, speeds and phases are reals. Placement records only which object is placed with which model. Visibility (`model.visible`) is not modelled.
- The camera's nearest track position, its distance to the ring and the ring's circumference are inputs of a tick (`View`), because they come from three.js transforms. The collector-lane motion profile (`calcTrackPosition`) is an input phase too.
- Math.random is the parameter `random`, whose draws are assumed to lie in [0, 1).
- The asset loaders' asynchronous arrival is modelled by calling `TransitSystem.Loaded` at any point between ticks. The synchronous callbacks inside the constructor are filled in order.
- Timer events carry only their trigger times, because the source only drops them.
- The per-class `update` methods, the `refFrame.update()` calls and the frame speeds of `transitSystem.update` are left out, because they set only geometry. The classes they mark as changed are the parameter `marked`.
- Each class's static `isDynamic` and `hasChanged` flags are the sets `dynamic` and `changed`.
- The habitat mesh generation and the elevator-car start offset at the end of `transitSystem.update` are left out, because they only set geometry.
- `tram.vehicleReferenceFrameTrackPositionCalculator`, `tram.elevatorPositionCalculator`, the model classes and the virtual-object classes are not part of this model, apart from their pool references and models.
- `launcher.update` and the launcher's geometry and curves are left out. The animate flags are constructor parameters.
- A rebuild builds each block's new objects as a sequence and then pushes them in order. The source creates and pushes them one at a time; the two agree because creating an object changes nothing else.
- The remove branch of the launcher's animate (launcher.js:1320-1332), with its `hasElement` test, is not modelled. `LauncherEngine.TickExact` proves its list is always empty.
- Wedges.Release: an object without a pool keeps its model instead of throwing, as the source would on a missing `unallocatedModels`.
- Wedges.AssignObject: an object without a pool is left alone, where the source would throw.
- LauncherEngine.Launcher.Animate: when the assign pass finds a model already held, the source re-sets its visibility (launcher.js:1361-1363). This is not modelled.
- TransitSystems.TransitSystem.Animate: the `invalidateWedgeHistory` flag is lowered when the tick is stored. The source lowers it before classifying (transitsystems.js:850-855); nothing reads it in between.
- The rebuild builds facilities and cables with the intended terminus test, not the code's `prevFloorS = -1` start (see Findings). With no ring termini, the model's update therefore does not build the stray ring terminus, ground terminus and elevator car at stop 0, nor the stray cable made when the cable counter falls to 0. `TransitItems.AsWrittenStrayFacilities` states what the code's own lists hold in that case; `TransitItems.AsWrittenAgrees` shows the two tests build the same lists whenever there is a ring terminus. The following members are stated for the intended test only.
- TransitItems.FacilityCounts: the counts equal the counters for the intended test; for the code's test this holds only with at least one ring terminus (`AsWrittenAgrees`), and at nt = 0 the counts are those of `AsWrittenStrayFacilities`.
- TransitRebuild.ItemListsOK: the facility and cable counts it states are those of the intended test.
- TransitRebuild.FacilityBlockOK: "no object of a kind whose new counter is zero" holds for the intended test; the code at nt = 0 makes a ring terminus, a ground terminus and an elevator car whose counters are 0.
- TransitRebuild.CableBlockOK: "no cable when the new counter is zero" holds for the intended test; the code makes a stop-0 cable when the cable counter falls from k > 0 to 0.
- TransitRebuild.BlocksOK: it includes the facility and cable block properties of the intended test.
- TransitRebuild.UpdatedAccounted: it holds for the rebuild with the intended terminus test, and it requires the new track counts to be those of construction (see the next lines).
- TransitSystems.TransitSystem.Update: the numbers of upward and outward tracks must be the ones the system was constructed with. The source rereads them on every update (transitsystems.js:570-571, 581-582), and only the track-segment counter decides whether the track block runs. When they shrink, its teardown visits only the remaining track kinds, so the dropped tracks' segments stay in frame 4 with their models. When they grow, it indexes track pools and wedge lists that were never made, and throws. Neither case is modelled.
- TransitSystems.Rebuilt: the same fixed track counts as `TransitSystems.TransitSystem.Update`, so neither the shrink nor the grow case is covered.
- TransitSystems.UpdateOK: the same fixed track counts as `TransitSystems.TransitSystem.Update`, so neither the shrink nor the grow case is covered.
- The stationary-ring block compares a counter field that is never set (transitsystems.js:664). The model follows the code, so this block always counts as changed.
- When `removeOldVirtualObjects` meets a wedge with no list of the kind, it logs an error. The model records this as a `NotFound` log entry, but no lemma states what the log holds.

## Findings

| source | as written | input that shows it | evidently intended | confidence | as-written member | corrected member |
|---|---|---|---|---|---|---|
| transitsystems.js:541-555 | `prevFloorS` starts at -1, so stop 0 always takes the terminus branch, even with no ring termini | numVirtualRingTerminuses = 0, numVirtualHabitats = 2, all shown: the facilities block (run because the habitat counter changes) gives stop 0 a ring terminus, a ground terminus and an elevator car and stop 1 the only habitat, while the counters record 0, 0, 0 and 2; the cable block gives stop 0 a cable only when it runs, that is when the cable counter falls from k > 0 to 0; a later update never tears the strays down | with nt = 0 every stop is a habitat stop, and there are exactly nt terminus stops | not executed | TransitItems.AsWrittenStrayFacilities | TransitItems.FacilityCounts |
