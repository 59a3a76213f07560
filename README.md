# PlanMapper core in Dafny

PlanMapper is a browser editor that turns a building's SVG floor plan into navigation data:

- Rooms are polygons traced from SVG paths.
- Doors ("room intersections") join two rooms.
- Floor intersections (stairs, elevators) link floors to each other.
- Coordinate references tie map points to GPS positions and give the map its metres-per-unit scale.

A floor is exported as a JSON `MapData` or as an extruded 3-D OBJ mesh. Floors are grouped into building bundles, and buildings into campus bundles.

This project models and proves the core of that editor:

- **Geometry helpers of `src/utils.ts`:**
  - turning SVG shapes into points
  - the even-odd point-in-polygon test
  - the map centre and the GPS-derived scale
  - the four-direction raycast that finds the room under a click
  - door generation between adjacent rooms
  - loading and normalising a saved map
  - the most-frequent-element vote
- **The OBJ generator of `src/meshGenerator.ts`:** polygon cleaning, extrusion of each room into vertices and faces, and the global vertex numbering.
- **The editing operations and the floor-linking workflow of `src/MapContainer.tsx`:**
  - deleting rooms, doors and floor links
  - setting a GPS reference
  - drawing a door by hand
  - dropping data whose SVG path disappeared
  - re-keying rooms after the SVG changed
  - the step machine that links a stair on one floor to a stair on another by alternately loading both floors
- **The bundle list editing of `src/BuildingBundleCreator.tsx` and `src/CampusBundleCreator.tsx`.**

Pure code of the source (array maps, filters, finds, switch statements) is written as functions and lemmas. Code that loops and accumulates is written as methods with loop invariants, each proved equal to a specification function whose properties are lemmas: `polyCheck`, `calculateMapCenter`, `calculateScale`, `cleanPolygon`, `generateObj`, `generateObjFromRoom`, `mostFrequentArrayElement`, the raycast loops, `findAllPathIntersections`, `createExtendedPolygon`, `clearOldData` and `portPathData`.

The React component's state lives in the class `FloorLinkingSession.MapEditor`. Its methods are the event handlers and effects of the floor-linking workflow, each specified as a transition function on an `EditorState` value.

Services the core calls but does not define are parameters of the model:

| service | parameter |
|---|---|
| line/polygon intersection (kld-intersections) | `intersect`, `hits` |
| `earcut` triangulation | `earcut`, constrained by `Mesh.IsTriangulator` |
| GPS distance between two coordinates (`src/geodistance.ts`) | `gps` |
| `Math.sqrt` | `sqrt` |
| `uuidv4` | `uuid: nat -> string`, or an explicit `freshId` |

JavaScript `number`s that are coordinates are `real`. Counters, indices, floor numbers and versions are `int`/`nat`. `calculateScale`'s possible `NaN` is the datatype `Scale.JsNumber`.

The modules are:

| module | file | models |
|---|---|---|
| `Dto` | dto.dfy | the data types of `src/dto.ts`, `Option`, `??` |
| `Lists` | lists.dfy | `filter`, `find`, `findIndex` |
| `Vectors` | vectors.dfy | re-basing, distance, equality, midpoint |
| `Shapes` | shapes.dfy | SVG rect/path to points |
| `PolygonContainment` | polycheck.dfy | `polyCheck` |
| `MapCenter` | mapcenter.dfy | `calculateMapCenter` |
| `Scale` | scale.dfy | `calculateScale` |
| `Frequency` | frequency.dfy | `mostFrequentArrayElement` |
| `Raycast` | raycast.dfy | `findEnclosingPath` and `findEnclosingPathWithDirection` |
| `Adjacency` | adjacency.dfy | `createExtendedPolygon`, `findAllPathIntersections`, the intersection constructors |
| `MapLoading` | maploading.dfy | `loadMapData` |
| `Mesh` | mesh.dfy | `meshGenerator.ts` |
| `MapEditing` | mapediting.dfy | the `MapData` updates of `MapContainer.tsx` |
| `FloorLinkingSession` | floorlinking.dfy | the floor-linking state machine |
| `BuildingBundle` | buildingbundle.dfy | `BuildingBundleCreator.tsx` |
| `CampusBundle` | campusbundle.dfy | `CampusBundleCreator.tsx` |

## Model

| member | source | states |
|---|---|---|
| Vectors.CenterAndScaleVector | src/utils.ts:146-148 | re-basing with a non-zero scale can be undone: the original point is `center + r / scale`; scale 1 is a pure translation; the centre maps to the origin |
| Vectors.SquaredDistanceZeroIff | src/utils.ts:461-465 | `dx*dx + dy*dy` is never negative, is positive for distinct points and is zero for equal ones |
| Vectors.DistanceZeroIffEqual | src/utils.ts:461-469 | for any square root that is zero only at zero, `getVectorDistance(a, b) == 0` exactly when `areVectorsEqual(a, b)` |
| Vectors.AreVectorsEqual | src/utils.ts:467-469 | field-wise exact comparison coincides with equality of the two points (no tolerance) |
| Vectors.Midpoint | src/MapContainer.tsx:423-424 | the door point is equidistant on each axis from the two hit points |
| Shapes.PenStep | src/utils.ts:70-100 | relative commands add to the pen, `H`/`h` keep y, `V`/`v` keep x, and an unhandled command leaves the pen where it was |
| Shapes.PathPoints | src/utils.ts:62-104 | one point is emitted per handled command (no more than there are commands) |
| Shapes.PathCompose | src/utils.ts:62-104 | walking a path in two pieces gives the pen and points of walking it whole |
| Shapes.EmittedPointIsPen | src/utils.ts:62-104 | the point emitted for the k-th handled command is the pen position right after that command |
| Shapes.UnsupportedIsSkipped | src/utils.ts:70-100 | a command the switch does not handle (curves, arcs, `Z`) adds no point and does not move the pen |
| Shapes.RetrievePointsFromPath | src/utils.ts:62-104 | the loop over commands with a running pen yields exactly the points of the path walked from the origin |
| Shapes.RetrievePointsFromSquare | src/utils.ts:48-59 | the corners (x, y), (x, y + height), (x + width, y + height), (x + width, y), in that order: the first and third are stated outright, and each neighbouring pair shares one coordinate |
| Shapes.RetrievePointsFromShape | src/utils.ts:37-45 | rects give their four corners, paths their walked points, any other shape no points |
| PolygonContainment.PolyCheck | src/utils.ts:106-116 | the toggling loop computes the parity of the edges crossed by the ray to the right; an empty polygon contains nothing |
| PolygonContainment.RotationInvariant | src/utils.ts:106-116 | the answer does not depend on which vertex the polygon starts at |
| PolygonContainment.VerticalEdge | src/utils.ts:110-111 | a vertical edge is crossed exactly when it straddles the point's y and lies to its right |
| PolygonContainment.RectangleContainment | src/utils.ts:106-116 | for a rectangle's corner list, containment is exactly `x <= v.x < x+w && y <= v.y < y+h` |
| PolygonContainment.UnitSquare | src/utils.ts:106-116 | the centre of the unit square is inside it, a point to its right is not |
| MapCenter.Grow | src/utils.ts:154-169 | the widened box contains every point and the old box, and each bound is either the old bound or a point's coordinate |
| MapCenter.BoxOf | src/utils.ts:150-169 | the bounding box of a non-empty point list contains all points and each of its four bounds is attained |
| MapCenter.Flatten | src/utils.ts:152 | the first point of all rooms' points is the first point of the first room |
| MapCenter.WidenByRoom | src/utils.ts:155-168 | the inner loop's min/max updates give the box grown by that room's points |
| MapCenter.CalculateMapCenter | src/utils.ts:150-173 | the nested loops started at `rooms[0].points[0]` compute the centre of the bounding box of all room points |
| MapCenter.CenterIsInsideBox | src/utils.ts:172 | the centre lies in the box, halfway between its bounds on both axes |
| MapCenter.UnitSquareCenter | src/utils.ts:150-173 | the unit square's map centre is (0.5, 0.5) |
| Scale.CalculateScale | src/utils.ts:242-267 | the pair loops compute the mean of the ratios over usable pairs, or 1 for fewer than two references; it is NaN when no pair is usable (see Findings) |
| Scale.ScanRow | src/utils.ts:251-264 | the inner loop's sum and iteration count are those of row i's usable pairs |
| Scale.ScaleIsNaNIffNoUsablePair | src/utils.ts:242-267 | the result is NaN exactly when there are at least two references and every pair is skipped |
| Scale.ScaleIsBetweenRatios | src/utils.ts:250-266 | with a usable pair, the scale is a number lying between the smallest and the largest ratio |
| Scale.ConsistentReferencesGiveTheirRatio | src/utils.ts:250-266 | when every usable pair has the same ratio, the scale is that ratio |
| Scale.SameMapPointGivesNaN | src/utils.ts:266 | two references with the same map point give NaN: the as-written defect |
| Scale.CalibratedScale | src/utils.ts:242-267 | the corrected scale: the mean of the ratios when there is one, otherwise 1 |
| Scale.CalibratedScaleWithoutUsablePair | src/utils.ts:244-266 | with no usable pair the corrected scale is 1, whatever the number of references |
| Frequency.Keys | src/utils.ts:225-228 | the map's keys in insertion order: each element once, and every element of the array among them |
| Frequency.Best | src/utils.ts:230-237 | the strict-`>` selection picks a key of maximal count, the first one in key order among ties |
| Frequency.CountFrequencies | src/utils.ts:225-228 | the counting loop yields the keys in first-appearance order and for each its number of occurrences |
| Frequency.MostFrequentArrayElement | src/utils.ts:224-240 | the two loops return the specified most frequent element |
| Frequency.MostFrequentIsNoneIffEmpty | src/utils.ts:224-240 | there is no answer exactly for the empty array; otherwise the answer is an element of it |
| Frequency.MostFrequentIsMaximal | src/utils.ts:224-240 | no element occurs more often than the answer |
| Frequency.MostFrequentPrefersEarliest | src/utils.ts:230-237 | among equally frequent elements the answer appears no later than any of them |
| Raycast.HitsAt | src/utils.ts:301-307 | the paths collected for one probe line are exactly those the line hits |
| Raycast.DefaultGridIsEven | src/utils.ts:295-298 | with the default step 2 the probed offsets are exactly the even ones from the start |
| Raycast.FirstHit | src/utils.ts:298-312 | the first probed offset below the limit at which some path is hit; no earlier probed offset hits anything |
| Raycast.ProbeIsFirstHit | src/utils.ts:295-314 | one direction's search returns the hits at the first hitting offset, or nothing |
| Raycast.CollectHits | src/utils.ts:301-307 | the inner loop collects the hit paths in order |
| Raycast.FindEnclosingPathWithDirection | src/utils.ts:295-314 | the outer loop with its early exit returns the specified probe result |
| Raycast.Direction | src/utils.ts:272-274 | each of the four directions is an axis direction |
| Raycast.KeepIn | src/utils.ts:278-280 | the running candidate set is narrowed to the paths found in the new direction |
| Raycast.InsideOnly | src/utils.ts:291 | the final filter keeps exactly the candidates whose polygon contains the point |
| Raycast.FindEnclosingPath | src/utils.ts:269-293 | the direction loop with running intersection, early return and final vote computes the specified result |
| Raycast.RunningInPaths | src/utils.ts:278-280 | every running candidate is one of the input paths |
| Raycast.ProbeInPaths | src/utils.ts:295-314 | every path a probe returns is one of the input paths |
| Raycast.EnclosingIsSound | src/utils.ts:269-293 | a returned path is one of the input paths and its polygon contains the clicked point |
| Raycast.EnclosingIsNoneIff | src/utils.ts:269-293 | nothing is returned exactly when no direction is decisive and no final candidate contains the point |
| Raycast.HitsAtDistinct | src/utils.ts:301-307 | collecting hits never duplicates a path |
| Raycast.ProbeDistinct | src/utils.ts:295-314 | a probe's result has no duplicates when the input has none |
| Adjacency.ScaledAbout | src/utils.ts:393-398 | scaling about a centre keeps the number of points |
| Adjacency.Extended | src/utils.ts:380-402 | the extended polygon has as many points as the room |
| Adjacency.CreateExtendedPolygon | src/utils.ts:380-402 | the centroid loop and the map compute the specified extended polygon |
| Adjacency.ExtendedByOne | src/utils.ts:380-402 | a factor of 1 leaves the polygon unchanged |
| Adjacency.ExtendedKeepsMeanX | src/utils.ts:384-398 | extending never moves the mean x |
| Adjacency.ExtendedKeepsMeanY | src/utils.ts:384-398 | extending never moves the mean y |
| Adjacency.ExtendedKeepsCentroid | src/utils.ts:380-402 | the extended polygon has the same centroid as the room |
| Adjacency.FindPath | src/utils.ts:334-338 | the path with the room's `pathId`, or none when no path has it |
| Adjacency.Midpoints | src/utils.ts:343-350 | one door point per pair of hit points, the odd last point kept alone |
| Adjacency.MidpointsAt | src/utils.ts:343-350 | door point k is the midpoint of hit points 2k and 2k+1, or hit point 2k when it is the last |
| Adjacency.DoorsBetween | src/utils.ts:343-350 | each door point becomes a door from room i to room j |
| Adjacency.PairDoors | src/utils.ts:330-352 | a room whose path is missing gets no doors; every door joins rooms i and j |
| Adjacency.GenerateIntersection | src/utils.ts:358-368 | the door carries the given id, rooms and position |
| Adjacency.GenerateFloorIntersection | src/utils.ts:370-378 | a new floor link has the given id, origin room, kind and position, and no targets |
| Adjacency.PushDoors | src/utils.ts:343-350 | the pairwise loop appends the labelled doors for the midpoints of the hit points |
| Adjacency.FindAllPathIntersections | src/utils.ts:324-356 | the nested loops emit, in order, the labelled doors of every pair i < j |
| Adjacency.ScanLaterRooms | src/utils.ts:330-352 | the inner loop over j appends the doors of row i |
| Adjacency.VisitPair | src/utils.ts:333-351 | one iteration appends the doors of pair (i, j) |
| Adjacency.DoorsJoinEarlierToLater | src/utils.ts:324-356 | every generated door joins an earlier-listed room to a later one |
| Adjacency.LabelIdsDistinct | src/utils.ts:358-368 | with an injective id supply, all generated doors have distinct ids |
| MapLoading.LoadMapData | src/utils.ts:175-190 | missing id, version, references and floor links get their defaults; the rooms keep their ids and points; the other fields pass through |
| MapLoading.NormalisedRoomFields | src/utils.ts:182-188 | a room's falsy `pathId` becomes its id, falsy notes become "", and a room with a code keeps code and name |
| MapLoading.LegacyNameMigration | src/utils.ts:184-188 | a room without code whose name contains a digit followed by a dot gets that name as its code and an empty name; other rooms without code get code "" |
| MapLoading.NormaliseRoomIdempotent | src/utils.ts:182-188 | normalising a normalised room changes nothing |
| MapLoading.Export | src/utils.ts:130-144 | saving keeps the id, the version and the rooms |
| MapLoading.ReloadIsIdentity | src/utils.ts:175-190 | saving a loaded map and loading it again gives back the same map |
| MapLoading.LegacyExample | src/utils.ts:184-188 | a room named "1.04" without code loads with code "1.04" and empty name |
| Mesh.Dedup | src/meshGenerator.ts:81-87 | dropping repeated neighbours keeps the first and the last point |
| Mesh.Rebased | src/meshGenerator.ts:86 | centring and scaling keeps the number of points |
| Mesh.Cleaned | src/meshGenerator.ts:77-97 | the cleaned polygon is closed, starts with the re-based deduplicated points and adds at most one closing point |
| Mesh.CleanPolygon | src/meshGenerator.ts:77-97 | the loop and the closing step compute the specified cleaned polygon |
| Mesh.ClosedExactlyWhenOpen | src/meshGenerator.ts:90-94 | the first point is appended exactly when the deduplicated polygon was not already closed |
| Mesh.DedupHasNoRepeats | src/meshGenerator.ts:81-87 | after cleaning, no two neighbouring points are equal |
| Mesh.DedupKeepsPoints | src/meshGenerator.ts:81-87 | cleaning removes no distinct point and invents none |
| Mesh.DedupOfDistinctNeighbours | src/meshGenerator.ts:81-87 | a polygon without repeated neighbours is unchanged |
| Mesh.Flat | src/meshGenerator.ts:73 | flattening yields two coordinates per point |
| Mesh.FlatAt | src/meshGenerator.ts:73 | entries 2k and 2k+1 are point k's x and y |
| Mesh.Header | src/meshGenerator.ts:27-28 | each room block starts with its group line named by the room id |
| Mesh.BottomVertices | src/meshGenerator.ts:31-32 | one bottom vertex per cleaned point |
| Mesh.TopVertices | src/meshGenerator.ts:31-32 | one top vertex per cleaned point |
| Mesh.NextIsMod | src/meshGenerator.ts:39-42 | the side face's next index is `(i + 1) % n` |
| Mesh.SideFaces | src/meshGenerator.ts:39-42 | one side quad per cleaned point |
| Mesh.BottomFaces | src/meshGenerator.ts:49-54 | one bottom face per earcut triangle |
| Mesh.TopFaces | src/meshGenerator.ts:58-63 | one top face per earcut triangle |
| Mesh.TopCapMirrorsBottomCap | src/meshGenerator.ts:49-63 | each top face is its bottom face lifted by n with the winding reversed |
| Mesh.GenerateObjFromRoom | src/meshGenerator.ts:21-68 | the room's block is the specified extrusion of its cleaned polygon, and the offset grows by two vertices per cleaned point |
| Mesh.ExtrudeRoom | src/meshGenerator.ts:26-66 | header, vertices, side and cap faces are emitted in that order, and the new offset follows |
| Mesh.EmitVertices | src/meshGenerator.ts:31-32 | the vertex loop appends one vertex per point |
| Mesh.EmitSides | src/meshGenerator.ts:39-42 | the side loop appends the side quads |
| Mesh.EmitCap | src/meshGenerator.ts:49-63 | the triangle loop appends the bottom faces, or the top ones with reversed winding |
| Mesh.Outlines | src/meshGenerator.ts:13-14 | one cleaned outline per room |
| Mesh.OffsetAt | src/meshGenerator.ts:12-16 | vertex offsets start at 1 (OBJ indices are one-based) |
| Mesh.OffsetsIncrease | src/meshGenerator.ts:12-16 | each room's vertex range ends before the next room's starts |
| Mesh.GenerateObj | src/meshGenerator.ts:5-19 | the room loop concatenates every room's block, numbered from offset 1, centred on the map centre and scaled by the calibrated scale |
| Mesh.EmitRooms | src/meshGenerator.ts:12-17 | the room loop threads the vertex offset from room to room |
| Mesh.RoomBlockVertices | src/meshGenerator.ts:21-68 | a room block's vertices are its bottom ring then its top ring, 2n of them |
| Mesh.RoomBlockFaceBounds | src/meshGenerator.ts:21-68 | every face index of a room block lies in that room's own vertex range |
| Mesh.SideFaceBounds | src/meshGenerator.ts:39-42 | side quads index only the room's ring vertices |
| Mesh.CapBounds | src/meshGenerator.ts:49-63 | bottom faces index the bottom ring, top faces the top ring |
| Mesh.VertexNumbering | src/meshGenerator.ts:5-19 | after k rooms the file holds exactly `offset(k) - 1` vertices |
| Mesh.FacesReferToOwnVertices | src/meshGenerator.ts:5-19 | global vertex number v of room k is the right vertex of that room's own block, so faces point at their own room's vertices |
| MapEditing.DeleteRoom | src/MapContainer.tsx:1025-1040 | the room goes, with every door touching it; nothing else changes |
| MapEditing.DeleteUnknownRoom | src/MapContainer.tsx:1025-1040 | deleting an id that nothing mentions leaves the map unchanged |
| MapEditing.DeleteRoomIdempotent | src/MapContainer.tsx:1025-1040 | deleting twice is deleting once |
| MapEditing.DeleteIntersection | src/MapContainer.tsx:1042-1054 | exactly the doors with that id go |
| MapEditing.DeleteFloorIntersection | src/MapContainer.tsx:1056-1068 | exactly the floor links with that id go |
| MapEditing.SetNewLatitudeLongitude | src/MapContainer.tsx:890-915 | other vertices' references are kept; the vertex has a reference exactly when the GPS point is not (0, 0), and then it holds that point; the new scale is `calculateScale`'s value on the new references whenever that is a number, and the corrected unit scale where the source would store NaN |
| MapEditing.SetNewLatitudeLongitudeKeepsOnePerVertex | src/MapContainer.tsx:890-915 | at most one reference per map point is preserved |
| MapEditing.SetNewLatitudeLongitudeIdempotent | src/MapContainer.tsx:890-915 | setting the same GPS point twice is setting it once |
| MapEditing.FindOrCreateRoomData | src/MapContainer.tsx:681-701 | an existing room with that path is returned with the map unchanged; otherwise a new room with the path's points is appended |
| MapEditing.FindOrCreateRoomDataIdempotent | src/MapContainer.tsx:681-701 | a second lookup finds the room the first created and changes nothing |
| MapEditing.ManualDoor | src/MapContainer.tsx:414-425 | a door is made exactly when both rays hit, joining the start room to the end room at the midpoint of the two hits |
| MapEditing.DrawDoorAsWritten | src/MapContainer.tsx:397-432 | the save as written restores the stale room list |
| MapEditing.DrawDoorAsWrittenLosesNewRoom | src/MapContainer.tsx:428-431 | a door drawn to an unregistered room refers to a room the saved map does not contain |
| MapEditing.DrawDoor | src/MapContainer.tsx:397-432 | the corrected save keeps the map returned by the room lookup and changes only the doors |
| MapEditing.DrawDoorJoinsExistingRooms | src/MapContainer.tsx:397-432 | the new door is appended, old doors and rooms are kept, and both its rooms exist in the saved map |
| MapEditing.StaleKeys | src/MapContainer.tsx:1265-1296 | the ids collected by a loop are exactly those of the stale elements |
| MapEditing.DropStale | src/MapContainer.tsx:1265-1296 | a loop of successive functional filter updates removes every element whose id was found stale |
| MapEditing.ClearOldData | src/MapContainer.tsx:1259-1297 | the three loops of updates give the specified cleared map |
| MapEditing.ClearedRoomsAreDrawn | src/MapContainer.tsx:1265-1273 | every remaining room's path is drawn, and a room stays exactly when every room sharing its id has a drawn path |
| MapEditing.ClearedDoorsAndLinksHaveDrawnRooms | src/MapContainer.tsx:1275-1296 | every remaining door's first room and every remaining floor link's origin room exist and are drawn |
| MapEditing.ClearOldDataKeepsCleanMap | src/MapContainer.tsx:1259-1297 | a map whose rooms are all drawn and whose references resolve is unchanged |
| MapEditing.ClearOldDataIgnoresSecondRoom | src/MapContainer.tsx:1276-1277 | a door whose second room is missing survives, because both lookups use `roomId1` |
| MapEditing.RenameRoom | src/MapContainer.tsx:1248-1255 | one update re-keys the room with the old id, relabels the doors and drops the floor links |
| MapEditing.PortPathData | src/MapContainer.tsx:1239-1257 | the loop of successive updates applies one re-keying per room |
| MapEditing.PortedRooms | src/MapContainer.tsx:1239-1257 | with distinct room ids and fresh new ids, room i ends up with new id `uuid(i)` and is otherwise unchanged |
| MapEditing.PortedDoors | src/MapContainer.tsx:1239-1257 | each door's room ids are mapped to those rooms' new ids; ids of unknown rooms are kept |
| FloorLinkingSession.InitialState | src/MapContainer.tsx:75-86 | the editor starts in room mode with raycast settings 300/2 and no map, loaded data or linking context |
| FloorLinkingSession.ZipBasicBundle | src/MapContainer.tsx:974-996 | no files without map data and SVG; otherwise map.json, settings.json and optionally vector.svg |
| FloorLinkingSession.RegeneratedSnapshot | src/MapContainer.tsx:925-932 | the snapshot holds the loaded SVG's text under the name "vector.svg", takes the overriding map when given, and keeps the loaded settings only for an override |
| FloorLinkingSession.StartFloorLinking | src/MapContainer.tsx:135-152 | entering floor linking starts at step 0 with nothing selected, the current floor primary and the other floor secondary |
| FloorLinkingSession.SwitchFillsSlotOfParity | src/MapContainer.tsx:509-532 | an even step saves the current floor into the primary slot, an odd step into the secondary; the step advances and only the given selections change |
| FloorLinkingSession.AddTarget | src/MapContainer.tsx:463-474 | the target is appended to the floor links with that id and nothing else changes |
| FloorLinkingSession.AddTargetToUnknownIntersection | src/MapContainer.tsx:463-474 | adding a target to an id no floor link has changes nothing |
| FloorLinkingSession.PickAtStepZero | src/MapContainer.tsx:455-457 | at step 0 a click on a floor link selects it as primary, saves the floor and moves to step 1 |
| FloorLinkingSession.PickAtStepOne | src/MapContainer.tsx:458-476 | at step 1 a click with a primary selected records the link on this floor, selects the secondary and moves to step 2; without a primary it does nothing |
| FloorLinkingSession.PickOtherwiseIgnored | src/MapContainer.tsx:439-479 | a click on nothing, on an unknown floor link or at a later step changes nothing |
| FloorLinkingSession.SyncLoadedData | src/MapContainer.tsx:487-493 | step 1 loads the secondary floor, step 2 and later the primary, other states nothing |
| FloorLinkingSession.RemoveFirst | src/MapContainer.tsx:246 | replacing the first occurrence of a pattern by "" removes it once or not at all |
| FloorLinkingSession.ReloadCompletesLink | src/MapContainer.tsx:222-240 | at step 2 the reload adds the reverse target on the primary floor, saves it and resets to step 0 with nothing selected |
| FloorLinkingSession.LeaveFloorLinking | src/MapContainer.tsx:1319-1323 | finishing drops the linking context and returns to room mode |
| FloorLinkingSession.LinkingRound | src/MapContainer.tsx:439-493 | a click on floor A, the resulting sync and reload, a click on floor B and its sync and reload link each floor link to the other and return to step 0 |
| FloorLinkingSession.MapEditor.constructor | src/MapContainer.tsx:75-86 | a new editor is in the initial state |
| FloorLinkingSession.MapEditor.EnterFloorLinking | src/MapContainer.tsx:135-152 | the handler performs the start transition on the editor's state |
| FloorLinkingSession.MapEditor.SwitchFloorLinkingMapData | src/MapContainer.tsx:509-532 | the handler performs the save-and-advance transition |
| FloorLinkingSession.MapEditor.FloorLinkingSelectionListener | src/MapContainer.tsx:439-479 | the click handler performs the selection transition |
| FloorLinkingSession.MapEditor.OnFloorLinkingContextChange | src/MapContainer.tsx:487-493 | the effect performs the sync transition |
| FloorLinkingSession.MapEditor.OnLoadedDataChange | src/MapContainer.tsx:183-266 | the effect performs the reload transition |
| FloorLinkingSession.MapEditor.FinishFloorLinking | src/MapContainer.tsx:1319-1323 | the handler performs the leave transition |
| BuildingBundle.Insert | src/BuildingBundleCreator.tsx:46 | insertion adds exactly one floor to the multiset |
| BuildingBundle.SortByNumber | src/BuildingBundleCreator.tsx:46 | sorting is a permutation |
| BuildingBundle.InsertKeepsSorted | src/BuildingBundleCreator.tsx:46 | inserting into a list sorted by number keeps it sorted |
| BuildingBundle.SortIsSorted | src/BuildingBundleCreator.tsx:46 | the result is ordered by floor number |
| BuildingBundle.InsertIsStable | src/BuildingBundleCreator.tsx:46 | the inserted floor goes after the floors with its number |
| BuildingBundle.SortIsStable | src/BuildingBundleCreator.tsx:46 | floors with equal numbers keep their relative order, as `Array.prototype.sort` guarantees |
| BuildingBundle.SortOfSorted | src/BuildingBundleCreator.tsx:46 | sorting a sorted list changes nothing |
| BuildingBundle.InsertAtEnd | src/BuildingBundleCreator.tsx:46 | a floor numbered at least all others goes last |
| BuildingBundle.NewFloor | src/BuildingBundleCreator.tsx:36-45 | the new floor takes the map's id, name and version, is numbered by the current count, and is the ground floor exactly when it is the first |
| BuildingBundle.AddFloor | src/BuildingBundleCreator.tsx:21-49 | an unparsable file or a floor id already present leaves the bundle unchanged; only the floor list changes |
| BuildingBundle.AddFloorSortsAndKeeps | src/BuildingBundleCreator.tsx:21-49 | a new floor is added once, the list stays sorted, and same-numbered floors keep their order with the new one last |
| BuildingBundle.HandleBlur | src/BuildingBundleCreator.tsx:55-60 | re-sorting is a permutation and changes nothing else |
| BuildingBundle.HandleBlurSorts | src/BuildingBundleCreator.tsx:55-60 | after a blur the floors are sorted and same-numbered floors keep their order, and a second blur changes nothing |
| BuildingBundle.HandleGroundFloorChange | src/BuildingBundleCreator.tsx:97-104 | exactly the chosen floor is the ground floor, and nothing else about any floor changes |
| BuildingBundle.UpdateFloorInfo | src/BuildingBundleCreator.tsx:106-114 | only the floor at that position is replaced |
| BuildingBundle.RemoveFloor | src/BuildingBundleCreator.tsx:116-121 | exactly the floors with that id go, and the floors that stay keep their original order: the new list reads the old one at increasing positions, which are exactly those of floors with another id |
| BuildingBundle.RemoveFloorProperties | src/BuildingBundleCreator.tsx:116-121 | removing an absent id changes nothing, and removing twice is removing once |
| CampusBundle.InitialBundle | src/CampusBundleCreator.tsx:23-28 | a new campus has a fresh id, no name, no buildings and version 1 |
| CampusBundle.LoadCampusBundle | src/CampusBundleCreator.tsx:34-39 | a loaded campus keeps its fields, with version 1 when missing |
| CampusBundle.AddNewBlankBuilding | src/CampusBundleCreator.tsx:41-51 | a blank building with a fresh id is appended after the existing ones |
| CampusBundle.UpdateBuildingInfo | src/CampusBundleCreator.tsx:81-89 | only the building at that position is replaced |
| CampusBundle.RemoveBuilding | src/CampusBundleCreator.tsx:91-96 | exactly the buildings with that id go, and the buildings that stay keep their original order: the new list reads the old one at increasing positions, which are exactly those of buildings with another id |
| CampusBundle.RemoveUndoesAdd | src/CampusBundleCreator.tsx:41-96 | removing a just-added blank building restores the bundle |
| CampusBundle.Sanitise | src/CampusBundleCreator.tsx:63 | the sanitised name holds only lower-case ASCII letters and digits |
| CampusBundle.SanitiseIdempotent | src/CampusBundleCreator.tsx:63 | sanitising twice is sanitising once |
| CampusBundle.SanitiseKeepsLettersAndDigits | src/CampusBundleCreator.tsx:63 | a character survives exactly when it is a letter or digit of the name, with upper case lowered |
| CampusBundle.DownloadName | src/CampusBundleCreator.tsx:64 | the file name is the sanitised name, an underscore and the id |
| CampusBundle.DownloadNameSplitsAtFirstUnderscore | src/CampusBundleCreator.tsx:61-65 | the first underscore of the file name separates the sanitised name from the campus id, so both can be read back |

## Left out

- The outside world:
  - Rendering, SVG.js drawing and highlighting, pointer-event plumbing, and React re-render timing are not modelled.
  - Each handler is modelled as one state transition. React's batching of `setState` calls is not modelled, except where the source relies on successive functional updates (`portPathData`, `clearOldData`); those are modelled update by update.
  - File reading, `JSON.parse`/`stringify`, zip creation, downloads (`downloadJson`, `downloadObj`, `downloadBlob`, `zipData`, `downloadMapLinkingData`) and console logging are left out as I/O. `settingsToJson` and `mapDataToJson` enter only as the value `MapLoading.Export`.
- External services:
  - The kld-intersections library is an oracle parameter (`intersect`, `hits`). Whether a ray crosses a path geometrically is therefore not modelled, and nor is the order in which the library returns points.
  - `earcut` is an oracle. `Mesh.IsTriangulator` only requires it to return index triples within the polygon; triangulation quality is not modelled.
  - `src/geodistance.ts` (the haversine numerics) is not part of this model: the GPS distance is the parameter `gps`. `Math.sqrt` is the parameter `sqrt`.
  - `uuidv4` is a supply of ids: `uuid: nat -> string` or a `freshId` argument. Uniqueness is assumed only where a lemma states it as `requires`.
- Numbers and strings:
  - Floating point is modelled as exact `real` arithmetic. Rounding, infinities and NaN are not modelled, except for `calculateScale`'s 0/0, which is the datatype `Scale.JsNumber`.
  - `toLowerCase` is limited to ASCII letters.
  - The floor comparator `a.number - b.number` is exact on `int`, so NaN floor numbers do not arise.
  - The regular expression `/\d\./` is modelled as "some ASCII digit followed by a dot".
- Data shape:
  - Reference equality in `floor === floorInfo` and `building === originalPartInfo` is modelled by list position.
  - SVG.js path objects are compared by identity in the source: `Map` keys in `mostFrequentArrayElement` and `includes` in `findEnclosingPath`. The model compares `Shape` values instead. The two agree only while no two shapes are equal, which holds while shape ids are unique.
  - Missing or falsy optional JSON fields are `Option` values, and "falsy" for a string means absent or empty.
- Crash preconditions are a `requires`:
  - `calculateMapCenter` reads `rooms[0].points[0]`.
  - `cleanPolygon` reads `cleaned[0]`.
  - `centroid` divides by the number of points.
- Inside a floor-linking session, map data in a bundle is taken as already normalised. `loadMapData`'s defaults are not applied there (src/utils.ts:175-190), so neither is `id ?? uuidv4()`, which in the source gives a map without an id a new id on every load.
- `MapEditing.SetNewLatitudeLongitude`: it stores the corrected `Scale.CalibratedScale`, where the source's `recalculateScale` (src/MapContainer.tsx:917-923) stores `calculateScale`'s result. The two agree whenever that result is a number. Where the source would store NaN (two or more references and no usable pair), the model stores 1 (see Findings).
- `Mesh.GenerateObj`: it uses the corrected `Scale.CalibratedScale` where the source calls `calculateScale`. With no usable reference pair, the source's mesh would have NaN coordinates (see Findings).
- `MapEditing.ClearOldData`: it takes a present map. Its `if (!mapData) return;` guard is a no-op on a missing map and is not modelled.
- The field handlers (`handleVersionChange`, `handleFloorIdChange`, `handleFloorNameChange`, `handleFloorNumberChange`) are all modelled by `BuildingBundle.UpdateFloorInfo` or `CampusBundle.UpdateBuildingInfo` with the changed record. Re-sorting on blur is `BuildingBundle.HandleBlur`.
- Data types and helpers outside the core:
  - `Dto` is the data model of `src/dto.ts`: its types become datatypes, which have no behaviour of their own.
  - `applyTransformationToPath` (SVG matrix flattening), `drawRulers`, `throttle`, `isMousePrimaryClick`, `replaceMap`, the downloads and `App.tsx` are not modelled: they are rendering or browser helpers.
- `Mesh.TriangulatePolygon`: it has no contract of its own beyond `Mesh.Flat`, because its output is whatever the `earcut` oracle returns.
- `Vectors.DistanceZeroIffEqual`: it relies on a square root that is zero only at zero. It says nothing else about `Math.sqrt`.

## Findings

| source | as written | input that shows it | evidently intended | confidence | as-written member | corrected member |
|---|---|---|---|---|---|---|
| src/utils.ts:242-267 | with two or more references but every pair skipped (every pair shares its map point, so `mapMeters` is 0), the function returns `totalValue / iterations` = 0/0 = NaN | two references with map point (0, 0), GPS points (0, 0) and (1, 1) | a scale of 1, as for fewer than two references | high, not executed | Scale.SameMapPointGivesNaN | Scale.CalibratedScaleWithoutUsablePair |
| src/MapContainer.tsx:428-431 | `listenerUp` calls `findOrCreateRoomData`, which appends the end room, then saves `{...mapData, intersections}` built from the earlier `mapData`; the appended room is lost while the new door refers to it | a map with only the start room; a door drawn to an SVG path that has no room yet | the map returned by the lookup, with the new door added | medium, not executed | MapEditing.DrawDoorAsWrittenLosesNewRoom | MapEditing.DrawDoorJoinsExistingRooms |

`clearOldData` looks up `roomId1` twice (src/MapContainer.tsx:1276-1277), so a door whose second room is gone is kept. The model reproduces this on purpose (`MapEditing.ClearOldDataIgnoresSecondRoom`) and it is not claimed as a finding.
