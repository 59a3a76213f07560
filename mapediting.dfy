/** The map edits of src/MapContainer.tsx. Each edit computes the record the source hands to
    `setMapData`; successive `setMapData(previous => …)` updates are applied in the order they are
    issued, and a plain `setMapData(record)` replaces whatever was queued before it. The selection the
    source reads (`currentRoom`, `currentVertex`, …) arrives as a parameter, the paths drawn from the
    SVG as the set of their ids, and `uuidv4()` as a supplied id. */
module MapEditing {
  import opened Dto
  import opened Lists
  import Vectors
  import Shapes
  import Adjacency
  import Scale

  function IdOfRoom(room: RoomData): string { room.id }
  function IdOfDoor(x: RoomIntersection): string { x.id }
  function IdOfFloorLink(x: FloorIntersection): string { x.id }
  function MapPoint(c: CoordsReference): Vector2D { c.mapPoint }

  function RoomIdIs(id: string): RoomData -> bool { (room: RoomData) => room.id == id }
  function RoomIdIsNot(id: string): RoomData -> bool { (room: RoomData) => room.id != id }
  function PathIdIs(pathId: string): RoomData -> bool { (room: RoomData) => room.pathId == pathId }
  function AvoidsRoom(roomId: string): RoomIntersection -> bool { (x: RoomIntersection) => x.roomId1 != roomId && x.roomId2 != roomId }
  function DoorIdIsNot(id: string): RoomIntersection -> bool { (x: RoomIntersection) => x.id != id }
  function FloorLinkIdIsNot(id: string): FloorIntersection -> bool { (x: FloorIntersection) => x.id != id }
  function NotAt(vertex: Vector2D): CoordsReference -> bool { (c: CoordsReference) => !Vectors.AreVectorsEqual(c.mapPoint, vertex) }

  /** findRoom: the first room with the id. */
  function FindRoom(rooms: seq<RoomData>, id: string): Option<RoomData>
  {
    Find(rooms, RoomIdIs(id))
  }

  // ---------------------------------------------------------------------------------------------
  // Deleting the selection

  /** deleteRoom: the room goes, and with it every door on either side of it; floor intersections stay. */
  function DeleteRoom(m: MapData, roomId: string): (r: MapData)
    ensures forall room :: room in r.rooms <==> room in m.rooms && room.id != roomId
    ensures forall x :: x in r.intersections <==> x in m.intersections && x.roomId1 != roomId && x.roomId2 != roomId
    ensures |r.rooms| <= |m.rooms| && |r.intersections| <= |m.intersections|
    ensures r == m.(rooms := r.rooms, intersections := r.intersections)
  {
    m.(rooms := Filter(m.rooms, RoomIdIsNot(roomId)), intersections := Filter(m.intersections, AvoidsRoom(roomId)))
  }

  /** Deleting a room that is not there, and that no door mentions, changes nothing (order included). */
  lemma DeleteUnknownRoom(m: MapData, roomId: string)
    requires forall i :: 0 <= i < |m.rooms| ==> m.rooms[i].id != roomId
    requires forall j :: 0 <= j < |m.intersections| ==> m.intersections[j].roomId1 != roomId && m.intersections[j].roomId2 != roomId
    ensures DeleteRoom(m, roomId) == m
  {
    FilterOfAll(m.rooms, RoomIdIsNot(roomId));
    FilterOfAll(m.intersections, AvoidsRoom(roomId));
  }

  /** Deleting the same room twice is deleting it once. */
  lemma DeleteRoomIdempotent(m: MapData, roomId: string)
    ensures DeleteRoom(DeleteRoom(m, roomId), roomId) == DeleteRoom(m, roomId)
  {
    var r := DeleteRoom(m, roomId);
    assert forall i :: 0 <= i < |r.rooms| ==> r.rooms[i] in r.rooms;
    assert forall j :: 0 <= j < |r.intersections| ==> r.intersections[j] in r.intersections;
    DeleteUnknownRoom(r, roomId);
  }

  /** deleteIntersection */
  function DeleteIntersection(m: MapData, id: string): (r: MapData)
    ensures forall x :: x in r.intersections <==> x in m.intersections && x.id != id
    ensures |r.intersections| <= |m.intersections|
    ensures r == m.(intersections := r.intersections)
  {
    m.(intersections := Filter(m.intersections, DoorIdIsNot(id)))
  }

  /** deleteFloorIntersection */
  function DeleteFloorIntersection(m: MapData, id: string): (r: MapData)
    ensures forall x :: x in r.floorIntersections <==> x in m.floorIntersections && x.id != id
    ensures |r.floorIntersections| <= |m.floorIntersections|
    ensures r == m.(floorIntersections := r.floorIntersections)
  {
    m.(floorIntersections := Filter(m.floorIntersections, FloorLinkIdIsNot(id)))
  }

  // ---------------------------------------------------------------------------------------------
  // GPS references

  /** setNewLatitudeLongitude followed by recalculateScale: the references at the vertex are replaced
      by one holding (latitude, longitude), or removed when both are zero, and the scale is calibrated
      again from the new list: the value `calculateScale` gives whenever that is a number, and the unit
      scale where it would give NaN (see Scale.SameMapPointGivesNaN). Every other reference stays. */
  function SetNewLatitudeLongitude(m: MapData, vertex: Vector2D, latitude: real, longitude: real,
                                   gps: (Vector2D, Vector2D) -> real, sqrt: real -> real): (r: MapData)
    ensures forall c :: c in r.coordsReferences && c.mapPoint != vertex <==> c in m.coordsReferences && c.mapPoint != vertex
    ensures (exists c :: c in r.coordsReferences && c.mapPoint == vertex) <==> !(latitude == 0.0 && longitude == 0.0)
    ensures forall c :: c in r.coordsReferences && c.mapPoint == vertex ==> c.gpsPoint == Vector2D(latitude, longitude)
    ensures r.scale == Scale.CalibratedScale(r.coordsReferences, gps, sqrt)
    ensures Scale.ScaleOf(r.coordsReferences, gps, sqrt).Num? ==> r.scale == Scale.ScaleOf(r.coordsReferences, gps, sqrt).value
    ensures r == m.(coordsReferences := r.coordsReferences, scale := r.scale)
  {
    var noPointData := Filter(m.coordsReferences, NotAt(vertex));
    var refs := if longitude == 0.0 && latitude == 0.0 then noPointData
                else noPointData + [CoordsReference(vertex, Vector2D(latitude, longitude))];
    m.(coordsReferences := refs, scale := Scale.CalibratedScale(refs, gps, sqrt))
  }

  /** A map that holds at most one reference per vertex keeps holding at most one. */
  lemma SetNewLatitudeLongitudeKeepsOnePerVertex(m: MapData, vertex: Vector2D, latitude: real, longitude: real,
                                                 gps: (Vector2D, Vector2D) -> real, sqrt: real -> real)
    requires DistinctKeys(m.coordsReferences, MapPoint)
    ensures DistinctKeys(SetNewLatitudeLongitude(m, vertex, latitude, longitude, gps, sqrt).coordsReferences, MapPoint)
  {
    var noPointData := Filter(m.coordsReferences, NotAt(vertex));
    FilterKeepsDistinct(m.coordsReferences, NotAt(vertex), MapPoint);
    if !(longitude == 0.0 && latitude == 0.0) {
      var refs := noPointData + [CoordsReference(vertex, Vector2D(latitude, longitude))];
      forall i, j | 0 <= i < j < |refs| ensures MapPoint(refs[i]) != MapPoint(refs[j]) {
        if j == |noPointData| {
          assert refs[i] in noPointData;
        } else {
          assert refs[i] == noPointData[i] && refs[j] == noPointData[j];
        }
      }
    }
  }

  /** Entering the same coordinates twice is entering them once. */
  lemma SetNewLatitudeLongitudeIdempotent(m: MapData, vertex: Vector2D, latitude: real, longitude: real,
                                          gps: (Vector2D, Vector2D) -> real, sqrt: real -> real)
    ensures var once := SetNewLatitudeLongitude(m, vertex, latitude, longitude, gps, sqrt);
            SetNewLatitudeLongitude(once, vertex, latitude, longitude, gps, sqrt) == once
  {
    var once := SetNewLatitudeLongitude(m, vertex, latitude, longitude, gps, sqrt);
    var noPointData := Filter(m.coordsReferences, NotAt(vertex));
    assert forall i :: 0 <= i < |noPointData| ==> NotAt(vertex)(noPointData[i]) by {
      assert forall i :: 0 <= i < |noPointData| ==> noPointData[i] in noPointData;
    }
    FilterOfAll(noPointData, NotAt(vertex));
    if !(longitude == 0.0 && latitude == 0.0) {
      var added := CoordsReference(vertex, Vector2D(latitude, longitude));
      assert once.coordsReferences == noPointData + [added];
      FilterAppend(noPointData, [added], NotAt(vertex));
      assert Filter([added], NotAt(vertex)) == [] by {
        assert [added][1..] == [];
      }
      assert Filter(once.coordsReferences, NotAt(vertex)) == noPointData;
    }
  }

  // ---------------------------------------------------------------------------------------------
  // Rooms created on demand and manual doors

  datatype RoomLookup = RoomLookup(room: RoomData, mapData: MapData)

  /** findOrCreateRoomData: the first room bound to the shape's path, or a new blank room bound to it,
      appended to the map. */
  function FindOrCreateRoomData(m: MapData, shape: Shapes.Shape, freshId: string): (r: RoomLookup)
    ensures r.room.pathId == shape.id && r.room in r.mapData.rooms
    ensures Find(m.rooms, PathIdIs(shape.id)).Some? ==> r == RoomLookup(Find(m.rooms, PathIdIs(shape.id)).value, m)
    ensures Find(m.rooms, PathIdIs(shape.id)).None? ==>
              && r.room == RoomData(freshId, shape.id, "", "", "", Shapes.ShapePoints(shape))
              && r.mapData == m.(rooms := m.rooms + [r.room])
  {
    var room := Find(m.rooms, PathIdIs(shape.id));
    if room.Some? then RoomLookup(room.value, m)
    else
      var newRoom := RoomData(freshId, shape.id, "", "", "", Shapes.ShapePoints(shape));
      RoomLookup(newRoom, m.(rooms := m.rooms + [newRoom]))
  }

  /** Looking the same shape up again finds the room the first lookup returned, and changes nothing
      more, whatever id the second lookup was offered. */
  lemma FindOrCreateRoomDataIdempotent(m: MapData, shape: Shapes.Shape, freshId: string, otherId: string)
    ensures var first := FindOrCreateRoomData(m, shape, freshId);
            FindOrCreateRoomData(first.mapData, shape, otherId) == first
  {
    var first := FindOrCreateRoomData(m, shape, freshId);
    if Find(m.rooms, PathIdIs(shape.id)).None? {
      FindAfterMisses(m.rooms, first.room, PathIdIs(shape.id));
    }
  }

  /** The door recorded by the manual tool (listenerUp): at the midpoint of the first crossing of the
      drag with the start room's outline and the first with the end room's; none when either misses. */
  function ManualDoor(startRoomId: string, endRoomId: string, startHits: seq<Vector2D>, endHits: seq<Vector2D>,
                      doorId: string): (r: Option<RoomIntersection>)
    ensures r.Some? <==> |startHits| > 0 && |endHits| > 0
    ensures r.Some? ==> r.value.id == doorId && r.value.roomId1 == startRoomId && r.value.roomId2 == endRoomId
    ensures r.Some? ==> (r.value.intersection.x - startHits[0].x == endHits[0].x - r.value.intersection.x &&
                         r.value.intersection.y - startHits[0].y == endHits[0].y - r.value.intersection.y)
  {
    if |startHits| == 0 || |endHits| == 0 then None
    else Some(Adjacency.GenerateIntersection(startRoomId, endRoomId, Vectors.Midpoint(startHits[0], endHits[0]), doorId))
  }

  /** The handler as written: the room found or created for the end shape is queued with
      `setMapData(previous => …)`, then the door is saved with `setMapData({...mapData, …})`, built from
      the record the handler started with, which replaces the queued update. */
  function DrawDoorAsWritten(m: MapData, startRoomId: string, endShape: Shapes.Shape, startHits: seq<Vector2D>,
                             endHits: seq<Vector2D>, roomId: string, doorId: string): (r: MapData)
    ensures |startHits| > 0 && |endHits| > 0 ==> r.rooms == m.rooms
  {
    var end := FindOrCreateRoomData(m, endShape, roomId);
    var door := ManualDoor(startRoomId, end.room.id, startHits, endHits, doorId);
    if door.None? then end.mapData else m.(intersections := m.intersections + [door.value])
  }

  /** A drag onto a room the map does not know yet records a door to a room that is not in the map. */
  lemma DrawDoorAsWrittenLosesNewRoom()
    ensures var m := MapData("m", "floor", [RoomData("s", "start", "", "", "", [])], [], [], [], 1, 6.0, 0.0, 0.5);
            var r := DrawDoorAsWritten(m, "s", Shapes.OtherShape("end"), [Vector2D(0.0, 0.0)], [Vector2D(2.0, 0.0)], "e", "d");
            && |r.intersections| == 1 && r.intersections[0].roomId2 == "e"
            && forall room :: room in r.rooms ==> room.id != "e"
  {
    var m := MapData("m", "floor", [RoomData("s", "start", "", "", "", [])], [], [], [], 1, 6.0, 0.0, 0.5);
    assert Find(m.rooms, PathIdIs("end")).None?;
  }

  /** The handler with the door added to the record that already holds the end room. */
  function DrawDoor(m: MapData, startRoomId: string, endShape: Shapes.Shape, startHits: seq<Vector2D>,
                    endHits: seq<Vector2D>, roomId: string, doorId: string): (r: MapData)
    ensures var end := FindOrCreateRoomData(m, endShape, roomId);
            r == end.mapData.(intersections := r.intersections)
  {
    var end := FindOrCreateRoomData(m, endShape, roomId);
    var door := ManualDoor(startRoomId, end.room.id, startHits, endHits, doorId);
    if door.None? then end.mapData else end.mapData.(intersections := end.mapData.intersections + [door.value])
  }

  /** Every door the corrected handler records joins two rooms of the map, and keeps every room and door
      that was there. */
  lemma DrawDoorJoinsExistingRooms(m: MapData, startRoomId: string, endShape: Shapes.Shape, startHits: seq<Vector2D>,
                                   endHits: seq<Vector2D>, roomId: string, doorId: string)
    requires FindRoom(m.rooms, startRoomId).Some?
    requires |startHits| > 0 && |endHits| > 0
    ensures var r := DrawDoor(m, startRoomId, endShape, startHits, endHits, roomId, doorId);
            && |r.intersections| == |m.intersections| + 1
            && r.intersections[..|m.intersections|] == m.intersections
            && r.rooms[..|m.rooms|] == m.rooms
            && FindRoom(r.rooms, r.intersections[|m.intersections|].roomId1).Some?
            && FindRoom(r.rooms, r.intersections[|m.intersections|].roomId2).Some?
  {
    var end := FindOrCreateRoomData(m, endShape, roomId);
    var r := DrawDoor(m, startRoomId, endShape, startHits, endHits, roomId, doorId);
    var door := r.intersections[|m.intersections|];
    assert end.mapData.rooms[..|m.rooms|] == m.rooms;
    FindBeforeAppend(m.rooms, end.mapData.rooms[|m.rooms|..], RoomIdIs(startRoomId));
    assert m.rooms + end.mapData.rooms[|m.rooms|..] == end.mapData.rooms;
    assert door.roomId2 == end.room.id;
    assert RoomIdIs(end.room.id)(end.room);
  }

  // ---------------------------------------------------------------------------------------------
  // Dropping what the SVG no longer draws

  function KeyNotIn<T>(key: T -> string, ids: set<string>): T -> bool { x => key(x) !in ids }
  function KeyIsNot<T>(key: T -> string, id: string): T -> bool { x => key(x) != id }

  /** The keys of the snapshot elements that `stale` condemns. */
  ghost function StaleKeys<T(!new)>(s: seq<T>, key: T -> string, stale: T -> bool): (r: set<string>)
    ensures forall x :: x in s && stale(x) ==> key(x) in r
    ensures forall id :: id in r ==> exists x :: x in s && stale(x) && key(x) == id
  {
    set x | x in s && stale(x) :: key(x)
  }

  lemma StaleKeysSnoc<T(!new)>(s: seq<T>, k: nat, key: T -> string, stale: T -> bool)
    requires k < |s|
    ensures stale(s[k]) ==> StaleKeys(s[..k + 1], key, stale) == StaleKeys(s[..k], key, stale) + {key(s[k])}
    ensures !stale(s[k]) ==> StaleKeys(s[..k + 1], key, stale) == StaleKeys(s[..k], key, stale)
  {
    assert s[..k + 1] == s[..k] + [s[k]];
  }

  /** One of the three loops of clearOldData: for every element of the snapshot `s` that `stale`
      condemns, every element with its key is filtered out of the list built so far. */
  method DropStale<T(!new)>(s: seq<T>, key: T -> string, stale: T -> bool) returns (r: seq<T>)
    ensures r == Filter(s, KeyNotIn(key, StaleKeys(s, key, stale)))
  {
    r := s;
    assert StaleKeys(s[..0], key, stale) == {};
    FilterOfAll(s, KeyNotIn(key, {}));
    for k := 0 to |s|
      invariant r == Filter(s, KeyNotIn(key, StaleKeys(s[..k], key, stale)))
    {
      ghost var done := StaleKeys(s[..k], key, stale);
      StaleKeysSnoc(s, k, key, stale);
      if stale(s[k]) {
        FilterTwice(s, KeyNotIn(key, done), KeyIsNot(key, key(s[k])), KeyNotIn(key, done + {key(s[k])}));
        r := Filter(r, KeyIsNot(key, key(s[k])));
      }
    }
    assert s[..|s|] == s;
  }

  function Undrawn(drawn: set<string>): RoomData -> bool { (room: RoomData) => room.pathId !in drawn }

  /** The door test of clearOldData as written: both lookups use `roomId1`. */
  function StaleDoor(rooms: seq<RoomData>, drawn: set<string>): RoomIntersection -> bool
  {
    (x: RoomIntersection) =>
      var room1 := FindRoom(rooms, x.roomId1);
      var room2 := FindRoom(rooms, x.roomId1);
      room1.None? || room2.None? || room1.value.pathId !in drawn || room2.value.pathId !in drawn
  }

  function StaleFloorLink(rooms: seq<RoomData>, drawn: set<string>): FloorIntersection -> bool
  {
    (x: FloorIntersection) =>
      var room := FindRoom(rooms, x.originRoomId);
      room.None? || room.value.pathId !in drawn
  }

  /** What clearOldData leaves: the rooms sharing no id with an undrawn room, the doors and floor
      intersections whose room (looked up in the map as it was) is drawn. */
  ghost function ClearedMap(m: MapData, drawn: set<string>): MapData
  {
    m.(rooms := Filter(m.rooms, KeyNotIn(IdOfRoom, StaleKeys(m.rooms, IdOfRoom, Undrawn(drawn)))),
       intersections := Filter(m.intersections, KeyNotIn(IdOfDoor, StaleKeys(m.intersections, IdOfDoor, StaleDoor(m.rooms, drawn)))),
       floorIntersections := Filter(m.floorIntersections,
                                    KeyNotIn(IdOfFloorLink, StaleKeys(m.floorIntersections, IdOfFloorLink, StaleFloorLink(m.rooms, drawn)))))
  }

  /** clearOldData, its three loops over the map as it was when called. */
  method ClearOldData(m: MapData, drawn: set<string>) returns (r: MapData)
    ensures r == ClearedMap(m, drawn)
  {
    var rooms := DropStale(m.rooms, IdOfRoom, Undrawn(drawn));
    var intersections := DropStale(m.intersections, IdOfDoor, StaleDoor(m.rooms, drawn));
    var floorIntersections := DropStale(m.floorIntersections, IdOfFloorLink, StaleFloorLink(m.rooms, drawn));
    r := m.(rooms := rooms, intersections := intersections, floorIntersections := floorIntersections);
  }

  /** Every room left is drawn, and a room is left exactly when every room with its id is drawn. */
  lemma ClearedRoomsAreDrawn(m: MapData, drawn: set<string>)
    ensures forall room :: room in ClearedMap(m, drawn).rooms ==> room.pathId in drawn
    ensures forall room :: room in m.rooms ==>
              (room in ClearedMap(m, drawn).rooms <==> forall other :: other in m.rooms && other.id == room.id ==> other.pathId in drawn)
  {
    var keys := StaleKeys(m.rooms, IdOfRoom, Undrawn(drawn));
    var c := ClearedMap(m, drawn);
    assert c.rooms == Filter(m.rooms, KeyNotIn(IdOfRoom, keys));
    forall room | room in m.rooms
      ensures room in c.rooms <==> forall other :: other in m.rooms && other.id == room.id ==> other.pathId in drawn
    {
      if room !in c.rooms {
        assert IdOfRoom(room) in keys;
        var other :| other in m.rooms && Undrawn(drawn)(other) && IdOfRoom(other) == room.id;
      }
    }
  }

  /** Every door left names, in its first room, a room of the map that is drawn; and likewise the origin
      room of every floor intersection left. */
  lemma ClearedDoorsAndLinksHaveDrawnRooms(m: MapData, drawn: set<string>)
    ensures forall x :: x in ClearedMap(m, drawn).intersections ==>
              FindRoom(m.rooms, x.roomId1).Some? && FindRoom(m.rooms, x.roomId1).value.pathId in drawn
    ensures forall x :: x in ClearedMap(m, drawn).floorIntersections ==>
              FindRoom(m.rooms, x.originRoomId).Some? && FindRoom(m.rooms, x.originRoomId).value.pathId in drawn
  {
    var c := ClearedMap(m, drawn);
    forall x | x in c.intersections
      ensures FindRoom(m.rooms, x.roomId1).Some? && FindRoom(m.rooms, x.roomId1).value.pathId in drawn
    {
      assert !StaleDoor(m.rooms, drawn)(x);
    }
    forall x | x in c.floorIntersections
      ensures FindRoom(m.rooms, x.originRoomId).Some? && FindRoom(m.rooms, x.originRoomId).value.pathId in drawn
    {
      assert !StaleFloorLink(m.rooms, drawn)(x);
    }
  }

  /** A map whose rooms are all drawn and whose doors and floor intersections all start in a drawn room
      is left as it is. */
  lemma ClearOldDataKeepsCleanMap(m: MapData, drawn: set<string>)
    requires forall i :: 0 <= i < |m.rooms| ==> m.rooms[i].pathId in drawn
    requires forall j :: 0 <= j < |m.intersections| ==> FindRoom(m.rooms, m.intersections[j].roomId1).Some?
    requires forall j :: 0 <= j < |m.floorIntersections| ==> FindRoom(m.rooms, m.floorIntersections[j].originRoomId).Some?
    ensures ClearedMap(m, drawn) == m
  {
    assert StaleKeys(m.rooms, IdOfRoom, Undrawn(drawn)) == {};
    forall j | 0 <= j < |m.intersections| ensures !StaleDoor(m.rooms, drawn)(m.intersections[j]) {
      assert FindRoom(m.rooms, m.intersections[j].roomId1).value in m.rooms;
    }
    assert StaleKeys(m.intersections, IdOfDoor, StaleDoor(m.rooms, drawn)) == {};
    forall j | 0 <= j < |m.floorIntersections| ensures !StaleFloorLink(m.rooms, drawn)(m.floorIntersections[j]) {
      assert FindRoom(m.rooms, m.floorIntersections[j].originRoomId).value in m.rooms;
    }
    assert StaleKeys(m.floorIntersections, IdOfFloorLink, StaleFloorLink(m.rooms, drawn)) == {};
    FilterOfAll(m.rooms, KeyNotIn(IdOfRoom, {}));
    FilterOfAll(m.intersections, KeyNotIn(IdOfDoor, {}));
    FilterOfAll(m.floorIntersections, KeyNotIn(IdOfFloorLink, {}));
  }

  /** The second room of a door is never looked at: a door into a room that is gone survives. */
  lemma ClearOldDataIgnoresSecondRoom()
    ensures var m := MapData("m", "floor", [RoomData("a", "pa", "", "", "", [])],
                             [RoomIntersection("d", "a", "gone", Vector2D(0.0, 0.0))], [], [], 1, 6.0, 0.0, 0.5);
            ClearedMap(m, {"pa"}) == m
  {
    var m := MapData("m", "floor", [RoomData("a", "pa", "", "", "", [])],
                     [RoomIntersection("d", "a", "gone", Vector2D(0.0, 0.0))], [], [], 1, 6.0, 0.0, 0.5);
    assert FindRoom(m.rooms, "a") == Some(m.rooms[0]);
    ClearOldDataKeepsCleanMap(m, {"pa"});
  }

  // ---------------------------------------------------------------------------------------------
  // Re-keying rooms

  function Swap(id: string, oldId: string, newId: string): string
  {
    if id == oldId then newId else id
  }

  /** One update of portPathData: room `oldId` becomes `newId` in the rooms and in both ends of every
      door, and the floor intersections are dropped. */
  function RenameRoom(m: MapData, oldId: string, newId: string): (r: MapData)
    ensures |r.rooms| == |m.rooms| && |r.intersections| == |m.intersections| && r.floorIntersections == []
    ensures forall i :: 0 <= i < |m.rooms| && m.rooms[i].id != oldId ==> r.rooms[i] == m.rooms[i]
    ensures forall i :: 0 <= i < |m.rooms| && m.rooms[i].id == oldId ==> r.rooms[i] == m.rooms[i].(id := newId)
  {
    m.(rooms := seq(|m.rooms|, i requires 0 <= i < |m.rooms| =>
                      if m.rooms[i].id != oldId then m.rooms[i] else m.rooms[i].(id := newId)),
       intersections := seq(|m.intersections|, j requires 0 <= j < |m.intersections| =>
                      var x := m.intersections[j];
                      if x.roomId1 != oldId && x.roomId2 != oldId then x
                      else x.(roomId1 := Swap(x.roomId1, oldId, newId), roomId2 := Swap(x.roomId2, oldId, newId))),
       floorIntersections := [])
  }

  /** The map after the updates for the first `k` rooms; room `i` draws the id `uuid(base + i)`. */
  function Ported(m: MapData, uuid: nat -> string, base: nat, k: nat): MapData
    requires k <= |m.rooms|
  {
    if k == 0 then m else RenameRoom(Ported(m, uuid, base, k - 1), m.rooms[k - 1].id, uuid(base + k - 1))
  }

  /** portPathData */
  method PortPathData(m: MapData, uuid: nat -> string, base: nat) returns (r: MapData)
    ensures r == Ported(m, uuid, base, |m.rooms|)
  {
    r := m;
    for k := 0 to |m.rooms|
      invariant r == Ported(m, uuid, base, k)
    {
      var oldId := m.rooms[k].id;
      var newId := uuid(base + k);
      r := RenameRoom(r, oldId, newId);
    }
  }

  /** Fresh ids: none of them is already a room id. */
  predicate FreshIds(m: MapData, uuid: nat -> string, base: nat)
  {
    forall i, j :: base <= i < base + |m.rooms| && 0 <= j < |m.rooms| ==> uuid(i) != m.rooms[j].id
  }

  /** The id a reference to room id `id` holds once the first `k` rooms are renamed. */
  function NewRoomId(rooms: seq<RoomData>, uuid: nat -> string, base: nat, id: string, k: nat): string
  {
    var i := FindIndex(rooms, RoomIdIs(id));
    if i.Some? && i.value < k then uuid(base + i.value) else id
  }

  lemma NewRoomIdStep(m: MapData, uuid: nat -> string, base: nat, id: string, k: nat)
    requires 0 < k <= |m.rooms| && DistinctKeys(m.rooms, IdOfRoom) && FreshIds(m, uuid, base)
    ensures Swap(NewRoomId(m.rooms, uuid, base, id, k - 1), m.rooms[k - 1].id, uuid(base + k - 1))
            == NewRoomId(m.rooms, uuid, base, id, k)
  {
    var i := FindIndex(m.rooms, RoomIdIs(id));
    if id == m.rooms[k - 1].id {
      assert RoomIdIs(id)(m.rooms[k - 1]);
    }
  }

  /** The updates keep every list's length and every field but the three they touch; once one has run,
      the floor intersections are gone. */
  lemma {:induction false} PortedShape(m: MapData, uuid: nat -> string, base: nat, k: nat)
    requires k <= |m.rooms|
    ensures var p := Ported(m, uuid, base, k);
      && |p.rooms| == |m.rooms| && |p.intersections| == |m.intersections|
      && (k > 0 ==> p.floorIntersections == [])
      && p == m.(rooms := p.rooms, intersections := p.intersections, floorIntersections := p.floorIntersections)
  {
    if k > 0 {
      PortedShape(m, uuid, base, k - 1);
    }
  }

  /** With distinct room ids and fresh new ids, the first `k` updates rename exactly the first `k` rooms. */
  lemma PortedRooms(m: MapData, uuid: nat -> string, base: nat, k: nat)
    requires k <= |m.rooms| && DistinctKeys(m.rooms, IdOfRoom) && FreshIds(m, uuid, base)
    ensures |Ported(m, uuid, base, k).rooms| == |m.rooms|
    ensures forall i :: 0 <= i < k ==> Ported(m, uuid, base, k).rooms[i] == m.rooms[i].(id := uuid(base + i))
    ensures forall i :: k <= i < |m.rooms| ==> Ported(m, uuid, base, k).rooms[i] == m.rooms[i]
  {
    PortedShape(m, uuid, base, k);
    forall i | 0 <= i < k
      ensures Ported(m, uuid, base, k).rooms[i] == m.rooms[i].(id := uuid(base + i))
    {
      PortedRoomRenamed(m, uuid, base, k, i);
    }
    forall i | k <= i < |m.rooms|
      ensures Ported(m, uuid, base, k).rooms[i] == m.rooms[i]
    {
      PortedRoomKept(m, uuid, base, k, i);
    }
  }

  /** Room `i` is untouched by the updates for the rooms before it. */
  lemma {:induction false} PortedRoomKept(m: MapData, uuid: nat -> string, base: nat, k: nat, i: nat)
    requires k <= i < |m.rooms| && DistinctKeys(m.rooms, IdOfRoom)
    ensures |Ported(m, uuid, base, k).rooms| == |m.rooms|
    ensures Ported(m, uuid, base, k).rooms[i] == m.rooms[i]
  {
    PortedShape(m, uuid, base, k);
    if k > 0 {
      PortedRoomKept(m, uuid, base, k - 1, i);
      assert IdOfRoom(m.rooms[k - 1]) != IdOfRoom(m.rooms[i]);
      RenameOtherRoom(Ported(m, uuid, base, k - 1), m.rooms[k - 1].id, uuid(base + k - 1), i);
    }
  }

  /** Room `i` carries its new id once its own update has been applied, and no later update renames it. */
  lemma {:induction false} PortedRoomRenamed(m: MapData, uuid: nat -> string, base: nat, k: nat, i: nat)
    requires i < k <= |m.rooms| && DistinctKeys(m.rooms, IdOfRoom) && FreshIds(m, uuid, base)
    ensures |Ported(m, uuid, base, k).rooms| == |m.rooms|
    ensures Ported(m, uuid, base, k).rooms[i] == m.rooms[i].(id := uuid(base + i))
  {
    PortedShape(m, uuid, base, k);
    if i == k - 1 {
      PortedRoomKept(m, uuid, base, k - 1, i);
      RenameThisRoom(Ported(m, uuid, base, k - 1), m.rooms[k - 1].id, uuid(base + k - 1), i);
    } else {
      PortedRoomRenamed(m, uuid, base, k - 1, i);
      assert base <= base + i < base + |m.rooms| && k - 1 < |m.rooms|;
      assert uuid(base + i) != m.rooms[k - 1].id;
      RenameOtherRoom(Ported(m, uuid, base, k - 1), m.rooms[k - 1].id, uuid(base + k - 1), i);
    }
  }

  /** An update leaves a room with another id as it is. */
  lemma RenameOtherRoom(prev: MapData, oldId: string, newId: string, i: nat)
    requires i < |prev.rooms| && prev.rooms[i].id != oldId
    ensures RenameRoom(prev, oldId, newId).rooms[i] == prev.rooms[i]
  {
  }

  /** An update moves each end of a door at the renamed room to the new id. */
  lemma RenameDoor(prev: MapData, oldId: string, newId: string, j: nat)
    requires j < |prev.intersections|
    ensures var x := prev.intersections[j];
      RenameRoom(prev, oldId, newId).intersections[j] == x.(roomId1 := Swap(x.roomId1, oldId, newId), roomId2 := Swap(x.roomId2, oldId, newId))
  {
  }

  /** An update gives the room with its id the new id. */
  lemma RenameThisRoom(prev: MapData, oldId: string, newId: string, i: nat)
    requires i < |prev.rooms| && prev.rooms[i].id == oldId
    ensures RenameRoom(prev, oldId, newId).rooms[i] == prev.rooms[i].(id := newId)
  {
  }

  /** With distinct room ids and fresh new ids, the first `k` updates point every door end that named
      one of the first `k` rooms at its new id and leave every other door end alone. */
  lemma {:induction false} PortedDoors(m: MapData, uuid: nat -> string, base: nat, k: nat)
    requires k <= |m.rooms| && DistinctKeys(m.rooms, IdOfRoom) && FreshIds(m, uuid, base)
    ensures var p := Ported(m, uuid, base, k);
      |p.intersections| == |m.intersections| &&
      forall j :: 0 <= j < |m.intersections| ==>
        p.intersections[j] == m.intersections[j].(roomId1 := NewRoomId(m.rooms, uuid, base, m.intersections[j].roomId1, k),
                                                  roomId2 := NewRoomId(m.rooms, uuid, base, m.intersections[j].roomId2, k))
  {
    PortedShape(m, uuid, base, k);
    if k > 0 {
      PortedDoors(m, uuid, base, k - 1);
      PortedShape(m, uuid, base, k - 1);
      var prev := Ported(m, uuid, base, k - 1);
      var oldId := m.rooms[k - 1].id;
      var newId := uuid(base + k - 1);
      var p := RenameRoom(prev, oldId, newId);
      forall j | 0 <= j < |m.intersections|
        ensures p.intersections[j] == m.intersections[j].(roomId1 := NewRoomId(m.rooms, uuid, base, m.intersections[j].roomId1, k),
                                                          roomId2 := NewRoomId(m.rooms, uuid, base, m.intersections[j].roomId2, k))
      {
        RenameDoor(prev, oldId, newId, j);
        NewRoomIdStep(m, uuid, base, m.intersections[j].roomId1, k);
        NewRoomIdStep(m, uuid, base, m.intersections[j].roomId2, k);
      }
    }
  }
}
