/** The record normalisation `loadMapData` of src/utils.ts applies to a parsed `map.json`.
    A parsed record may lack fields; they are `Option`s here. A string field is truthy when it is
    present and not empty, which is how JavaScript reads `room.pathId ? … : …`. */
module MapLoading {
  import opened Dto

  datatype RawRoom = RawRoom(id: string, pathId: Option<string>, name: Option<string>, code: Option<string>,
                             notes: Option<string>, points: seq<Vector2D>)

  /** A parsed map: `rooms` and `intersections` are read without a default, the source maps over
      `rooms` unguarded. */
  datatype RawMapData = RawMapData(id: Option<string>, name: string, rooms: seq<RawRoom>,
                                   intersections: seq<RoomIntersection>,
                                   coordsReferences: Option<seq<CoordsReference>>,
                                   floorIntersections: Option<seq<FloorIntersection>>,
                                   version: Option<int>, height: real, altitude: real, scale: real)

  predicate Truthy(s: Option<string>)
  {
    s.Some? && s.value != ""
  }

  function OrEmpty(s: Option<string>): string
  {
    if s.Some? then s.value else ""
  }

  /** The regular expression `/\d\./` finds a match: an ASCII digit directly followed by a dot. */
  predicate HasDigitDot(s: string)
  {
    exists k :: 0 <= k < |s| - 1 && '0' <= s[k] <= '9' && s[k + 1] == '.'
  }

  /** The three `map` passes over one room, in the order the source applies them. */
  function NormaliseRoom(room: RawRoom): (r: RawRoom)
  {
    var withPath := if Truthy(room.pathId) then room else room.(pathId := Some(room.id));
    var withNotes := if Truthy(withPath.notes) then withPath else withPath.(notes := Some(""));
    if Truthy(withNotes.code) then withNotes
    else if Truthy(withNotes.name) && HasDigitDot(withNotes.name.value) then
      withNotes.(name := Some(""), code := withNotes.name)
    else withNotes.(code := Some(""))
  }

  /** The in-memory room; a name the file left out reads as the empty string. */
  function ToRoomData(room: RawRoom): RoomData
  {
    RoomData(room.id, OrEmpty(room.pathId), OrEmpty(room.name), OrEmpty(room.code), OrEmpty(room.notes), room.points)
  }

  /** loadMapData after `JSON.parse`; `freshId` is the value `uuidv4()` would return. */
  function LoadMapData(raw: RawMapData, freshId: string): (r: MapData)
    ensures r.id == (if raw.id.Some? then raw.id.value else freshId)
    ensures r.version == (if raw.version.Some? then raw.version.value else 1)
    ensures raw.coordsReferences.None? ==> r.coordsReferences == []
    ensures raw.coordsReferences.Some? ==> r.coordsReferences == raw.coordsReferences.value
    ensures raw.floorIntersections.None? ==> r.floorIntersections == []
    ensures raw.floorIntersections.Some? ==> r.floorIntersections == raw.floorIntersections.value
    ensures |r.rooms| == |raw.rooms|
    ensures forall i :: 0 <= i < |raw.rooms| ==> r.rooms[i].id == raw.rooms[i].id && r.rooms[i].points == raw.rooms[i].points
    ensures r.name == raw.name && r.intersections == raw.intersections
    ensures r.height == raw.height && r.altitude == raw.altitude && r.scale == raw.scale
  {
    MapData(if raw.id.Some? then raw.id.value else freshId,
            raw.name,
            seq(|raw.rooms|, i requires 0 <= i < |raw.rooms| => ToRoomData(NormaliseRoom(raw.rooms[i]))),
            raw.intersections,
            if raw.coordsReferences.Some? then raw.coordsReferences.value else [],
            if raw.floorIntersections.Some? then raw.floorIntersections.value else [],
            if raw.version.Some? then raw.version.value else 1,
            raw.height, raw.altitude, raw.scale)
  }

  /** What every normalised room satisfies: path id, notes and code are present, a falsy path id was
      replaced by the room id, truthy fields are kept, and a legacy name moved into the code. */
  lemma NormalisedRoomFields(room: RawRoom)
    ensures var r := NormaliseRoom(room);
      && r.id == room.id && r.points == room.points
      && r.pathId.Some? && r.notes.Some? && r.code.Some?
      && (Truthy(room.pathId) ==> r.pathId == room.pathId)
      && (!Truthy(room.pathId) ==> r.pathId == Some(room.id))
      && (Truthy(room.notes) ==> r.notes == room.notes)
      && (!Truthy(room.notes) ==> r.notes == Some(""))
      && (Truthy(room.code) ==> r.code == room.code && r.name == room.name)
  {
  }

  /** The legacy migration: a room without code whose name looks like "1.04" gets that name as its
      code and an empty name; a room without code and any other name keeps it and gets an empty code. */
  lemma LegacyNameMigration(room: RawRoom)
    requires !Truthy(room.code)
    ensures Truthy(room.name) && HasDigitDot(room.name.value) ==>
              NormaliseRoom(room).code == room.name && NormaliseRoom(room).name == Some("")
    ensures !(Truthy(room.name) && HasDigitDot(room.name.value)) ==>
              NormaliseRoom(room).code == Some("") && NormaliseRoom(room).name == room.name
  {
  }

  /** Normalising twice is normalising once. */
  lemma NormaliseRoomIdempotent(room: RawRoom)
    ensures NormaliseRoom(NormaliseRoom(room)) == NormaliseRoom(room)
  {
    var r := NormaliseRoom(room);
    if !Truthy(room.code) && Truthy(room.name) && HasDigitDot(room.name.value) {
      assert Truthy(r.code);
    }
  }

  /** A loaded map written out with every field present. */
  function Export(m: MapData): (r: RawMapData)
    ensures r.id == Some(m.id) && r.version == Some(m.version) && |r.rooms| == |m.rooms|
  {
    RawMapData(Some(m.id), m.name,
               seq(|m.rooms|, i requires 0 <= i < |m.rooms| =>
                 var room := m.rooms[i];
                 RawRoom(room.id, Some(room.pathId), Some(room.name), Some(room.code), Some(room.notes), room.points)),
               m.intersections, Some(m.coordsReferences), Some(m.floorIntersections), Some(m.version),
               m.height, m.altitude, m.scale)
  }

  /** Loading is stable: a loaded map that is saved and loaded again comes back unchanged, whatever id
      the second load could have drawn. */
  lemma ReloadIsIdentity(raw: RawMapData, freshId: string, otherId: string)
    ensures LoadMapData(Export(LoadMapData(raw, freshId)), otherId) == LoadMapData(raw, freshId)
  {
    var m := LoadMapData(raw, freshId);
    var e := Export(m);
    var m2 := LoadMapData(e, otherId);
    forall i | 0 <= i < |m.rooms|
      ensures m2.rooms[i] == m.rooms[i]
    {
      var room := raw.rooms[i];
      var n := NormaliseRoom(room);
      NormalisedRoomFields(room);
      var back := e.rooms[i];
      assert back == RawRoom(n.id, n.pathId, Some(OrEmpty(n.name)), n.code, n.notes, n.points);
      if !Truthy(room.code) && !(Truthy(room.name) && HasDigitDot(room.name.value)) {
        assert !(Truthy(back.name) && HasDigitDot(back.name.value));
      }
    }
  }

  /** A room named "1.04" without code is loaded with code "1.04" and no name. */
  lemma LegacyExample()
    ensures ToRoomData(NormaliseRoom(RawRoom("r", None, Some("1.04"), None, None, []))) ==
            RoomData("r", "r", "", "1.04", "", [])
  {
    assert HasDigitDot("1.04") by { assert "1.04"[0] == '1' && "1.04"[1] == '.'; }
  }
}
