/** The data model of PlanMapper: the types of src/dto.ts and the Vector2D type of src/utils.ts.
    Records are plain values: every update in the source builds a new record with the spread operator. */
module Dto {

  datatype Option<+T> = None | Some(value: T)

  /** `newValue ?? oldValue` */
  function Coalesce<T>(newValue: Option<T>, oldValue: Option<T>): (r: Option<T>)
    ensures newValue.Some? ==> r == newValue
    ensures newValue.None? ==> r == oldValue
  {
    if newValue.Some? then newValue else oldValue
  }

  datatype Vector2D = Vector2D(x: real, y: real)

  datatype RoomData = RoomData(id: string, pathId: string, name: string, code: string, notes: string,
                               points: seq<Vector2D>)

  datatype RoomIntersection = RoomIntersection(id: string, roomId1: string, roomId2: string, intersection: Vector2D)

  datatype FloorIntersectionTarget = FloorIntersectionTarget(mapId: string, intersectionId: string)

  datatype FloorIntersection = FloorIntersection(id: string, intersection: Vector2D, isElevator: bool,
                                                 originRoomId: string, targets: seq<FloorIntersectionTarget>)

  /** `gpsPoint` holds the latitude in `x` and the longitude in `y`. */
  datatype CoordsReference = CoordsReference(mapPoint: Vector2D, gpsPoint: Vector2D)

  datatype MapData = MapData(id: string, name: string, rooms: seq<RoomData>, intersections: seq<RoomIntersection>,
                             coordsReferences: seq<CoordsReference>, floorIntersections: seq<FloorIntersection>,
                             version: int, height: real, altitude: real, scale: real)

  datatype BundleFloorInfo = BundleFloorInfo(id: string, name: string, number: int, isGroundFloor: bool, version: int)

  datatype BundleBuildingInfo = BundleBuildingInfo(id: string, name: string, floors: seq<BundleFloorInfo>)

  datatype MapMode =
    | RoomMode
    | IntersectionSelection
    | IntersectionGeneration
    | RoomVertex
    | CoordinatesReference
    | FloorIntersectionSelection
    | FloorIntersectionGeneration
    | FloorLinking

  datatype EditorSettings = EditorSettings(raycastLimit: int, raycastStep: int)

  datatype SelectedFloorLinkingIntersection = SelectedFloorLinkingIntersection(id: string, mapId: string, roomId: string)
}
