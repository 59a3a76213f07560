/** The automatic door finder of src/utils.ts: `findAllPathIntersections`, `createExtendedPolygon`,
    `generateIntersection` and `generateFloorIntersection`. Each room's polygon is pushed slightly
    outwards from its vertex mean and intersected with the drawn shape of every later room; each pair
    of consecutive intersection points is taken for the two jambs of one door.
    The intersection library is the parameter `intersect`, and uuid is the id supply `uuid`. */
module Adjacency {
  import opened Dto
  import opened Vectors
  import opened Shapes

  /** The factor `findAllPathIntersections` extrudes every room by. */
  const ExtensionFactor: real := 1.01

  /** The `status` (as "is it `Intersection`") and `points` of a kld-intersections result. */
  datatype IntersectResult = IntersectResult(intersects: bool, points: seq<Vector2D>)

  function SumX(s: seq<Vector2D>): real
  {
    if s == [] then 0.0 else SumX(s[..|s| - 1]) + s[|s| - 1].x
  }

  function SumY(s: seq<Vector2D>): real
  {
    if s == [] then 0.0 else SumY(s[..|s| - 1]) + s[|s| - 1].y
  }

  /** The vertex mean. */
  function Centroid(s: seq<Vector2D>): Vector2D
    requires |s| > 0
  {
    Vector2D(SumX(s) / (|s| as real), SumY(s) / (|s| as real))
  }

  /** Every vertex moved away from `c` to `c + (v - c) * f`. */
  function ScaledAbout(points: seq<Vector2D>, c: Vector2D, f: real): (r: seq<Vector2D>)
    ensures |r| == |points|
  {
    seq(|points|, k requires 0 <= k < |points| =>
      Vector2D(c.x + (points[k].x - c.x) * f, c.y + (points[k].y - c.y) * f))
  }

  /** Every vertex moved away from the vertex mean. */
  function Extended(points: seq<Vector2D>, f: real): (r: seq<Vector2D>)
    requires |points| > 0
    ensures |r| == |points|
  {
    ScaledAbout(points, Centroid(points), f)
  }

  /** createExtendedPolygon: the mean is accumulated in a loop, then every vertex is scaled. */
  method CreateExtendedPolygon(points: seq<Vector2D>, scaleFactor: real) returns (coords: seq<Vector2D>)
    requires |points| > 0
    ensures coords == Extended(points, scaleFactor)
  {
    var centerX, centerY := points[0].x, points[0].y;
    assert points[..1][..0] == [];
    for i := 1 to |points|
      invariant centerX == SumX(points[..i]) && centerY == SumY(points[..i])
    {
      assert points[..i + 1][..i] == points[..i];
      centerX := centerX + points[i].x;
      centerY := centerY + points[i].y;
    }
    assert points[..|points|] == points;
    centerX := centerX / (|points| as real);
    centerY := centerY / (|points| as real);
    coords := seq(|points|, k requires 0 <= k < |points| =>
      Vector2D(centerX + (points[k].x - centerX) * scaleFactor, centerY + (points[k].y - centerY) * scaleFactor));
  }

  /** A factor of 1 leaves the polygon as it is. */
  lemma ExtendedByOne(points: seq<Vector2D>)
    requires |points| > 0
    ensures Extended(points, 1.0) == points
  {
  }

  lemma Distribute(a: real, b: real, f: real)
    ensures a * f + b * f == (a + b) * f
  {
  }

  /** `q` is `p` scaled by `f` about `c`, in x (ScaledX) or in y (ScaledY). */
  predicate ScaledX(p: seq<Vector2D>, q: seq<Vector2D>, c: real, f: real)
  {
    |p| == |q| && forall i :: 0 <= i < |q| ==> q[i].x == c + (p[i].x - c) * f
  }

  predicate ScaledY(p: seq<Vector2D>, q: seq<Vector2D>, c: real, f: real)
  {
    |p| == |q| && forall i :: 0 <= i < |q| ==> q[i].y == c + (p[i].y - c) * f
  }

  lemma {:induction false} SumXOfScaled(p: seq<Vector2D>, q: seq<Vector2D>, c: real, f: real)
    requires ScaledX(p, q, c, f)
    ensures SumX(q) == Times(c, |p|) + (SumX(p) - Times(c, |p|)) * f
  {
    if p != [] {
      var n := |p|;
      var p', q' := p[..n - 1], q[..n - 1];
      assert ScaledX(p', q', c, f);
      SumXOfScaled(p', q', c, f);
      var a, b := SumX(p') - Times(c, n - 1), p[n - 1].x - c;
      Distribute(a, b, f);
      assert a + b == SumX(p) - Times(c, n);
      assert SumX(q) == SumX(q') + q[n - 1].x;
    }
  }

  lemma {:induction false} SumYOfScaled(p: seq<Vector2D>, q: seq<Vector2D>, c: real, f: real)
    requires ScaledY(p, q, c, f)
    ensures SumY(q) == Times(c, |p|) + (SumY(p) - Times(c, |p|)) * f
  {
    if p != [] {
      var n := |p|;
      var p', q' := p[..n - 1], q[..n - 1];
      assert ScaledY(p', q', c, f);
      SumYOfScaled(p', q', c, f);
      var a, b := SumY(p') - Times(c, n - 1), p[n - 1].y - c;
      Distribute(a, b, f);
      assert a + b == SumY(p) - Times(c, n);
      assert SumY(q) == SumY(q') + q[n - 1].y;
    }
  }

  /** `n` copies of the mean of `n` values add up to their sum. */
  lemma MeanTimes(sum: real, n: nat, c: real)
    requires n > 0 && c == sum / (n as real)
    ensures Times(c, n) == sum
  {
    TimesIsProduct(c, n);
  }

  /** Scaling about the mean moves nothing in total: t + (s - t) * f is s when t is s. */
  lemma ScaledSum(sq: real, t: real, sp: real, f: real)
    requires sq == t + (sp - t) * f && t == sp
    ensures sq == sp
  {
    assert (sp - t) * f == 0.0 * f;
  }

  /** A sum scaled about its own mean keeps that mean. */
  lemma MeanOfScaledSum(sq: real, sp: real, n: nat, c: real, f: real)
    requires n > 0 && c == sp / (n as real) && sq == Times(c, n) + (sp - Times(c, n)) * f
    ensures sq / (n as real) == c
  {
    MeanTimes(sp, n, c);
    ScaledSum(sq, Times(c, n), sp, f);
  }

  /** Every vertex of the scaled polygon, coordinate by coordinate. */
  lemma ScaledAboutAt(points: seq<Vector2D>, c: Vector2D, f: real)
    ensures ScaledX(points, ScaledAbout(points, c, f), c.x, f)
    ensures ScaledY(points, ScaledAbout(points, c, f), c.y, f)
  {
  }

  /** Every vertex of the extended polygon, coordinate by coordinate. */
  lemma ExtendedAt(points: seq<Vector2D>, f: real, c: Vector2D)
    requires |points| > 0 && c == Centroid(points)
    ensures ScaledX(points, Extended(points, f), c.x, f)
    ensures ScaledY(points, Extended(points, f), c.y, f)
  {
    ScaledAboutAt(points, c, f);
  }

  /** The coordinate sums of the extended polygon. */
  lemma ExtendedSumX(points: seq<Vector2D>, f: real, cx: real)
    requires |points| > 0 && cx == Centroid(points).x
    ensures SumX(Extended(points, f)) == Times(cx, |points|) + (SumX(points) - Times(cx, |points|)) * f
  {
    ExtendedAt(points, f, Centroid(points));
    SumXOfScaled(points, Extended(points, f), cx, f);
  }

  lemma ExtendedSumY(points: seq<Vector2D>, f: real, cy: real)
    requires |points| > 0 && cy == Centroid(points).y
    ensures SumY(Extended(points, f)) == Times(cy, |points|) + (SumY(points) - Times(cy, |points|)) * f
  {
    ExtendedAt(points, f, Centroid(points));
    SumYOfScaled(points, Extended(points, f), cy, f);
  }

  lemma ExtendedKeepsMeanX(points: seq<Vector2D>, f: real)
    requires |points| > 0
    ensures SumX(Extended(points, f)) / (|points| as real) == Centroid(points).x
  {
    var c := Centroid(points);
    ExtendedSumX(points, f, c.x);
    MeanOfScaledSum(SumX(Extended(points, f)), SumX(points), |points|, c.x, f);
  }

  lemma ExtendedKeepsMeanY(points: seq<Vector2D>, f: real)
    requires |points| > 0
    ensures SumY(Extended(points, f)) / (|points| as real) == Centroid(points).y
  {
    var c := Centroid(points);
    ExtendedSumY(points, f, c.y);
    MeanOfScaledSum(SumY(Extended(points, f)), SumY(points), |points|, c.y, f);
  }

  /** Scaling about the vertex mean keeps the vertex mean where it was, whatever the factor. */
  lemma ExtendedKeepsCentroid(points: seq<Vector2D>, f: real)
    requires |points| > 0
    ensures Centroid(Extended(points, f)) == Centroid(points)
  {
    ExtendedKeepsMeanX(points, f);
    ExtendedKeepsMeanY(points, f);
  }

  /** `paths.find(path => path.id() == pathId)`. */
  function FindPath(paths: seq<Shape>, pathId: string): (r: Option<Shape>)
    ensures r.Some? ==> r.value in paths && r.value.id == pathId
    ensures r.None? ==> forall s :: s in paths ==> s.id != pathId
  {
    if paths == [] then None
    else if paths[0].id == pathId then Some(paths[0])
    else FindPath(paths[1..], pathId)
  }

  /** The door points of one hit: the midpoint of each consecutive pair, and the last point alone
      when the count is odd. */
  function Midpoints(pts: seq<Vector2D>): (r: seq<Vector2D>)
    ensures |r| == (|pts| + 1) / 2
    decreases |pts|
  {
    if |pts| == 0 then []
    else if |pts| == 1 then [pts[0]]
    else [Midpoint(pts[0], pts[1])] + Midpoints(pts[2..])
  }

  /** Door k sits between points 2k and 2k + 1, or at point 2k when that is the last one. */
  lemma {:induction false} MidpointsAt(pts: seq<Vector2D>, k: nat)
    requires k < (|pts| + 1) / 2
    ensures Midpoints(pts)[k] == if 2 * k + 1 < |pts| then Midpoint(pts[2 * k], pts[2 * k + 1]) else pts[2 * k]
    decreases |pts|
  {
    if k > 0 {
      MidpointsAt(pts[2..], k - 1);
    }
  }

  /** A door found between two rooms, before it is given an id. */
  datatype Door = Door(roomId1: string, roomId2: string, at: Vector2D)

  function DoorsBetween(roomId1: string, roomId2: string, pts: seq<Vector2D>): (r: seq<Door>)
    ensures |r| == |pts|
    ensures forall d :: d in r ==> d.roomId1 == roomId1 && d.roomId2 == roomId2
  {
    seq(|pts|, k requires 0 <= k < |pts| => Door(roomId1, roomId2, pts[k]))
  }

  predicate WellFormedRooms(rooms: seq<RoomData>)
  {
    forall i :: 0 <= i < |rooms| ==> |rooms[i].points| > 0
  }

  /** The doors between room i, extruded to `polygon`, and the shape of room j. */
  function PairDoors(rooms: seq<RoomData>, paths: seq<Shape>, intersect: (Shape, seq<Vector2D>) -> IntersectResult,
                     polygon: seq<Vector2D>, i: nat, j: nat): (r: seq<Door>)
    requires i < |rooms| && j < |rooms|
    ensures FindPath(paths, rooms[j].pathId).None? ==> r == []
    ensures forall d :: d in r ==> d.roomId1 == rooms[i].id && d.roomId2 == rooms[j].id
  {
    match FindPath(paths, rooms[j].pathId)
    case None => []
    case Some(path) =>
      var hit := intersect(path, polygon);
      if hit.intersects then DoorsBetween(rooms[i].id, rooms[j].id, Midpoints(hit.points)) else []
  }

  /** The doors of the pairs (i, i + 1), ..., (i, j - 1). */
  function RowDoors(rooms: seq<RoomData>, paths: seq<Shape>, intersect: (Shape, seq<Vector2D>) -> IntersectResult,
                    polygon: seq<Vector2D>, i: nat, j: nat): seq<Door>
    requires i < |rooms| && j <= |rooms|
  {
    if j <= i + 1 then []
    else RowDoors(rooms, paths, intersect, polygon, i, j - 1) + PairDoors(rooms, paths, intersect, polygon, i, j - 1)
  }

  /** The doors of every pair (i, j) with i < k and i < j, in the order they are found; room i is
      extruded by `ExtensionFactor` about its vertex mean. */
  function AllDoors(rooms: seq<RoomData>, paths: seq<Shape>, intersect: (Shape, seq<Vector2D>) -> IntersectResult,
                    k: nat): seq<Door>
    requires WellFormedRooms(rooms) && k <= |rooms|
  {
    if k == 0 then []
    else AllDoors(rooms, paths, intersect, k - 1) +
         RowDoors(rooms, paths, intersect, Extended(rooms[k - 1].points, ExtensionFactor), k - 1, |rooms|)
  }

  /** generateIntersection, with the fresh id supplied. */
  function GenerateIntersection(roomId1: string, roomId2: string, intersection: Vector2D, id: string): (r: RoomIntersection)
    ensures r.id == id && r.intersection == intersection
    ensures r.roomId1 == roomId1 && r.roomId2 == roomId2
  {
    RoomIntersection(id, roomId1, roomId2, intersection)
  }

  /** generateFloorIntersection, with the fresh id supplied: a new floor intersection has no targets. */
  function GenerateFloorIntersection(originRoomId: string, isElevator: bool, intersection: Vector2D, id: string)
    : (r: FloorIntersection)
    ensures r.id == id && r.intersection == intersection && r.targets == []
    ensures r.originRoomId == originRoomId && r.isElevator == isElevator
  {
    FloorIntersection(id, intersection, isElevator, originRoomId, [])
  }

  /** The doors as records; the k-th record gets the k-th fresh id after `base`. */
  function Label(doors: seq<Door>, uuid: nat -> string, base: nat): (r: seq<RoomIntersection>)
    ensures |r| == |doors|
  {
    seq(|doors|, k requires 0 <= k < |doors| =>
      GenerateIntersection(doors[k].roomId1, doors[k].roomId2, doors[k].at, uuid(base + k)))
  }

  lemma LabelSnoc(doors: seq<Door>, d: Door, uuid: nat -> string, base: nat)
    ensures Label(doors + [d], uuid, base) ==
            Label(doors, uuid, base) + [GenerateIntersection(d.roomId1, d.roomId2, d.at, uuid(base + |doors|))]
  {
  }

  /** One more door point adds one record, with the next fresh id. */
  lemma PushOne(doors: seq<Door>, emitted: seq<Vector2D>, roomId1: string, roomId2: string, middle: Vector2D,
                uuid: nat -> string, base: nat)
    ensures Label(doors + DoorsBetween(roomId1, roomId2, emitted + [middle]), uuid, base) ==
            Label(doors + DoorsBetween(roomId1, roomId2, emitted), uuid, base) +
            [GenerateIntersection(roomId1, roomId2, middle, uuid(base + |doors| + |emitted|))]
  {
    var before := doors + DoorsBetween(roomId1, roomId2, emitted);
    LabelSnoc(before, Door(roomId1, roomId2, middle), uuid, base);
    assert DoorsBetween(roomId1, roomId2, emitted + [middle]) == before[|doors|..] + [Door(roomId1, roomId2, middle)];
    assert before + [Door(roomId1, roomId2, middle)] == doors + DoorsBetween(roomId1, roomId2, emitted + [middle]);
  }

  /** The door points from position i on: the midpoint of points i and i + 1, then the rest. */
  lemma MidpointsPair(points: seq<Vector2D>, i: nat)
    requires i + 1 < |points|
    ensures Midpoints(points[i..]) == [Midpoint(points[i], points[i + 1])] + Midpoints(points[i + 2..])
  {
    assert points[i..][2..] == points[i + 2..];
  }

  /** An odd last point is a door point of its own. */
  lemma MidpointsLast(points: seq<Vector2D>, i: nat)
    requires i + 1 == |points|
    ensures Midpoints(points[i..]) == [points[i]]
  {
  }

  /** The inner loop over the points of one hit, two at a time. */
  method PushDoors(intersections: seq<RoomIntersection>, ghost doors: seq<Door>, roomId1: string, roomId2: string,
                   points: seq<Vector2D>, uuid: nat -> string, base: nat)
    returns (out: seq<RoomIntersection>)
    requires intersections == Label(doors, uuid, base)
    ensures out == Label(doors + DoorsBetween(roomId1, roomId2, Midpoints(points)), uuid, base)
  {
    out := intersections;
    ghost var emitted: seq<Vector2D> := [];
    var i := 0;
    while i < |points|
      invariant 0 <= i <= |points| + 1
      invariant i <= |points| ==> emitted + Midpoints(points[i..]) == Midpoints(points)
      invariant i > |points| ==> emitted == Midpoints(points)
      invariant out == Label(doors + DoorsBetween(roomId1, roomId2, emitted), uuid, base)
      decreases |points| - i
    {
      var middle := points[i];
      if |points| > i + 1 {
        middle := Vector2D((middle.x + points[i + 1].x) / 2.0, (middle.y + points[i + 1].y) / 2.0);
        assert middle == Midpoint(points[i], points[i + 1]);
        MidpointsPair(points, i);
      } else {
        MidpointsLast(points, i);
      }
      PushOne(doors, emitted, roomId1, roomId2, middle, uuid, base);
      assert |out| == |doors| + |emitted|;
      out := out + [GenerateIntersection(roomId1, roomId2, middle, uuid(base + |out|))];
      emitted := emitted + [middle];
      i := i + 2;
    }
    if i == |points| {
      assert points[i..] == [];
    }
  }

  /** findAllPathIntersections: the pairs i < j in order, every door labelled with the next fresh id. */
  method FindAllPathIntersections(roomData: seq<RoomData>, paths: seq<Shape>,
                                  intersect: (Shape, seq<Vector2D>) -> IntersectResult, uuid: nat -> string, base: nat)
    returns (intersections: seq<RoomIntersection>)
    requires WellFormedRooms(roomData)
    ensures intersections == Label(AllDoors(roomData, paths, intersect, |roomData|), uuid, base)
  {
    intersections := [];
    for i := 0 to |roomData|
      invariant intersections == Label(AllDoors(roomData, paths, intersect, i), uuid, base)
    {
      var room1 := roomData[i];
      var polygon := CreateExtendedPolygon(room1.points, ExtensionFactor);
      ghost var done := AllDoors(roomData, paths, intersect, i);
      intersections := ScanLaterRooms(roomData, paths, intersect, uuid, base, i, polygon, done, intersections);
      AllDoorsStep(roomData, paths, intersect, polygon, i);
    }
  }

  /** Room i's row of doors follows those of the rooms before it. */
  lemma AllDoorsStep(rooms: seq<RoomData>, paths: seq<Shape>, intersect: (Shape, seq<Vector2D>) -> IntersectResult,
                     polygon: seq<Vector2D>, i: nat)
    requires WellFormedRooms(rooms) && i < |rooms| && polygon == Extended(rooms[i].points, ExtensionFactor)
    ensures AllDoors(rooms, paths, intersect, i + 1)
         == AllDoors(rooms, paths, intersect, i) + RowDoors(rooms, paths, intersect, polygon, i, |rooms|)
  {
  }

  /** The loop over the rooms after room i, after the records `done` of the rooms before it. */
  method ScanLaterRooms(roomData: seq<RoomData>, paths: seq<Shape>, intersect: (Shape, seq<Vector2D>) -> IntersectResult,
                        uuid: nat -> string, base: nat, i: nat, polygon: seq<Vector2D>, ghost done: seq<Door>,
                        intersections: seq<RoomIntersection>)
    returns (out: seq<RoomIntersection>)
    requires i < |roomData|
    requires intersections == Label(done, uuid, base)
    ensures out == Label(done + RowDoors(roomData, paths, intersect, polygon, i, |roomData|), uuid, base)
  {
    out := intersections;
    assert done + RowDoors(roomData, paths, intersect, polygon, i, i + 1) == done;
    for j := i + 1 to |roomData|
      invariant out == Label(done + RowDoors(roomData, paths, intersect, polygon, i, j), uuid, base)
    {
      out := VisitPair(roomData, paths, intersect, uuid, base, i, j, polygon, done, out);
    }
  }

  /** One pass of the loop over later rooms: the pair (i, j). */
  method VisitPair(roomData: seq<RoomData>, paths: seq<Shape>, intersect: (Shape, seq<Vector2D>) -> IntersectResult,
                   uuid: nat -> string, base: nat, i: nat, j: nat, polygon: seq<Vector2D>, ghost done: seq<Door>,
                   intersections: seq<RoomIntersection>)
    returns (out: seq<RoomIntersection>)
    requires i < j < |roomData|
    requires intersections == Label(done + RowDoors(roomData, paths, intersect, polygon, i, j), uuid, base)
    ensures out == Label(done + RowDoors(roomData, paths, intersect, polygon, i, j + 1), uuid, base)
  {
    out := intersections;
    var room1, room2 := roomData[i], roomData[j];
    var path := FindPath(paths, room2.pathId);
    ghost var row := RowDoors(roomData, paths, intersect, polygon, i, j);
    ghost var pair := PairDoors(roomData, paths, intersect, polygon, i, j);
    RowDoorsStep(roomData, paths, intersect, polygon, i, j, done);
    if path.Some? {
      var intersection := intersect(path.value, polygon);
      if intersection.intersects {
        out := PushDoors(out, done + row, room1.id, room2.id, intersection.points, uuid, base);
      }
    }
  }

  /** The records after the pair (i, j): those before it, then the pair's doors. */
  lemma RowDoorsStep(rooms: seq<RoomData>, paths: seq<Shape>, intersect: (Shape, seq<Vector2D>) -> IntersectResult,
                     polygon: seq<Vector2D>, i: nat, j: nat, done: seq<Door>)
    requires i < j < |rooms|
    ensures done + RowDoors(rooms, paths, intersect, polygon, i, j + 1) ==
            (done + RowDoors(rooms, paths, intersect, polygon, i, j)) + PairDoors(rooms, paths, intersect, polygon, i, j)
  {
  }

  /** `d` joins room i to one of the rooms i + 1, ..., j - 1. */
  predicate JoinsRow(rooms: seq<RoomData>, d: Door, i: nat, j: nat)
    requires i < |rooms| && j <= |rooms|
  {
    d.roomId1 == rooms[i].id && exists b :: i < b < j && d.roomId2 == rooms[b].id
  }

  /** `d` joins one of the rooms 0, ..., k - 1 to a later room. */
  predicate JoinsEarlierToLater(rooms: seq<RoomData>, d: Door, k: nat)
    requires k <= |rooms|
  {
    exists i, j :: 0 <= i < j < |rooms| && i < k && d.roomId1 == rooms[i].id && d.roomId2 == rooms[j].id
  }

  /** Every door found joins an earlier room (roomId1) to a later one (roomId2). */
  lemma {:induction false} DoorsJoinEarlierToLater(rooms: seq<RoomData>, paths: seq<Shape>,
                                                   intersect: (Shape, seq<Vector2D>) -> IntersectResult, k: nat)
    requires WellFormedRooms(rooms) && k <= |rooms|
    ensures forall d :: d in AllDoors(rooms, paths, intersect, k) ==> JoinsEarlierToLater(rooms, d, k)
  {
    if k > 0 {
      DoorsJoinEarlierToLater(rooms, paths, intersect, k - 1);
      var polygon := Extended(rooms[k - 1].points, ExtensionFactor);
      RowDoorsJoin(rooms, paths, intersect, polygon, k - 1, |rooms|);
      var prev := AllDoors(rooms, paths, intersect, k - 1);
      var row := RowDoors(rooms, paths, intersect, polygon, k - 1, |rooms|);
      assert AllDoors(rooms, paths, intersect, k) == prev + row;
      assert forall d :: d in prev ==> JoinsEarlierToLater(rooms, d, k - 1);
      forall d | d in prev + row
        ensures JoinsEarlierToLater(rooms, d, k)
      {
        if d in prev {
          var a, b :| 0 <= a < b < |rooms| && a < k - 1 && d.roomId1 == rooms[a].id && d.roomId2 == rooms[b].id;
          assert a < k;
        } else {
          assert d in row;
          assert JoinsRow(rooms, d, k - 1, |rooms|);
          var b :| k - 1 < b < |rooms| && d.roomId2 == rooms[b].id;
          assert 0 <= k - 1 < b < |rooms| && d.roomId1 == rooms[k - 1].id;
        }
      }
    }
  }

  lemma {:induction false} RowDoorsJoin(rooms: seq<RoomData>, paths: seq<Shape>,
                                       intersect: (Shape, seq<Vector2D>) -> IntersectResult, polygon: seq<Vector2D>,
                                       i: nat, j: nat)
    requires i < |rooms| && j <= |rooms|
    ensures forall d :: d in RowDoors(rooms, paths, intersect, polygon, i, j) ==> JoinsRow(rooms, d, i, j)
  {
    if j > i + 1 {
      RowDoorsJoin(rooms, paths, intersect, polygon, i, j - 1);
      var prev := RowDoors(rooms, paths, intersect, polygon, i, j - 1);
      var pair := PairDoors(rooms, paths, intersect, polygon, i, j - 1);
      assert RowDoors(rooms, paths, intersect, polygon, i, j) == prev + pair;
      forall d | d in prev + pair
        ensures JoinsRow(rooms, d, i, j)
      {
        if d in pair {
          assert i < j - 1 < j && d.roomId2 == rooms[j - 1].id;
        } else {
          assert JoinsRow(rooms, d, i, j - 1);
          var b :| i < b < j - 1 && d.roomId2 == rooms[b].id;
          assert i < b < j;
        }
      }
    }
  }

  /** With an injective id supply every generated record has its own id. */
  lemma LabelIdsDistinct(doors: seq<Door>, uuid: nat -> string, base: nat)
    requires forall a, b :: a != b ==> uuid(a) != uuid(b)
    ensures forall k, l :: 0 <= k < l < |doors| ==> Label(doors, uuid, base)[k].id != Label(doors, uuid, base)[l].id
  {
  }
}
