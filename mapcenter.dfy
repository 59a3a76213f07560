/** `calculateMapCenter` of src/utils.ts: the centre of the bounding box of every room vertex.
    The two corners start at the first vertex of the first room and are widened coordinate by
    coordinate while the rooms and their vertices are walked in order. */
module MapCenter {
  import opened Dto

  /** The two corners `minPoint` and `maxPoint` of the source. */
  datatype Bounds = Bounds(lo: Vector2D, hi: Vector2D)

  predicate Contains(b: Bounds, p: Vector2D)
  {
    b.lo.x <= p.x <= b.hi.x && b.lo.y <= p.y <= b.hi.y
  }

  /** One vertex: each of the four comparisons of the loop body, independently. */
  function Include(b: Bounds, p: Vector2D): (r: Bounds)
    ensures Contains(r, p)
  {
    Bounds(Vector2D(if p.x < b.lo.x then p.x else b.lo.x, if p.y < b.lo.y then p.y else b.lo.y),
           Vector2D(if p.x > b.hi.x then p.x else b.hi.x, if p.y > b.hi.y then p.y else b.hi.y))
  }

  /** The corners after visiting `ps` in order: they contain every vertex, only widen, and each
      coordinate is either the starting one or that of some vertex. */
  function Grow(b: Bounds, ps: seq<Vector2D>): (r: Bounds)
    ensures forall i :: 0 <= i < |ps| ==> Contains(r, ps[i])
    ensures r.lo.x <= b.lo.x && r.lo.y <= b.lo.y && b.hi.x <= r.hi.x && b.hi.y <= r.hi.y
    ensures r.lo.x == b.lo.x || exists i :: 0 <= i < |ps| && r.lo.x == ps[i].x
    ensures r.lo.y == b.lo.y || exists i :: 0 <= i < |ps| && r.lo.y == ps[i].y
    ensures r.hi.x == b.hi.x || exists i :: 0 <= i < |ps| && r.hi.x == ps[i].x
    ensures r.hi.y == b.hi.y || exists i :: 0 <= i < |ps| && r.hi.y == ps[i].y
  {
    if ps == [] then b
    else
      var pre := ps[..|ps| - 1];
      assert forall i :: 0 <= i < |pre| ==> pre[i] == ps[i];
      Include(Grow(b, pre), ps[|ps| - 1])
  }

  /** Every vertex of every room, in the order the nested loops visit them. */
  function Flatten(rooms: seq<RoomData>): (r: seq<Vector2D>)
    ensures rooms != [] && rooms[0].points != [] ==> r != [] && r[0] == rooms[0].points[0]
  {
    if rooms == [] then []
    else Flatten(rooms[..|rooms| - 1]) + rooms[|rooms| - 1].points
  }

  /** The bounding box of a non-empty point list, started at its first point. */
  function BoxOf(ps: seq<Vector2D>): (r: Bounds)
    requires |ps| > 0
    ensures forall i :: 0 <= i < |ps| ==> Contains(r, ps[i])
    ensures exists i :: 0 <= i < |ps| && r.lo.x == ps[i].x
    ensures exists i :: 0 <= i < |ps| && r.lo.y == ps[i].y
    ensures exists i :: 0 <= i < |ps| && r.hi.x == ps[i].x
    ensures exists i :: 0 <= i < |ps| && r.hi.y == ps[i].y
  {
    Grow(Bounds(ps[0], ps[0]), ps)
  }

  function Center(b: Bounds): Vector2D
  {
    Vector2D((b.lo.x + b.hi.x) / 2.0, (b.lo.y + b.hi.y) / 2.0)
  }

  lemma {:induction false} GrowAppend(b: Bounds, a: seq<Vector2D>, c: seq<Vector2D>)
    ensures Grow(b, a + c) == Grow(Grow(b, a), c)
    decreases |c|
  {
    if c == [] {
      assert a + c == a;
    } else {
      var c' := c[..|c| - 1];
      assert (a + c)[..|a + c| - 1] == a + c';
      GrowAppend(b, a, c');
    }
  }

  /** The inner loop over one room's vertices. */
  method WidenByRoom(minPoint: Vector2D, maxPoint: Vector2D, points: seq<Vector2D>) returns (lo: Vector2D, hi: Vector2D)
    ensures Bounds(lo, hi) == Grow(Bounds(minPoint, maxPoint), points)
  {
    lo, hi := minPoint, maxPoint;
    for k := 0 to |points|
      invariant Bounds(lo, hi) == Grow(Bounds(minPoint, maxPoint), points[..k])
    {
      var point := points[k];
      assert points[..k + 1][..k] == points[..k];
      if point.x < lo.x {
        lo := lo.(x := point.x);
      }
      if point.y < lo.y {
        lo := lo.(y := point.y);
      }
      if point.x > hi.x {
        hi := hi.(x := point.x);
      }
      if point.y > hi.y {
        hi := hi.(y := point.y);
      }
    }
    assert points[..|points|] == points;
  }

  /** calculateMapCenter. The source reads `rooms[0].points[0]` unguarded, hence the precondition. */
  method CalculateMapCenter(mapData: MapData) returns (center: Vector2D)
    requires |mapData.rooms| > 0 && |mapData.rooms[0].points| > 0
    ensures center == Center(BoxOf(Flatten(mapData.rooms)))
  {
    var rooms := mapData.rooms;
    var first := rooms[0].points[0];
    var minPoint := Vector2D(first.x, first.y);
    var maxPoint := Vector2D(minPoint.x, minPoint.y);
    for r := 0 to |rooms|
      invariant Bounds(minPoint, maxPoint) == Grow(Bounds(first, first), Flatten(rooms[..r]))
    {
      assert rooms[..r + 1][..r] == rooms[..r];
      GrowAppend(Bounds(first, first), Flatten(rooms[..r]), rooms[r].points);
      minPoint, maxPoint := WidenByRoom(minPoint, maxPoint, rooms[r].points);
    }
    assert rooms[..|rooms|] == rooms;
    center := Vector2D((minPoint.x + maxPoint.x) / 2.0, (minPoint.y + maxPoint.y) / 2.0);
  }

  /** The centre lies halfway between the extreme vertices on both axes, so inside the box of all
      vertices. */
  lemma CenterIsInsideBox(ps: seq<Vector2D>)
    requires |ps| > 0
    ensures Contains(BoxOf(ps), Center(BoxOf(ps)))
    ensures Center(BoxOf(ps)).x - BoxOf(ps).lo.x == BoxOf(ps).hi.x - Center(BoxOf(ps)).x
    ensures Center(BoxOf(ps)).y - BoxOf(ps).lo.y == BoxOf(ps).hi.y - Center(BoxOf(ps)).y
  {
    var b := BoxOf(ps);
    assert Contains(b, ps[0]);
  }

  /** A single room that is the unit square has its centre at (0.5, 0.5). */
  lemma UnitSquareCenter()
    ensures Center(BoxOf([Vector2D(0.0, 0.0), Vector2D(0.0, 1.0), Vector2D(1.0, 1.0), Vector2D(1.0, 0.0)])) == Vector2D(0.5, 0.5)
  {
    var ps := [Vector2D(0.0, 0.0), Vector2D(0.0, 1.0), Vector2D(1.0, 1.0), Vector2D(1.0, 0.0)];
    var b := BoxOf(ps);
    assert Contains(b, ps[0]) && Contains(b, ps[2]);
  }
}
