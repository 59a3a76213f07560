/** `findEnclosingPath` and `findEnclosingPathWithDirection` of src/utils.ts: which drawn shape
    encloses a clicked point. Segments are cast from the point in four directions; whether a shape
    meets a segment is decided by the intersection library, supplied here as `hits`. */
module Raycast {
  import opened Dto
  import opened Shapes
  import opened PolygonContainment
  import opened Frequency

  /** The defaults of `distanceLimit` and `distanceStep`; no caller passes other values. */
  const DefaultLimit: int := 300
  const DefaultStep: int := 2

  /** The shapes, in list order, that meet the segment from `start` to `end`. */
  function HitsAt(paths: seq<Shape>, start: Vector2D, end: Vector2D,
                  hits: (Shape, Vector2D, Vector2D) -> bool): (r: seq<Shape>)
    ensures |r| <= |paths|
    ensures forall s :: s in r <==> s in paths && hits(s, start, end)
  {
    if paths == [] then []
    else
      var last := paths[|paths| - 1];
      assert paths == paths[..|paths| - 1] + [last];
      HitsAt(paths[..|paths| - 1], start, end, hits) + (if hits(last, start, end) then [last] else [])
  }

  /** The end of the probe segment at distance `off` along `dir`. */
  function ProbeEnd(origin: Vector2D, dir: Vector2D, off: int): Vector2D
  {
    Vector2D(origin.x + dir.x * (off as real), origin.y + dir.y * (off as real))
  }

  /** `o` is one of the offsets off, off + step, off + 2 * step, ... */
  predicate OnGrid(off: int, step: int, o: int)
    requires step > 0
    decreases o - off
  {
    off <= o && (o == off || OnGrid(off + step, step, o))
  }

  /** With the default step the grid from 0 is the even offsets 0, 2, 4, ... */
  lemma {:induction false} DefaultGridIsEven(off: int, o: int)
    ensures OnGrid(off, DefaultStep, o) <==> off <= o && (o - off) % 2 == 0
    decreases o - off
  {
    if off < o {
      DefaultGridIsEven(off + DefaultStep, o);
    }
  }

  /** The first offset on the grid from `off` below `limit` at which something is hit. */
  function FirstHit(paths: seq<Shape>, origin: Vector2D, dir: Vector2D, limit: int, step: int,
                    hits: (Shape, Vector2D, Vector2D) -> bool, off: int): (r: Option<int>)
    requires step > 0
    ensures r.Some? ==> OnGrid(off, step, r.value) && r.value < limit &&
                        HitsAt(paths, origin, ProbeEnd(origin, dir, r.value), hits) != []
    ensures forall o :: OnGrid(off, step, o) && o < limit && (r.None? || o < r.value) ==>
                          HitsAt(paths, origin, ProbeEnd(origin, dir, o), hits) == []
    decreases limit - off
  {
    if off >= limit then None
    else if HitsAt(paths, origin, ProbeEnd(origin, dir, off), hits) != [] then Some(off)
    else FirstHit(paths, origin, dir, limit, step, hits, off + step)
  }

  /** The list `findEnclosingPathWithDirection` returns when it reaches offset `off`. */
  function ProbeFrom(paths: seq<Shape>, origin: Vector2D, dir: Vector2D, limit: int, step: int,
                     hits: (Shape, Vector2D, Vector2D) -> bool, off: int): seq<Shape>
    requires step > 0
    decreases limit - off
  {
    if off >= limit then []
    else
      var found := HitsAt(paths, origin, ProbeEnd(origin, dir, off), hits);
      if found != [] then found else ProbeFrom(paths, origin, dir, limit, step, hits, off + step)
  }

  function Probe(paths: seq<Shape>, origin: Vector2D, dir: Vector2D, limit: int, step: int,
                 hits: (Shape, Vector2D, Vector2D) -> bool): seq<Shape>
    requires step > 0
  {
    ProbeFrom(paths, origin, dir, limit, step, hits, 0)
  }

  /** The probe returns the shapes hit at the first offset that hits anything, or nothing when no
      offset below the limit hits. */
  lemma {:induction false} ProbeIsFirstHit(paths: seq<Shape>, origin: Vector2D, dir: Vector2D, limit: int, step: int,
                                           hits: (Shape, Vector2D, Vector2D) -> bool, off: int)
    requires step > 0
    ensures ProbeFrom(paths, origin, dir, limit, step, hits, off) ==
            match FirstHit(paths, origin, dir, limit, step, hits, off)
            case None => []
            case Some(o) => HitsAt(paths, origin, ProbeEnd(origin, dir, o), hits)
    decreases limit - off
  {
    if off < limit && HitsAt(paths, origin, ProbeEnd(origin, dir, off), hits) == [] {
      ProbeIsFirstHit(paths, origin, dir, limit, step, hits, off + step);
    }
  }

  /** The inner loop of findEnclosingPathWithDirection: every shape the segment meets, in list order. */
  method CollectHits(paths: seq<Shape>, start: Vector2D, end: Vector2D, hits: (Shape, Vector2D, Vector2D) -> bool)
    returns (foundPaths: seq<Shape>)
    ensures foundPaths == HitsAt(paths, start, end, hits)
  {
    foundPaths := [];
    for k := 0 to |paths|
      invariant foundPaths == HitsAt(paths[..k], start, end, hits)
    {
      HitsAtSnoc(paths, k, start, end, hits);
      if hits(paths[k], start, end) {
        foundPaths := foundPaths + [paths[k]];
      }
    }
    assert paths[..|paths|] == paths;
  }

  method FindEnclosingPathWithDirection(paths: seq<Shape>, x: real, y: real, xOffset: real, yOffset: real,
                                        distanceLimit: int, distanceStep: int,
                                        hits: (Shape, Vector2D, Vector2D) -> bool)
    returns (foundPaths: seq<Shape>)
    requires distanceStep > 0
    ensures foundPaths == Probe(paths, Vector2D(x, y), Vector2D(xOffset, yOffset), distanceLimit, distanceStep, hits)
  {
    var origin, dir := Vector2D(x, y), Vector2D(xOffset, yOffset);
    foundPaths := [];
    var i := 0;
    while i < distanceLimit
      invariant foundPaths == []
      invariant Probe(paths, origin, dir, distanceLimit, distanceStep, hits) ==
                ProbeFrom(paths, origin, dir, distanceLimit, distanceStep, hits, i)
      decreases distanceLimit - i
    {
      var lineEnd := ProbeEnd(origin, dir, i);
      foundPaths := CollectHits(paths, origin, lineEnd, hits);
      ProbeFromStep(paths, origin, dir, distanceLimit, distanceStep, hits, i);
      if |foundPaths| > 0 {
        return;
      }
      i := i + distanceStep;
    }
  }

  lemma HitsAtSnoc(paths: seq<Shape>, k: nat, start: Vector2D, end: Vector2D,
                   hits: (Shape, Vector2D, Vector2D) -> bool)
    requires k < |paths|
    ensures hits(paths[k], start, end) ==>
              HitsAt(paths[..k + 1], start, end, hits) == HitsAt(paths[..k], start, end, hits) + [paths[k]]
    ensures !hits(paths[k], start, end) ==>
              HitsAt(paths[..k + 1], start, end, hits) == HitsAt(paths[..k], start, end, hits)
  {
    assert paths[..k + 1][..k] == paths[..k];
  }

  lemma ProbeFromStep(paths: seq<Shape>, origin: Vector2D, dir: Vector2D, limit: int, step: int,
                      hits: (Shape, Vector2D, Vector2D) -> bool, off: int)
    requires step > 0 && off < limit
    ensures var found := HitsAt(paths, origin, ProbeEnd(origin, dir, off), hits);
      ProbeFrom(paths, origin, dir, limit, step, hits, off)
      == if found != [] then found else ProbeFrom(paths, origin, dir, limit, step, hits, off + step)
  {
  }

  /** The cast directions, in the order tried: down, up, right, left in map coordinates. */
  function Direction(d: nat): (r: Vector2D)
    requires d < 4
    ensures (r.x == 0.0) != (r.y == 0.0)
  {
    var xOffset := if d == 2 then 1.0 else if d == 3 then -1.0 else 0.0;
    var yOffset := if d == 0 then 1.0 else if d == 1 then -1.0 else 0.0;
    Vector2D(xOffset, yOffset)
  }

  function Found(paths: seq<Shape>, v: Vector2D, hits: (Shape, Vector2D, Vector2D) -> bool, d: nat): seq<Shape>
    requires d < 4
  {
    Probe(paths, v, Direction(d), DefaultLimit, DefaultStep, hits)
  }

  /** `running.filter(p => found.indexOf(p) != -1)`. */
  function KeepIn(running: seq<Shape>, found: seq<Shape>): (r: seq<Shape>)
    ensures |r| <= |running|
    ensures forall s :: s in r <==> s in running && s in found
  {
    if running == [] then []
    else
      var last := running[|running| - 1];
      assert running == running[..|running| - 1] + [last];
      KeepIn(running[..|running| - 1], found) + (if last in found then [last] else [])
  }

  /** The running candidate list after the first `d` directions. */
  function Running(paths: seq<Shape>, v: Vector2D, hits: (Shape, Vector2D, Vector2D) -> bool, d: nat): seq<Shape>
    requires d <= 4
  {
    if d == 0 then []
    else
      var found := Found(paths, v, hits, d - 1);
      KeepIn(Running(paths, v, hits, d - 1), found) + found
  }

  /** Shapes whose vertex list contains `v`. */
  function InsideOnly(s: seq<Shape>, v: Vector2D): (r: seq<Shape>)
    ensures forall x :: x in r <==> x in s && PolyInside(v, ShapePoints(x))
  {
    if s == [] then []
    else
      var last := s[|s| - 1];
      assert s == s[..|s| - 1] + [last];
      InsideOnly(s[..|s| - 1], v) + (if PolyInside(v, ShapePoints(last)) then [last] else [])
  }

  /** Direction `d` alone settles the search. */
  predicate Decisive(paths: seq<Shape>, v: Vector2D, hits: (Shape, Vector2D, Vector2D) -> bool, d: nat)
    requires d < 4
  {
    var found := Found(paths, v, hits, d);
    |found| == 1 && PolyInside(v, ShapePoints(found[0]))
  }

  /** The value `findEnclosingPath` returns once directions 0, ..., d - 1 were not decisive. */
  function EnclosingFrom(paths: seq<Shape>, v: Vector2D, hits: (Shape, Vector2D, Vector2D) -> bool, d: nat): Option<Shape>
    requires d <= 4
    decreases 4 - d
  {
    if d == 4 then MostFrequentOf(InsideOnly(Running(paths, v, hits, 4), v))
    else if Decisive(paths, v, hits, d) then Some(Found(paths, v, hits, d)[0])
    else EnclosingFrom(paths, v, hits, d + 1)
  }

  method FindEnclosingPath(paths: seq<Shape>, x: real, y: real, hits: (Shape, Vector2D, Vector2D) -> bool)
    returns (r: Option<Shape>)
    ensures r == EnclosingFrom(paths, Vector2D(x, y), hits, 0)
  {
    var intersectedPaths: seq<Shape> := [];
    var clickedPoint := Vector2D(x, y);
    for i := 0 to 4
      invariant intersectedPaths == Running(paths, clickedPoint, hits, i)
      invariant EnclosingFrom(paths, clickedPoint, hits, 0) == EnclosingFrom(paths, clickedPoint, hits, i)
    {
      var xOffset := if i == 2 then 1.0 else if i == 3 then -1.0 else 0.0;
      var yOffset := if i == 0 then 1.0 else if i == 1 then -1.0 else 0.0;
      var foundPaths := FindEnclosingPathWithDirection(paths, x, y, xOffset, yOffset, DefaultLimit, DefaultStep, hits);
      intersectedPaths := KeepIn(intersectedPaths, foundPaths);
      intersectedPaths := intersectedPaths + foundPaths;
      if |foundPaths| == 1 {
        var points := RetrievePointsFromShape(foundPaths[0]);
        var inside := PolyCheck(clickedPoint, points);
        if inside {
          return Some(foundPaths[0]);
        }
      }
    }
    intersectedPaths := InsideOnly(intersectedPaths, clickedPoint);
    r := MostFrequentArrayElement(intersectedPaths);
  }

  /** Every candidate was hit by some cast, so it is one of the given shapes. */
  lemma {:induction false} RunningInPaths(paths: seq<Shape>, v: Vector2D, hits: (Shape, Vector2D, Vector2D) -> bool, d: nat)
    requires d <= 4
    ensures forall s :: s in Running(paths, v, hits, d) ==> s in paths
  {
    if d > 0 {
      RunningInPaths(paths, v, hits, d - 1);
      ProbeInPaths(paths, v, Direction(d - 1), DefaultLimit, DefaultStep, hits);
    }
  }

  lemma ProbeInPaths(paths: seq<Shape>, origin: Vector2D, dir: Vector2D, limit: int, step: int,
                     hits: (Shape, Vector2D, Vector2D) -> bool)
    requires step > 0
    ensures forall s :: s in Probe(paths, origin, dir, limit, step, hits) ==> s in paths
  {
    ProbeIsFirstHit(paths, origin, dir, limit, step, hits, 0);
  }

  /** The result, when there is one, is a given shape that contains the point. */
  lemma {:induction false} EnclosingIsSound(paths: seq<Shape>, v: Vector2D, hits: (Shape, Vector2D, Vector2D) -> bool, d: nat)
    requires d <= 4
    ensures EnclosingFrom(paths, v, hits, d).Some? ==>
              EnclosingFrom(paths, v, hits, d).value in paths &&
              PolyInside(v, ShapePoints(EnclosingFrom(paths, v, hits, d).value))
    decreases 4 - d
  {
    if d == 4 {
      RunningInPaths(paths, v, hits, 4);
      MostFrequentIsNoneIffEmpty(InsideOnly(Running(paths, v, hits, 4), v));
    } else if Decisive(paths, v, hits, d) {
      ProbeInPaths(paths, v, Direction(d), DefaultLimit, DefaultStep, hits);
      assert Found(paths, v, hits, d)[0] in Found(paths, v, hits, d);
    } else {
      EnclosingIsSound(paths, v, hits, d + 1);
    }
  }

  /** The search gives `null` exactly when no direction is decisive and no candidate contains the point. */
  lemma {:induction false} EnclosingIsNoneIff(paths: seq<Shape>, v: Vector2D, hits: (Shape, Vector2D, Vector2D) -> bool, d: nat)
    requires d <= 4
    ensures EnclosingFrom(paths, v, hits, d).None? <==>
              (forall e :: d <= e < 4 ==> !Decisive(paths, v, hits, e)) &&
              (forall s :: s in Running(paths, v, hits, 4) ==> !PolyInside(v, ShapePoints(s)))
    decreases 4 - d
  {
    if d == 4 {
      var c := InsideOnly(Running(paths, v, hits, 4), v);
      MostFrequentIsNoneIffEmpty(c);
      if c != [] {
        assert c[0] in c;
      }
    } else {
      EnclosingIsNoneIff(paths, v, hits, d + 1);
      if Decisive(paths, v, hits, d) {
        assert EnclosingFrom(paths, v, hits, d).Some?;
      } else {
        assert EnclosingFrom(paths, v, hits, d) == EnclosingFrom(paths, v, hits, d + 1);
        assert (forall e :: d <= e < 4 ==> !Decisive(paths, v, hits, e)) <==>
               (forall e :: d + 1 <= e < 4 ==> !Decisive(paths, v, hits, e));
      }
    }
  }

  /** A shape list without repeats gives a probe result without repeats. */
  lemma {:induction false} HitsAtDistinct(paths: seq<Shape>, start: Vector2D, end: Vector2D,
                                          hits: (Shape, Vector2D, Vector2D) -> bool)
    requires Distinct(paths)
    ensures Distinct(HitsAt(paths, start, end, hits))
  {
    if paths != [] {
      var init := paths[..|paths| - 1];
      assert Distinct(init);
      HitsAtDistinct(init, start, end, hits);
      assert paths[|paths| - 1] !in init;
    }
  }

  lemma ProbeDistinct(paths: seq<Shape>, origin: Vector2D, dir: Vector2D, limit: int, step: int,
                      hits: (Shape, Vector2D, Vector2D) -> bool)
    requires step > 0 && Distinct(paths)
    ensures Distinct(Probe(paths, origin, dir, limit, step, hits))
  {
    ProbeIsFirstHit(paths, origin, dir, limit, step, hits, 0);
    match FirstHit(paths, origin, dir, limit, step, hits, 0)
    case None =>
    case Some(o) => HitsAtDistinct(paths, origin, ProbeEnd(origin, dir, o), hits);
  }
}
