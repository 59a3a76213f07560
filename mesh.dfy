/** The OBJ exporter of src/meshGenerator.ts. Every room is extruded into a prism: its cleaned outline
    at z = 0 and again at z = height, one quad per side, and the faces earcut finds for the outline as
    the bottom cap and, reversed, as the top cap. OBJ vertex indices are 1-based and global, so the
    index of the first vertex of each room is threaded from room to room.
    The output is a list of OBJ lines; number formatting is not modelled. earcut is the parameter
    `earcut`, which takes the flattened coordinates and returns vertex indices, three per triangle. */
module Mesh {
  import opened Dto
  import opened Vectors
  import opened MapCenter
  import opened Scale

  datatype ObjLine =
    | Group(name: string)       // g <name>
    | Comment(text: string)     // # <text>
    | Blank
    | Vertex(x: real, y: real, z: real)
    | Face(indices: seq<nat>)

  /** Whole triangles, each index naming one of `n` vertices. */
  predicate Fits(tris: seq<nat>, n: nat)
  {
    |tris| % 3 == 0 && forall k :: 0 <= k < |tris| ==> tris[k] < n
  }

  /** What earcut guarantees for every outline it is given. */
  ghost predicate IsTriangulator(earcut: seq<real> -> seq<nat>)
  {
    forall pts :: Fits(TriangulatePolygon(pts, earcut), |pts|)
  }

  // ---------------------------------------------------------------- cleanPolygon

  /** The input points without those equal to the input point just before them. */
  function Dedup(s: seq<Vector2D>): (r: seq<Vector2D>)
    ensures |r| <= |s|
    ensures |s| > 0 ==> |r| > 0 && r[0] == s[0] && r[|r| - 1] == s[|s| - 1]
  {
    if s == [] then []
    else
      var pre := s[..|s| - 1];
      if |s| > 1 && s[|s| - 1] == s[|s| - 2] then Dedup(pre) else Dedup(pre) + [s[|s| - 1]]
  }

  function Rebased(ps: seq<Vector2D>, center: Vector2D, scale: real): (r: seq<Vector2D>)
    ensures |r| == |ps|
  {
    seq(|ps|, i requires 0 <= i < |ps| => CenterAndScaleVector(ps[i], center, scale))
  }

  /** The outline cleanPolygon returns: deduplicated, re-based, and closed by a copy of its first point
      when the last one differs. */
  function Cleaned(center: Vector2D, scale: real, points: seq<Vector2D>): (r: seq<Vector2D>)
    requires |points| > 0
    ensures |r| > 0 && r[0] == r[|r| - 1]
    ensures |Dedup(points)| <= |r| <= |Dedup(points)| + 1
    ensures r[..|Dedup(points)|] == Rebased(Dedup(points), center, scale)
  {
    var ps := Rebased(Dedup(points), center, scale);
    if ps[0] != ps[|ps| - 1] then ps + [ps[0]] else ps
  }

  /** cleanPolygon. The source reads `cleaned[0]` unguarded, hence the precondition. */
  method CleanPolygon(center: Vector2D, scale: real, points: seq<Vector2D>) returns (cleaned: seq<Vector2D>)
    requires |points| > 0
    ensures cleaned == Cleaned(center, scale, points)
  {
    cleaned := [];
    for i := 0 to |points|
      invariant cleaned == Rebased(Dedup(points[..i]), center, scale)
    {
      var current := points[i];
      assert points[..i + 1][..i] == points[..i];
      if i > 0 && current.x == points[i - 1].x && current.y == points[i - 1].y {
        continue;
      }
      cleaned := cleaned + [CenterAndScaleVector(current, center, scale)];
    }
    assert points[..|points|] == points;
    var first := cleaned[0];
    var last := cleaned[|cleaned| - 1];
    if first.x != last.x || first.y != last.y {
      cleaned := cleaned + [first];
    }
  }

  /** The closing copy of the first point is added exactly when the re-based outline is open. */
  lemma ClosedExactlyWhenOpen(center: Vector2D, scale: real, points: seq<Vector2D>)
    requires |points| > 0
    ensures var ps := Rebased(Dedup(points), center, scale);
      (|Cleaned(center, scale, points)| == |ps| + 1 <==> ps[0] != ps[|ps| - 1]) &&
      (|Cleaned(center, scale, points)| == |ps| + 1 ==> Cleaned(center, scale, points)[|ps|] == ps[0])
  {
  }

  /** No two neighbours of a deduplicated outline are equal. */
  lemma {:induction false} DedupHasNoRepeats(s: seq<Vector2D>)
    ensures forall i :: 0 <= i < |Dedup(s)| - 1 ==> Dedup(s)[i] != Dedup(s)[i + 1]
  {
    if s != [] {
      DedupHasNoRepeats(s[..|s| - 1]);
    }
  }

  /** Deduplicating keeps every point value that occurs, and adds none. */
  lemma {:induction false} DedupKeepsPoints(s: seq<Vector2D>)
    ensures forall x :: x in Dedup(s) <==> x in s
  {
    if s != [] {
      var pre := s[..|s| - 1];
      DedupKeepsPoints(pre);
      assert s == pre + [s[|s| - 1]];
      if |s| > 1 && s[|s| - 1] == s[|s| - 2] {
        assert s[|s| - 2] == pre[|pre| - 1];
      }
    }
  }

  /** An outline without repeated neighbours is only re-based (and closed). */
  lemma {:induction false} DedupOfDistinctNeighbours(s: seq<Vector2D>)
    requires forall i :: 0 <= i < |s| - 1 ==> s[i] != s[i + 1]
    ensures Dedup(s) == s
  {
    if s != [] {
      var pre := s[..|s| - 1];
      DedupOfDistinctNeighbours(pre);
    }
  }

  // ---------------------------------------------------------------- triangulatePolygon

  /** `points.flatMap(p => [p.x, p.y])` */
  function Flat(points: seq<Vector2D>): (r: seq<real>)
    ensures |r| == 2 * |points|
  {
    seq(2 * |points|, i requires 0 <= i < 2 * |points| => if i % 2 == 0 then points[i / 2].x else points[i / 2].y)
  }

  /** Point k sits at positions 2k and 2k + 1 of the flattened coordinates. */
  lemma FlatAt(points: seq<Vector2D>, k: nat)
    requires k < |points|
    ensures Flat(points)[2 * k] == points[k].x && Flat(points)[2 * k + 1] == points[k].y
  {
  }

  function TriangulatePolygon(points: seq<Vector2D>, earcut: seq<real> -> seq<nat>): seq<nat>
  {
    earcut(Flat(points))
  }

  // ---------------------------------------------------------------- generateObjFromRoom

  const Rule: string := "============================"

  /** `g <id>` and the comment banner naming the room, then an empty line. */
  function Header(room: RoomData): (r: seq<ObjLine>)
    ensures |r| == 5 && r[0] == Group(room.id)
  {
    [Group(room.id), Comment(Rule), Comment(room.name + " (" + room.id + ") extruded OBJ (triangulated)"),
     Comment(Rule), Blank]
  }

  function BottomVertices(pts: seq<Vector2D>): (r: seq<ObjLine>)
    ensures |r| == |pts|
  {
    seq(|pts|, i requires 0 <= i < |pts| => Vertex(pts[i].x, pts[i].y, 0.0))
  }

  function TopVertices(pts: seq<Vector2D>, height: real): (r: seq<ObjLine>)
    ensures |r| == |pts|
  {
    seq(|pts|, i requires 0 <= i < |pts| => Vertex(pts[i].x, pts[i].y, height))
  }

  /** The vertex after `i` around a ring of `n`. */
  function Next(i: nat, n: nat): (r: nat)
    requires i < n
    ensures r < n
  {
    if i + 1 < n then i + 1 else 0
  }

  /** Next is the source's `(i + 1) % vertexCount`. */
  lemma NextIsMod(i: nat, n: nat)
    requires i < n
    ensures Next(i, n) == (i + 1) % n
  {
  }

  /** Quad i joins bottom vertices i and i + 1 (mod n) to the top vertices above them. */
  function SideFaces(bottomStart: nat, n: nat): (r: seq<ObjLine>)
    ensures |r| == n
  {
    seq(n, i requires 0 <= i < n =>
      Face([bottomStart + i, bottomStart + Next(i, n), bottomStart + n + Next(i, n), bottomStart + n + i]))
  }

  function BottomFaces(bottomStart: nat, tris: seq<nat>): (r: seq<ObjLine>)
    ensures |r| == |tris| / 3
  {
    seq(|tris| / 3, k requires 0 <= k < |tris| / 3 =>
      Face([bottomStart + tris[3 * k], bottomStart + tris[3 * k + 1], bottomStart + tris[3 * k + 2]]))
  }

  function TopFaces(topStart: nat, tris: seq<nat>): (r: seq<ObjLine>)
    ensures |r| == |tris| / 3
  {
    seq(|tris| / 3, k requires 0 <= k < |tris| / 3 =>
      Face([topStart + tris[3 * k + 2], topStart + tris[3 * k + 1], topStart + tris[3 * k]]))
  }

  /** The block generateObjFromRoom emits for one room whose cleaned outline is `pts` and whose first
      vertex gets index `offset`. */
  function RoomBlock(room: RoomData, pts: seq<Vector2D>, offset: nat, height: real,
                     earcut: seq<real> -> seq<nat>): seq<ObjLine>
  {
    var n := |pts|;
    var tris := TriangulatePolygon(pts, earcut);
    Header(room) + BottomVertices(pts) + TopVertices(pts, height)
    + [Blank, Comment("Side faces")] + SideFaces(offset, n)
    + [Blank, Comment("Bottom face")] + BottomFaces(offset, tris)
    + [Blank, Comment("Top face")] + TopFaces(offset + n, tris)
  }

  /** generateObjFromRoom: clean the outline, then extrude it. */
  method GenerateObjFromRoom(roomData: RoomData, center: Vector2D, scale: real, vertexOffset: nat, height: real,
                             earcut: seq<real> -> seq<nat>)
    returns (data: seq<ObjLine>, newVertexOffset: nat)
    requires |roomData.points| > 0 && IsTriangulator(earcut)
    ensures data == RoomBlock(roomData, Cleaned(center, scale, roomData.points), vertexOffset, height, earcut)
    ensures newVertexOffset == vertexOffset + 2 * |Cleaned(center, scale, roomData.points)|
  {
    var cleanedPoints := CleanPolygon(center, scale, roomData.points);
    data, newVertexOffset := ExtrudeRoom(roomData, cleanedPoints, vertexOffset, height, earcut);
  }

  /** The body of generateObjFromRoom after the outline is cleaned: header, the two vertex rings,
      the side quads and the two caps. */
  method ExtrudeRoom(roomData: RoomData, cleanedPoints: seq<Vector2D>, vertexOffset: nat, height: real,
                     earcut: seq<real> -> seq<nat>)
    returns (data: seq<ObjLine>, newVertexOffset: nat)
    requires Fits(TriangulatePolygon(cleanedPoints, earcut), |cleanedPoints|)
    ensures data == RoomBlock(roomData, cleanedPoints, vertexOffset, height, earcut)
    ensures newVertexOffset == vertexOffset + 2 * |cleanedPoints|
  {
    var vertexCount := |cleanedPoints|;
    var obj := Header(roomData);
    obj := EmitVertices(obj, cleanedPoints, 0.0);
    obj := EmitVertices(obj, cleanedPoints, height);
    var bottomStart := vertexOffset;
    var topStart := bottomStart + vertexCount;
    obj := obj + [Blank, Comment("Side faces")];
    obj := EmitSides(obj, bottomStart, vertexCount);
    var triangles := TriangulatePolygon(cleanedPoints, earcut);
    obj := obj + [Blank, Comment("Bottom face")];
    obj := EmitCap(obj, bottomStart, triangles, false);
    obj := obj + [Blank, Comment("Top face")];
    obj := EmitCap(obj, topStart, triangles, true);
    data := obj;
    newVertexOffset := topStart + vertexCount;
  }

  /** The side-face loop: one quad per outline edge, the last one wrapping around to vertex 0. */
  method EmitSides(obj: seq<ObjLine>, bottomStart: nat, vertexCount: nat) returns (out: seq<ObjLine>)
    ensures out == obj + SideFaces(bottomStart, vertexCount)
  {
    var topStart := bottomStart + vertexCount;
    ghost var sides := SideFaces(bottomStart, vertexCount);
    out := obj;
    for i := 0 to vertexCount
      invariant out == obj + sides[..i]
    {
      var next := (i + 1) % vertexCount;
      NextIsMod(i, vertexCount);
      assert sides[..i + 1] == sides[..i] + [sides[i]];
      out := out + [Face([bottomStart + i, bottomStart + next, topStart + next, topStart + i])];
    }
    assert sides[..vertexCount] == sides;
  }

  /** The `forEach` that writes one `v x y z` line per outline point. */
  method EmitVertices(obj: seq<ObjLine>, pts: seq<Vector2D>, z: real) returns (out: seq<ObjLine>)
    ensures out == obj + TopVertices(pts, z)
  {
    out := obj;
    for i := 0 to |pts|
      invariant out == obj + TopVertices(pts, z)[..i]
    {
      assert TopVertices(pts, z)[..i + 1] == TopVertices(pts, z)[..i] + [Vertex(pts[i].x, pts[i].y, z)];
      out := out + [Vertex(pts[i].x, pts[i].y, z)];
    }
    assert TopVertices(pts, z)[..|pts|] == TopVertices(pts, z);
  }

  /** Triangle k of a cap, listed backwards on the top cap. */
  function CapFace(start: nat, tris: seq<nat>, reversed: bool, k: nat): ObjLine
    requires 3 * k + 2 < |tris|
  {
    var v1, v2, v3 := start + tris[3 * k], start + tris[3 * k + 1], start + tris[3 * k + 2];
    if reversed then Face([v3, v2, v1]) else Face([v1, v2, v3])
  }

  /** The first k faces of a cap, in the order the cap loop writes them. */
  function CapFaces(start: nat, tris: seq<nat>, reversed: bool, k: nat): seq<ObjLine>
    requires 3 * k <= |tris|
  {
    if k == 0 then [] else CapFaces(start, tris, reversed, k - 1) + [CapFace(start, tris, reversed, k - 1)]
  }

  /** CapFaces lists, in order, triangle 0, 1, ..., k - 1 of the cap. */
  lemma {:induction false} CapFacesAt(start: nat, tris: seq<nat>, reversed: bool, k: nat)
    requires 3 * k <= |tris|
    ensures |CapFaces(start, tris, reversed, k)| == k
    ensures forall j :: 0 <= j < k ==> CapFaces(start, tris, reversed, k)[j] == CapFace(start, tris, reversed, j)
  {
    if k > 0 {
      CapFacesAt(start, tris, reversed, k - 1);
    }
  }

  /** The faces the bottom cap loop writes are the ones BottomFaces describes. */
  lemma BottomCapFaces(start: nat, tris: seq<nat>, m: nat)
    requires |tris| == 3 * m
    ensures CapFaces(start, tris, false, m) == BottomFaces(start, tris)
  {
    assert |tris| / 3 == m;
    CapFacesAt(start, tris, false, m);
    var caps := CapFaces(start, tris, false, m);
    var faces := BottomFaces(start, tris);
    forall j | 0 <= j < m
      ensures caps[j] == faces[j]
    {
      assert caps[j] == CapFace(start, tris, false, j);
    }
  }

  /** The faces the top cap loop writes are the ones TopFaces describes. */
  lemma TopCapFaces(start: nat, tris: seq<nat>, m: nat)
    requires |tris| == 3 * m
    ensures CapFaces(start, tris, true, m) == TopFaces(start, tris)
  {
    assert |tris| / 3 == m;
    CapFacesAt(start, tris, true, m);
    var caps := CapFaces(start, tris, true, m);
    var faces := TopFaces(start, tris);
    forall j | 0 <= j < m
      ensures caps[j] == faces[j]
    {
      assert caps[j] == CapFace(start, tris, true, j);
    }
  }

  /** One of the two cap loops, stepping through the triangles three indices at a time; the top cap
      lists each triangle backwards. */
  method EmitCap(obj: seq<ObjLine>, start: nat, triangles: seq<nat>, reversed: bool) returns (out: seq<ObjLine>)
    requires |triangles| % 3 == 0
    ensures !reversed ==> out == obj + BottomFaces(start, triangles)
    ensures reversed ==> out == obj + TopFaces(start, triangles)
  {
    ghost var m := |triangles| / 3;
    assert |triangles| == 3 * m;
    out := obj;
    var i := 0;
    ghost var k := 0;
    while i < |triangles|
      invariant i == 3 * k && k <= m
      invariant out == obj + CapFaces(start, triangles, reversed, k)
    {
      var v1 := start + triangles[i];
      var v2 := start + triangles[i + 1];
      var v3 := start + triangles[i + 2];
      if reversed {
        out := out + [Face([v3, v2, v1])];
      } else {
        out := out + [Face([v1, v2, v3])];
      }
      i := i + 3;
      k := k + 1;
    }
    if reversed {
      TopCapFaces(start, triangles, m);
    } else {
      BottomCapFaces(start, triangles, m);
    }
  }

  // ---------------------------------------------------------------- generateObj

  /** The cleaned outline of every room. */
  function Outlines(rooms: seq<RoomData>, center: Vector2D, scale: real): (r: seq<seq<Vector2D>>)
    requires forall i :: 0 <= i < |rooms| ==> |rooms[i].points| > 0
    ensures |r| == |rooms|
  {
    seq(|rooms|, i requires 0 <= i < |rooms| => Cleaned(center, scale, rooms[i].points))
  }

  /** The index the first vertex of room `k` gets: 1, then advanced by twice each earlier outline. */
  function OffsetAt(outlines: seq<seq<Vector2D>>, k: nat): (r: nat)
    requires k <= |outlines|
    ensures r >= 1
  {
    if k == 0 then 1 else OffsetAt(outlines, k - 1) + 2 * |outlines[k - 1]|
  }

  /** The output for the first `k` rooms. */
  function Blocks(rooms: seq<RoomData>, outlines: seq<seq<Vector2D>>, height: real,
                  earcut: seq<real> -> seq<nat>, k: nat): seq<ObjLine>
    requires |outlines| == |rooms| && k <= |rooms|
  {
    if k == 0 then []
    else Blocks(rooms, outlines, height, earcut, k - 1)
         + RoomBlock(rooms[k - 1], outlines[k - 1], OffsetAt(outlines, k - 1), height, earcut)
  }

  /** generateObj. Centre and scale are computed once for the whole map; the scale is the calibrated
      one (see CalibratedScale), not the stored `mapData.scale`. */
  method GenerateObj(mapData: MapData, gps: (Vector2D, Vector2D) -> real, sqrt: real -> real,
                     earcut: seq<real> -> seq<nat>) returns (obj: seq<ObjLine>)
    requires |mapData.rooms| > 0 && forall i :: 0 <= i < |mapData.rooms| ==> |mapData.rooms[i].points| > 0
    requires IsTriangulator(earcut)
    ensures obj == Blocks(mapData.rooms,
                          Outlines(mapData.rooms, Center(BoxOf(Flatten(mapData.rooms))),
                                   CalibratedScale(mapData.coordsReferences, gps, sqrt)),
                          mapData.height, earcut, |mapData.rooms|)
  {
    var center := CalculateMapCenter(mapData);
    var scale := CalibratedScale(mapData.coordsReferences, gps, sqrt);
    obj := EmitRooms(mapData.rooms, center, scale, mapData.height, earcut);
  }

  /** The loop of generateObj: every room's block, threading the vertex offset from 1. */
  method EmitRooms(rooms: seq<RoomData>, center: Vector2D, scale: real, height: real,
                   earcut: seq<real> -> seq<nat>) returns (obj: seq<ObjLine>)
    requires forall i :: 0 <= i < |rooms| ==> |rooms[i].points| > 0
    requires IsTriangulator(earcut)
    ensures obj == Blocks(rooms, Outlines(rooms, center, scale), height, earcut, |rooms|)
  {
    ghost var outlines := Outlines(rooms, center, scale);
    obj := [];
    var vertexOffset: nat := 1;
    for k := 0 to |rooms|
      invariant obj == Blocks(rooms, outlines, height, earcut, k)
      invariant vertexOffset == OffsetAt(outlines, k)
    {
      var data, next := GenerateObjFromRoom(rooms[k], center, scale, vertexOffset, height, earcut);
      assert outlines[k] == Cleaned(center, scale, rooms[k].points);
      obj := obj + data;
      vertexOffset := next;
    }
  }

  // ---------------------------------------------------------------- properties

  /** The vertex lines of an output, in order: OBJ numbers them 1, 2, 3, … */
  function Vertices(lines: seq<ObjLine>): (r: seq<ObjLine>)
    ensures |r| <= |lines|
  {
    if lines == [] then []
    else Vertices(lines[..|lines| - 1]) + (if lines[|lines| - 1].Vertex? then [lines[|lines| - 1]] else [])
  }

  lemma {:induction false} VerticesAppend(a: seq<ObjLine>, b: seq<ObjLine>)
    ensures Vertices(a + b) == Vertices(a) + Vertices(b)
    decreases |b|
  {
    if b == [] {
      assert a + b == a;
    } else {
      assert (a + b)[..|a + b| - 1] == a + b[..|b| - 1];
      VerticesAppend(a, b[..|b| - 1]);
    }
  }

  lemma {:induction false} VerticesOfNone(lines: seq<ObjLine>)
    requires forall i :: 0 <= i < |lines| ==> !lines[i].Vertex?
    ensures Vertices(lines) == []
  {
    if lines != [] {
      VerticesOfNone(lines[..|lines| - 1]);
    }
  }

  lemma {:induction false} VerticesOfAll(lines: seq<ObjLine>)
    requires forall i :: 0 <= i < |lines| ==> lines[i].Vertex?
    ensures Vertices(lines) == lines
  {
    if lines != [] {
      VerticesOfAll(lines[..|lines| - 1]);
    }
  }

  lemma VerticesAppendNone(a: seq<ObjLine>, b: seq<ObjLine>)
    requires forall i :: 0 <= i < |b| ==> !b[i].Vertex?
    ensures Vertices(a + b) == Vertices(a)
  {
    VerticesOfNone(b);
    VerticesAppend(a, b);
  }

  /** The header holds no vertex line, the two rings nothing else. */
  lemma RingVertices(header: seq<ObjLine>, bv: seq<ObjLine>, tv: seq<ObjLine>)
    requires forall i :: 0 <= i < |header| ==> !header[i].Vertex?
    requires forall i :: 0 <= i < |bv| ==> bv[i].Vertex?
    requires forall i :: 0 <= i < |tv| ==> tv[i].Vertex?
    ensures Vertices(header + bv + tv) == bv + tv
  {
    VerticesOfNone(header);
    VerticesOfAll(bv);
    VerticesOfAll(tv);
    VerticesAppend(header, bv);
    assert Vertices(header + bv) == bv;
    VerticesAppend(header + bv, tv);
    assert Vertices(header + bv + tv) == Vertices(header + bv) + Vertices(tv);
  }

  /** A room block holds 2n vertices: the n outline points at z = 0, then the same n points at
      z = height. */
  lemma RoomBlockVertices(room: RoomData, pts: seq<Vector2D>, offset: nat, height: real,
                          earcut: seq<real> -> seq<nat>)
    ensures Vertices(RoomBlock(room, pts, offset, height, earcut)) == BottomVertices(pts) + TopVertices(pts, height)
    ensures |Vertices(RoomBlock(room, pts, offset, height, earcut))| == 2 * |pts|
  {
    var n := |pts|;
    var tris := TriangulatePolygon(pts, earcut);
    var bv, tv := BottomVertices(pts), TopVertices(pts, height);
    var x1 := Header(room);
    var x3 := x1 + bv + tv;
    var x4 := x3 + [Blank, Comment("Side faces")];
    var x5 := x4 + SideFaces(offset, n);
    var x6 := x5 + [Blank, Comment("Bottom face")];
    var x7 := x6 + BottomFaces(offset, tris);
    var x8 := x7 + [Blank, Comment("Top face")];
    assert RoomBlock(room, pts, offset, height, earcut) == x8 + TopFaces(offset + n, tris);
    RingVertices(x1, bv, tv);
    VerticesAppendNone(x3, [Blank, Comment("Side faces")]);
    VerticesAppendNone(x4, SideFaces(offset, n));
    VerticesAppendNone(x5, [Blank, Comment("Bottom face")]);
    VerticesAppendNone(x6, BottomFaces(offset, tris));
    VerticesAppendNone(x7, [Blank, Comment("Top face")]);
    VerticesAppendNone(x8, TopFaces(offset + n, tris));
  }

  /** A face line whose indices all lie in [lo, hi); any other line. */
  predicate IndicesWithin(line: ObjLine, lo: nat, hi: nat)
  {
    line.Face? ==> forall j :: 0 <= j < |line.indices| ==> lo <= line.indices[j] < hi
  }

  predicate AllWithin(lines: seq<ObjLine>, lo: nat, hi: nat)
  {
    forall i :: 0 <= i < |lines| ==> IndicesWithin(lines[i], lo, hi)
  }

  lemma AllWithinAppend(a: seq<ObjLine>, b: seq<ObjLine>, lo: nat, hi: nat)
    requires AllWithin(a, lo, hi) && AllWithin(b, lo, hi)
    ensures AllWithin(a + b, lo, hi)
  {
    forall i | 0 <= i < |a + b|
      ensures IndicesWithin((a + b)[i], lo, hi)
    {
      if i >= |a| {
        assert (a + b)[i] == b[i - |a|];
      }
    }
  }

  /** Every face of a room block names only that room's own vertices, offset .. offset + 2n - 1. */
  lemma RoomBlockFaceBounds(room: RoomData, pts: seq<Vector2D>, offset: nat, height: real,
                            earcut: seq<real> -> seq<nat>)
    requires Fits(TriangulatePolygon(pts, earcut), |pts|)
    ensures AllWithin(RoomBlock(room, pts, offset, height, earcut), offset, offset + 2 * |pts|)
  {
    var n := |pts|;
    var hi := offset + 2 * n;
    var tris := TriangulatePolygon(pts, earcut);
    var bv, tv := BottomVertices(pts), TopVertices(pts, height);
    var x3 := Header(room) + bv + tv;
    var x4 := x3 + [Blank, Comment("Side faces")];
    var x5 := x4 + SideFaces(offset, n);
    var x6 := x5 + [Blank, Comment("Bottom face")];
    var x7 := x6 + BottomFaces(offset, tris);
    var x8 := x7 + [Blank, Comment("Top face")];
    assert RoomBlock(room, pts, offset, height, earcut) == x8 + TopFaces(offset + n, tris);
    SideFaceBounds(offset, n);
    CapBounds(offset, n, tris);
    AllWithinWiden(BottomFaces(offset, tris), offset, offset + n, offset, hi);
    AllWithinWiden(TopFaces(offset + n, tris), offset + n, hi, offset, hi);
    NoFacesWithin(x3, offset, hi);
    NoFacesWithin([Blank, Comment("Side faces")], offset, hi);
    NoFacesWithin([Blank, Comment("Bottom face")], offset, hi);
    NoFacesWithin([Blank, Comment("Top face")], offset, hi);
    AllWithinAppend(x3, [Blank, Comment("Side faces")], offset, hi);
    AllWithinAppend(x4, SideFaces(offset, n), offset, hi);
    AllWithinAppend(x5, [Blank, Comment("Bottom face")], offset, hi);
    AllWithinAppend(x6, BottomFaces(offset, tris), offset, hi);
    AllWithinAppend(x7, [Blank, Comment("Top face")], offset, hi);
    AllWithinAppend(x8, TopFaces(offset + n, tris), offset, hi);
  }

  lemma NoFacesWithin(lines: seq<ObjLine>, lo: nat, hi: nat)
    requires forall i :: 0 <= i < |lines| ==> !lines[i].Face?
    ensures AllWithin(lines, lo, hi)
  {
  }

  lemma AllWithinWiden(lines: seq<ObjLine>, lo: nat, hi: nat, lo': nat, hi': nat)
    requires AllWithin(lines, lo, hi) && lo' <= lo && hi <= hi'
    ensures AllWithin(lines, lo', hi')
  {
    forall i | 0 <= i < |lines|
      ensures IndicesWithin(lines[i], lo', hi')
    {
      assert IndicesWithin(lines[i], lo, hi);
    }
  }

  /** Side quad i is (b + i, b + next, t + next, t + i) with next = (i + 1) mod n and t = b + n, so it
      stays within the room's 2n vertices. */
  lemma SideFaceBounds(b: nat, n: nat)
    ensures AllWithin(SideFaces(b, n), b, b + 2 * n)
  {
  }

  /** Cap triangles of a triangulation of n points: the bottom cap within the first n vertices, the
      top cap within the second n. */
  lemma CapBounds(b: nat, n: nat, tris: seq<nat>)
    requires Fits(tris, n)
    ensures AllWithin(BottomFaces(b, tris), b, b + n)
    ensures AllWithin(TopFaces(b + n, tris), b + n, b + 2 * n)
  {
    forall i | 0 <= i < |tris| / 3
      ensures 3 * i + 2 < |tris|
    {
    }
  }

  /** Each top-cap triangle is the bottom-cap triangle at the same position, moved up by n and
      listed backwards, so its normal points the other way. */
  lemma TopCapMirrorsBottomCap(b: nat, n: nat, tris: seq<nat>)
    ensures forall i :: 0 <= i < |tris| / 3 ==>
      var top := TopFaces(b + n, tris)[i].indices;
      var bottom := BottomFaces(b, tris)[i].indices;
      |top| == |bottom| == 3 && top[0] == bottom[2] + n && top[1] == bottom[1] + n && top[2] == bottom[0] + n
  {
  }

  /** The per-room index ranges follow one another without gap or overlap. */
  lemma {:induction false} OffsetsIncrease(outlines: seq<seq<Vector2D>>, k: nat, l: nat)
    requires k < l <= |outlines|
    ensures OffsetAt(outlines, k) + 2 * |outlines[k]| <= OffsetAt(outlines, l)
    decreases l - k
  {
    if l > k + 1 {
      OffsetsIncrease(outlines, k, l - 1);
    }
  }

  /** Room k - 1's block adds two vertices per outline point. */
  lemma BlocksVertexStep(rooms: seq<RoomData>, outlines: seq<seq<Vector2D>>, height: real,
                         earcut: seq<real> -> seq<nat>, k: nat)
    requires |outlines| == |rooms| && 0 < k <= |rooms|
    requires |Vertices(Blocks(rooms, outlines, height, earcut, k - 1))| == OffsetAt(outlines, k - 1) - 1
    ensures |Vertices(Blocks(rooms, outlines, height, earcut, k))| == OffsetAt(outlines, k) - 1
  {
    var before := Blocks(rooms, outlines, height, earcut, k - 1);
    var block := RoomBlock(rooms[k - 1], outlines[k - 1], OffsetAt(outlines, k - 1), height, earcut);
    RoomBlockVertices(rooms[k - 1], outlines[k - 1], OffsetAt(outlines, k - 1), height, earcut);
    VerticesAppend(before, block);
  }

  /** Before room `k`'s block the output holds exactly OffsetAt(k) - 1 vertices, so the index a face
      of room `k` uses is the position of that room's own vertex in the whole file. */
  lemma {:induction false} VertexNumbering(rooms: seq<RoomData>, outlines: seq<seq<Vector2D>>, height: real,
                                           earcut: seq<real> -> seq<nat>, k: nat)
    requires |outlines| == |rooms| && k <= |rooms|
    ensures |Vertices(Blocks(rooms, outlines, height, earcut, k))| == OffsetAt(outlines, k) - 1
  {
    if k > 0 {
      VertexNumbering(rooms, outlines, height, earcut, k - 1);
      BlocksVertexStep(rooms, outlines, height, earcut, k);
    }
  }

  /** Vertex index v of room `k`'s range, read as a 1-based position among all vertex lines written
      up to and including that room's block, is that room's own vertex v - offset. Together with
      RoomBlockFaceBounds: every face of a room refers to vertices of that room. */
  lemma FacesReferToOwnVertices(rooms: seq<RoomData>, outlines: seq<seq<Vector2D>>, height: real,
                                earcut: seq<real> -> seq<nat>, k: nat, v: nat)
    requires |outlines| == |rooms| && k < |rooms|
    requires OffsetAt(outlines, k) <= v < OffsetAt(outlines, k) + 2 * |outlines[k]|
    ensures var offset := OffsetAt(outlines, k);
      var whole := Vertices(Blocks(rooms, outlines, height, earcut, k + 1));
      var own := Vertices(RoomBlock(rooms[k], outlines[k], offset, height, earcut));
      v - offset < |own| && v <= |whole| && whole[v - 1] == own[v - offset]
  {
    var offset := OffsetAt(outlines, k);
    var block := RoomBlock(rooms[k], outlines[k], offset, height, earcut);
    var before := Blocks(rooms, outlines, height, earcut, k);
    assert Blocks(rooms, outlines, height, earcut, k + 1) == before + block;
    VertexNumbering(rooms, outlines, height, earcut, k);
    VerticesAppend(before, block);
    RoomBlockVertices(rooms[k], outlines[k], offset, height, earcut);
  }
}
