/** The even-odd crossing test `polyCheck` of src/utils.ts.
    Edge i joins vertex i to vertex i - 1, and edge 0 joins vertex 0 to the last vertex, so the
    polygon is closed implicitly. A point on a boundary follows the half-open convention that the
    comparisons `>` and `<` give (see RectangleContainment). */
module PolygonContainment {
  import opened Dto
  import opened Shapes

  /** Index of the vertex before `i` around a ring of `n` vertices. */
  function Prev(i: nat, n: nat): nat
    requires i < n
  {
    if i == 0 then n - 1 else i - 1
  }

  /** Whether the horizontal ray from `v` towards +x crosses edge (a, b); `b` is the earlier vertex. */
  predicate Crosses(v: Vector2D, a: Vector2D, b: Vector2D)
  {
    (a.y > v.y) != (b.y > v.y) && v.x < (b.x - a.x) * (v.y - a.y) / (b.y - a.y) + a.x
  }

  /** One bit per edge, in the order the source visits them. */
  function EdgeCrossings(v: Vector2D, p: seq<Vector2D>): (r: seq<bool>)
    ensures |r| == |p|
  {
    seq(|p|, i requires 0 <= i < |p| => Crosses(v, p[i], p[Prev(i, |p|)]))
  }

  function CountTrue(bs: seq<bool>): nat
  {
    if bs == [] then 0 else CountTrue(bs[..|bs| - 1]) + (if bs[|bs| - 1] then 1 else 0)
  }

  /** The point is inside when an odd number of edges are crossed. */
  predicate PolyInside(v: Vector2D, p: seq<Vector2D>)
  {
    CountTrue(EdgeCrossings(v, p)) % 2 == 1
  }

  /** polyCheck: toggles once per crossed edge. */
  method PolyCheck(v: Vector2D, p: seq<Vector2D>) returns (c: bool)
    ensures c == PolyInside(v, p)
    ensures p == [] ==> !c
  {
    var n := |p|;
    var bits := EdgeCrossings(v, p);
    c := false;
    if n == 0 {
      return;
    }
    var j := n - 1;
    var i := 0;
    ghost var count := 0;
    while i < n
      invariant 0 <= i <= n
      invariant i < n ==> j == Prev(i, n)
      invariant count == CountTrue(bits[..i])
      invariant c == (count % 2 == 1)
    {
      assert bits[..i + 1][..i] == bits[..i];
      var crossed := Crosses(v, p[i], p[j]);
      if crossed {
        c := !c;
        count := count + 1;
      }
      j := i;
      i := i + 1;
    }
    assert bits[..n] == bits;
  }

  lemma {:induction false} CountTrueAppend(a: seq<bool>, b: seq<bool>)
    ensures CountTrue(a + b) == CountTrue(a) + CountTrue(b)
  {
    if b == [] {
      assert a + b == a;
    } else {
      assert (a + b)[..|a + b| - 1] == a + b[..|b| - 1];
      CountTrueAppend(a, b[..|b| - 1]);
    }
  }

  function Rotate(p: seq<Vector2D>, k: nat): (r: seq<Vector2D>)
    requires k <= |p|
    ensures |r| == |p|
    ensures multiset(r) == multiset(p)
  {
    assert p == p[..k] + p[k..];
    p[k..] + p[..k]
  }

  lemma RotatedCrossings(v: Vector2D, p: seq<Vector2D>, k: nat)
    requires k < |p|
    ensures EdgeCrossings(v, Rotate(p, k)) == EdgeCrossings(v, p)[k..] + EdgeCrossings(v, p)[..k]
  {
    var n := |p|;
    var q := Rotate(p, k);
    var e := EdgeCrossings(v, p);
    forall i | 0 <= i < n
      ensures EdgeCrossings(v, q)[i] == (e[k..] + e[..k])[i]
    {
      if i < n - k {
        assert q[i] == p[k + i];
        if i == 0 {
          if k > 0 {
            assert q[Prev(i, n)] == p[k - 1];
          }
        } else {
          assert q[Prev(i, n)] == p[k + i - 1];
        }
      } else {
        assert q[i] == p[i - (n - k)];
        if i == n - k {
          assert q[Prev(i, n)] == p[n - 1];
        } else {
          assert q[Prev(i, n)] == p[i - (n - k) - 1];
        }
      }
    }
  }

  /** The starting vertex does not matter: the test is invariant under cyclic rotation. */
  lemma RotationInvariant(v: Vector2D, p: seq<Vector2D>, k: nat)
    requires k < |p|
    ensures PolyInside(v, Rotate(p, k)) == PolyInside(v, p)
  {
    var e := EdgeCrossings(v, p);
    var a, b := e[..k], e[k..];
    RotatedCrossings(v, p, k);
    CountTrueAppend(b, a);
    CountTrueAppend(a, b);
    assert a + b == e;
    assert CountTrue(EdgeCrossings(v, Rotate(p, k))) == CountTrue(e);
  }

  /** A vertical edge is crossed exactly when `v` is in its half-open height band and left of it. */
  lemma VerticalEdge(v: Vector2D, a: Vector2D, b: Vector2D)
    requires a.x == b.x && a.y != b.y
    ensures Crosses(v, a, b) <==> (a.y > v.y) != (b.y > v.y) && v.x < a.x
  {
    assert (b.x - a.x) * (v.y - a.y) == 0.0;
    assert (b.x - a.x) * (v.y - a.y) / (b.y - a.y) == 0.0;
  }

  /** For a rectangle of positive extent the test accepts exactly the half-open box
      [x, x + w) x [y, y + h). */
  lemma RectangleContainment(v: Vector2D, x: real, y: real, w: real, h: real)
    requires w > 0.0 && h > 0.0
    ensures PolyInside(v, RetrievePointsFromSquare(x, y, w, h)) <==>
            (x <= v.x < x + w && y <= v.y < y + h)
  {
    var p := RetrievePointsFromSquare(x, y, w, h);
    var e := EdgeCrossings(v, p);
    var inBand := y <= v.y < y + h;
    assert !e[0] && !e[2];
    assert e[1] == Crosses(v, p[1], p[0]);
    VerticalEdge(v, p[1], p[0]);
    assert e[1] <==> inBand && v.x < x;
    assert e[3] == Crosses(v, p[3], p[2]);
    VerticalEdge(v, p[3], p[2]);
    assert e[3] <==> inBand && v.x < x + w;
    assert e[..1][..0] == [];
    assert CountTrue(e[..1]) == 0;
    assert e[..2][..1] == e[..1];
    assert CountTrue(e[..2]) == (if e[1] then 1 else 0);
    assert e[..3][..2] == e[..2];
    assert CountTrue(e[..3]) == (if e[1] then 1 else 0);
    assert e[..4][..3] == e[..3] && e[..4] == e;
    assert CountTrue(e) == (if e[1] then 1 else 0) + (if e[3] then 1 else 0);
  }

  /** For the unit square (0,0),(0,1),(1,1),(1,0): (0.5, 0.5) is inside and (1.5, 0.5) is not. */
  lemma UnitSquare()
    ensures PolyInside(Vector2D(0.5, 0.5), [Vector2D(0.0, 0.0), Vector2D(0.0, 1.0), Vector2D(1.0, 1.0), Vector2D(1.0, 0.0)])
    ensures !PolyInside(Vector2D(1.5, 0.5), [Vector2D(0.0, 0.0), Vector2D(0.0, 1.0), Vector2D(1.0, 1.0), Vector2D(1.0, 0.0)])
  {
    assert RetrievePointsFromSquare(0.0, 0.0, 1.0, 1.0) ==
           [Vector2D(0.0, 0.0), Vector2D(0.0, 1.0), Vector2D(1.0, 1.0), Vector2D(1.0, 0.0)];
    RectangleContainment(Vector2D(0.5, 0.5), 0.0, 0.0, 1.0, 1.0);
    RectangleContainment(Vector2D(1.5, 0.5), 0.0, 0.0, 1.0, 1.0);
  }
}
