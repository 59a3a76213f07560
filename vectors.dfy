/** Vector primitives of src/utils.ts: re-basing, distance and exact equality.
    `Math.sqrt` is an external service: it is passed in as `sqrt`. */
module Vectors {
  import opened Dto

  /** `(v - center) * scale`, used to re-base mesh coordinates around the map centre.
      For a non-zero scale the re-basing can be undone. */
  function CenterAndScaleVector(v: Vector2D, center: Vector2D, scale: real): (r: Vector2D)
    ensures scale != 0.0 ==> v == Vector2D(center.x + r.x / scale, center.y + r.y / scale)
    ensures scale == 1.0 ==> r == Vector2D(v.x - center.x, v.y - center.y)
    ensures v == center ==> r == Vector2D(0.0, 0.0)
  {
    if scale != 0.0 then
      UnscaleUndoesScale(v.x - center.x, scale);
      UnscaleUndoesScale(v.y - center.y, scale);
      Vector2D((v.x - center.x) * scale, (v.y - center.y) * scale)
    else
      Vector2D((v.x - center.x) * scale, (v.y - center.y) * scale)
  }

  lemma UnscaleUndoesScale(d: real, scale: real)
    requires scale != 0.0
    ensures (d * scale) / scale == d
  {
  }

  /** `dx*dx + dy*dy`, the argument the source passes to `Math.sqrt`. */
  function SquaredDistance(a: Vector2D, b: Vector2D): real
  {
    var dx := b.x - a.x;
    var dy := b.y - a.y;
    dx * dx + dy * dy
  }

  /** Euclidean distance, with the square root supplied by the caller. */
  function GetVectorDistance(a: Vector2D, b: Vector2D, sqrt: real -> real): real
  {
    sqrt(SquaredDistance(a, b))
  }

  /** The squared distance is never negative, and it is zero exactly at equal points. */
  lemma SquaredDistanceZeroIff(a: Vector2D, b: Vector2D)
    ensures SquaredDistance(a, b) >= 0.0
    ensures a != b ==> SquaredDistance(a, b) > 0.0
    ensures a == b ==> SquaredDistance(a, b) == 0.0
  {
    var dx, dy := b.x - a.x, b.y - a.y;
    Square(dx, dx * dx);
    Square(dy, dy * dy);
    assert SquaredDistance(a, b) == dx * dx + dy * dy;
  }

  /** `sq` is the square of `d`: never negative, and zero only for zero. */
  lemma Square(d: real, sq: real)
    requires sq == d * d
    ensures sq >= 0.0
    ensures d != 0.0 ==> sq > 0.0
    ensures d == 0.0 ==> sq == 0.0
  {
    if d < 0.0 {
      PositiveProduct(-d, -d, sq);
    } else if d > 0.0 {
      PositiveProduct(d, d, sq);
    }
  }

  lemma PositiveProduct(a: real, b: real, p: real)
    requires a > 0.0 && b > 0.0 && p == a * b
    ensures p > 0.0
  {
  }

  /** With a square root that is zero only at zero, two points are at distance zero exactly when
      `areVectorsEqual` holds for them. */
  lemma DistanceZeroIffEqual(a: Vector2D, b: Vector2D, sqrt: real -> real)
    requires forall x :: x >= 0.0 ==> (sqrt(x) == 0.0 <==> x == 0.0)
    ensures GetVectorDistance(a, b, sqrt) == 0.0 <==> AreVectorsEqual(a, b)
  {
    SquaredDistanceZeroIff(a, b);
  }

  /** Exact field equality, no tolerance. */
  function AreVectorsEqual(a: Vector2D, b: Vector2D): (r: bool)
    ensures r <==> a == b
  {
    a.x == b.x && a.y == b.y
  }

  /** The average of two points: equally far from both along each axis. */
  function Midpoint(a: Vector2D, b: Vector2D): (r: Vector2D)
    ensures r.x - a.x == b.x - r.x && r.y - a.y == b.y - r.y
  {
    Vector2D((a.x + b.x) / 2.0, (a.y + b.y) / 2.0)
  }

  /** `x` added up `n` times. */
  function Times(x: real, n: nat): real
  {
    if n == 0 then 0.0 else Times(x, n - 1) + x
  }

  lemma {:induction false} TimesAdd(x: real, a: nat, b: nat)
    ensures Times(x, a + b) == Times(x, a) + Times(x, b)
  {
    if b > 0 {
      TimesAdd(x, a, b - 1);
    }
  }

  lemma {:induction false} TimesIsProduct(x: real, n: nat)
    ensures Times(x, n) == x * (n as real)
  {
    if n > 0 {
      TimesIsProduct(x, n - 1);
      assert x * (n as real) == x * ((n - 1) as real) + x;
    }
  }
}
