/** Shape-to-vertex extraction (src/utils.ts, retrievePointsFromShape / Path / Square).
    A path is its list of drawing commands (the moveto/lineto subset of section 8.3 of SVG 1.1 plus
    anything else, which is ignored); a rectangle is its position and extent. */
module Shapes {
  import opened Dto

  datatype PathCommand =
    | MoveTo(x: real, y: real)           // 'M'
    | LineTo(x: real, y: real)           // 'L'
    | MoveToRel(dx: real, dy: real)      // 'm'
    | LineToRel(dx: real, dy: real)      // 'l'
    | HorizontalTo(x: real)              // 'H'
    | HorizontalRel(dx: real)            // 'h'
    | VerticalTo(y: real)                // 'V'
    | VerticalRel(dy: real)              // 'v'
    | Unsupported(letter: char)          // curves, arcs, 'Z', ...

  /** The drawn shapes the editor works with. `id` is the shape's id in the drawing. */
  datatype Shape =
    | PathShape(id: string, commands: seq<PathCommand>)
    | RectShape(id: string, x: real, y: real, width: real, height: real)
    | OtherShape(id: string)

  const Origin := Vector2D(0.0, 0.0)

  predicate Supported(c: PathCommand)
  {
    !c.Unsupported?
  }

  /** The pen position after command `c`, starting from `pos`. */
  function PenStep(pos: Vector2D, c: PathCommand): (r: Vector2D)
    ensures !Supported(c) ==> r == pos
    ensures (c.MoveToRel? || c.LineToRel?) ==> r == Vector2D(pos.x + c.dx, pos.y + c.dy)
    ensures c.HorizontalTo? || c.HorizontalRel? ==> r.y == pos.y
    ensures c.VerticalTo? || c.VerticalRel? ==> r.x == pos.x
  {
    match c
    case MoveTo(x, y) => Vector2D(x, y)
    case LineTo(x, y) => Vector2D(x, y)
    case MoveToRel(dx, dy) => Vector2D(pos.x + dx, pos.y + dy)
    case LineToRel(dx, dy) => Vector2D(pos.x + dx, pos.y + dy)
    case HorizontalTo(x) => Vector2D(x, pos.y)
    case HorizontalRel(dx) => Vector2D(pos.x + dx, pos.y)
    case VerticalTo(y) => Vector2D(pos.x, y)
    case VerticalRel(dy) => Vector2D(pos.x, pos.y + dy)
    case Unsupported(_) => pos
  }

  /** The pen position after all of `cmds`, starting from `start`. */
  function Pen(start: Vector2D, cmds: seq<PathCommand>): Vector2D
  {
    if cmds == [] then start else PenStep(Pen(start, cmds[..|cmds| - 1]), cmds[|cmds| - 1])
  }

  function CountSupported(cmds: seq<PathCommand>): nat
  {
    if cmds == [] then 0
    else CountSupported(cmds[..|cmds| - 1]) + (if Supported(cmds[|cmds| - 1]) then 1 else 0)
  }

  /** The vertices a path yields: one per supported command, the pen position right after it. */
  function PathPoints(start: Vector2D, cmds: seq<PathCommand>): (r: seq<Vector2D>)
    ensures |r| == CountSupported(cmds)
    ensures |r| <= |cmds|
  {
    if cmds == [] then []
    else
      var last := cmds[|cmds| - 1];
      PathPoints(start, cmds[..|cmds| - 1]) + (if Supported(last) then [Pen(start, cmds)] else [])
  }

  /** Drawing `a` and then `b` is drawing `b` from where `a` left the pen. */
  lemma {:induction false} PathCompose(start: Vector2D, a: seq<PathCommand>, b: seq<PathCommand>)
    ensures Pen(start, a + b) == Pen(Pen(start, a), b)
    ensures PathPoints(start, a + b) == PathPoints(start, a) + PathPoints(Pen(start, a), b)
  {
    if b == [] {
      assert a + b == a;
    } else {
      var b' := b[..|b| - 1];
      assert (a + b)[..|a + b| - 1] == a + b';
      PathCompose(start, a, b');
    }
  }

  /** The point a supported command contributes is the pen position right after that command. */
  lemma EmittedPointIsPen(start: Vector2D, cmds: seq<PathCommand>, k: nat)
    requires k < |cmds| && Supported(cmds[k])
    ensures CountSupported(cmds[..k]) < |PathPoints(start, cmds)|
    ensures PathPoints(start, cmds)[CountSupported(cmds[..k])] == Pen(start, cmds[..k + 1])
  {
    var a, b := cmds[..k + 1], cmds[k + 1..];
    assert a + b == cmds;
    PathCompose(start, a, b);
    assert a[..|a| - 1] == cmds[..k];
  }

  /** An unsupported command neither moves the pen nor emits a point. */
  lemma UnsupportedIsSkipped(start: Vector2D, cmds: seq<PathCommand>, letter: char)
    ensures Pen(start, cmds + [Unsupported(letter)]) == Pen(start, cmds)
    ensures PathPoints(start, cmds + [Unsupported(letter)]) == PathPoints(start, cmds)
  {
    var c := cmds + [Unsupported(letter)];
    assert c[..|c| - 1] == cmds;
  }

  /** retrievePointsFromPath: a pen position interpreter starting at (0, 0). */
  method RetrievePointsFromPath(cmds: seq<PathCommand>) returns (points: seq<Vector2D>)
    ensures points == PathPoints(Origin, cmds)
    ensures |points| == CountSupported(cmds)
  {
    points := [];
    var pos := Origin;
    for i := 0 to |cmds|
      invariant pos == Pen(Origin, cmds[..i])
      invariant points == PathPoints(Origin, cmds[..i])
    {
      assert cmds[..i + 1][..i] == cmds[..i];
      var c := cmds[i];
      match c {
        case MoveTo(x, y) =>
          pos := Vector2D(x, y);
          points := points + [pos];
        case LineTo(x, y) =>
          pos := Vector2D(x, y);
          points := points + [pos];
        case MoveToRel(dx, dy) =>
          pos := Vector2D(pos.x + dx, pos.y + dy);
          points := points + [pos];
        case LineToRel(dx, dy) =>
          pos := Vector2D(pos.x + dx, pos.y + dy);
          points := points + [pos];
        case HorizontalTo(x) =>
          pos := Vector2D(x, pos.y);
          points := points + [pos];
        case HorizontalRel(dx) =>
          pos := Vector2D(pos.x + dx, pos.y);
          points := points + [pos];
        case VerticalTo(y) =>
          pos := Vector2D(pos.x, y);
          points := points + [pos];
        case VerticalRel(dy) =>
          pos := Vector2D(pos.x, pos.y + dy);
          points := points + [pos];
        case Unsupported(_) =>
      }
    }
    assert cmds[..|cmds|] == cmds;
  }

  /** retrievePointsFromSquare: the four corners, starting at (x, y) and going through (x, y + h). */
  function RetrievePointsFromSquare(x: real, y: real, width: real, height: real): (r: seq<Vector2D>)
    ensures |r| == 4 && r[0] == Vector2D(x, y)
    ensures forall i :: 0 <= i < 4 ==> r[i].x == x || r[i].x == x + width
    ensures forall i :: 0 <= i < 4 ==> r[i].y == y || r[i].y == y + height
    ensures r[2] == Vector2D(x + width, y + height)
    ensures r[0].x == r[1].x && r[2].x == r[3].x && r[1].y == r[2].y && r[3].y == r[0].y
  {
    [Vector2D(x, y), Vector2D(x, y + height), Vector2D(x + width, y + height), Vector2D(x + width, y)]
  }

  /** The vertex list of any shape; shapes other than paths and rectangles have none. */
  function ShapePoints(s: Shape): seq<Vector2D>
  {
    match s
    case PathShape(_, cmds) => PathPoints(Origin, cmds)
    case RectShape(_, x, y, w, h) => RetrievePointsFromSquare(x, y, w, h)
    case OtherShape(_) => []
  }

  /** retrievePointsFromShape: dispatch on the kind of shape. */
  method RetrievePointsFromShape(s: Shape) returns (points: seq<Vector2D>)
    ensures points == ShapePoints(s)
    ensures s.OtherShape? ==> points == []
    ensures s.RectShape? ==> |points| == 4
    ensures s.PathShape? ==> |points| == CountSupported(s.commands)
  {
    match s {
      case PathShape(_, cmds) =>
        points := RetrievePointsFromPath(cmds);
      case RectShape(_, x, y, w, h) =>
        points := RetrievePointsFromSquare(x, y, w, h);
      case OtherShape(_) =>
        points := [];
    }
  }
}
