/**
 * The pure part of the shape-stamping demo: the five shape kinds, the
 * per-kind vertex table that places a shape around a centre point, and
 * the affine map from a pointer position in pixels to clip space.
 * Coordinates are reals. The source computes in double precision and
 * stores the vertices as single-precision floats; neither rounding is
 * modelled, so the exact equalities and the round trip of the pointer map
 * proved here hold for real arithmetic, and only approximately for the
 * source's.
 */
module Geometry {

  /** The five kinds of shape the user can stamp. */
  datatype ShapeKind = Point | HLine | VLine | Triangle | Square

  /** The keys of the geometry registry, in the order they are enumerated. */
  const REGISTRY_KEYS: seq<ShapeKind> := [Point, HLine, VLine, Triangle, Square]

  /** Thickness of the horizontal and vertical line shapes, in clip-space units. */
  const LINE_WIDTH: real := 0.01

  /** Half the extent of a line or triangle, and the full side of a square. */
  const SHAPE_MAGNITUDE: real := 0.3

  /** A position in clip space (model space), x to the right and y upward. */
  datatype Coords = Coords(x: real, y: real)

  /** A shape's vertices as a flat x, y, x, y, ... list, and how many vertices it holds. */
  datatype Vertices = Vertices(coords: seq<real>, count: nat)

  function Add(a: Coords, b: Coords): Coords
  {
    Coords(a.x + b.x, a.y + b.y)
  }

  /** Exchanges the two axes. */
  function Transpose(c: Coords): Coords
  {
    Coords(c.y, c.x)
  }

  function Abs(r: real): real
  {
    if r < 0.0 then -r else r
  }

  /** The i-th vertex of a flat coordinate list. */
  function VertexAt(v: Vertices, i: nat): Coords
    requires i < v.count && |v.coords| == 2 * v.count
  {
    Coords(v.coords[2 * i], v.coords[2 * i + 1])
  }

  /**
   * The vertex table: the shape of the given kind placed around `center`,
   * with the number of vertices a draw call must read for it.
   */
  function GetVertices(center: Coords, shape: ShapeKind): (v: Vertices)
    ensures v.count == match shape
                       case Point => 1
                       case Triangle => 3
                       case _ => 4
    ensures |v.coords| == 2 * v.count
  {
    var x, y := center.x, center.y;
    match shape
    case Point =>
      Vertices([x, y], 1)
    case HLine =>
      Vertices([x - SHAPE_MAGNITUDE, y - LINE_WIDTH / 2.0,
                x + SHAPE_MAGNITUDE, y - LINE_WIDTH / 2.0,
                x + SHAPE_MAGNITUDE, y + LINE_WIDTH / 2.0,
                x - SHAPE_MAGNITUDE, y + LINE_WIDTH / 2.0], 4)
    case VLine =>
      Vertices([x - LINE_WIDTH / 2.0, y - SHAPE_MAGNITUDE,
                x + LINE_WIDTH / 2.0, y - SHAPE_MAGNITUDE,
                x + LINE_WIDTH / 2.0, y + SHAPE_MAGNITUDE,
                x - LINE_WIDTH / 2.0, y + SHAPE_MAGNITUDE], 4)
    case Triangle =>
      Vertices([x, y + SHAPE_MAGNITUDE,
                x - SHAPE_MAGNITUDE, y - SHAPE_MAGNITUDE,
                x + SHAPE_MAGNITUDE, y - SHAPE_MAGNITUDE], 3)
    case Square =>
      Vertices([x - SHAPE_MAGNITUDE / 2.0, y - SHAPE_MAGNITUDE / 2.0,
                x + SHAPE_MAGNITUDE / 2.0, y - SHAPE_MAGNITUDE / 2.0,
                x + SHAPE_MAGNITUDE / 2.0, y + SHAPE_MAGNITUDE / 2.0,
                x - SHAPE_MAGNITUDE / 2.0, y + SHAPE_MAGNITUDE / 2.0], 4)
  }

  /** Every shape is its template at the origin moved to the centre. */
  lemma ShapeIsPlacedAroundCenter(center: Coords, shape: ShapeKind, i: nat)
    requires i < GetVertices(center, shape).count
    ensures i < GetVertices(Coords(0.0, 0.0), shape).count
    ensures VertexAt(GetVertices(center, shape), i)
         == Add(center, VertexAt(GetVertices(Coords(0.0, 0.0), shape), i))
  {
  }

  /** A point has exactly one vertex, the centre itself. */
  lemma PointIsItsCenter(center: Coords)
    ensures GetVertices(center, Point).count == 1
    ensures VertexAt(GetVertices(center, Point), 0) == center
  {
  }

  /**
   * The four vertices of a square are its four distinct corners, each half
   * the magnitude away from the centre on both axes.
   */
  lemma SquareCornersAroundCenter(center: Coords)
    ensures GetVertices(center, Square).count == 4
    ensures forall i :: 0 <= i < 4 ==>
      var p := VertexAt(GetVertices(center, Square), i);
      Abs(p.x - center.x) == SHAPE_MAGNITUDE / 2.0 && Abs(p.y - center.y) == SHAPE_MAGNITUDE / 2.0
    ensures forall i, j :: 0 <= i < j < 4 ==>
      VertexAt(GetVertices(center, Square), i) != VertexAt(GetVertices(center, Square), j)
  {
  }

  /**
   * A horizontal line is the rectangle spanning the centre's x plus or minus
   * the magnitude and the centre's y plus or minus half the line width: its
   * four vertices are that rectangle's four distinct corners.
   */
  lemma HLineSpan(center: Coords)
    ensures GetVertices(center, HLine).count == 4
    ensures forall i :: 0 <= i < 4 ==>
      var p := VertexAt(GetVertices(center, HLine), i);
      Abs(p.x - center.x) == SHAPE_MAGNITUDE && Abs(p.y - center.y) == LINE_WIDTH / 2.0
    ensures forall i, j :: 0 <= i < j < 4 ==>
      VertexAt(GetVertices(center, HLine), i) != VertexAt(GetVertices(center, HLine), j)
  {
  }

  /**
   * A vertical line is a horizontal line with the axes exchanged: vertex i
   * of the vertical line is the transpose of vertex [0, 3, 2, 1][i] of the
   * horizontal line around the transposed centre (the winding is mirrored).
   */
  lemma VLineIsTransposedHLine(center: Coords)
    ensures GetVertices(center, VLine).count == 4 == GetVertices(Transpose(center), HLine).count
    ensures forall i :: 0 <= i < 4 ==>
      VertexAt(GetVertices(center, VLine), i)
      == Transpose(VertexAt(GetVertices(Transpose(center), HLine), [0, 3, 2, 1][i]))
  {
  }

  /**
   * A triangle has its apex straight above the centre and its base, from
   * the left to the right vertex, the same distance below it.
   */
  lemma TriangleAroundCenter(center: Coords)
    ensures GetVertices(center, Triangle).count == 3
    ensures VertexAt(GetVertices(center, Triangle), 0) == Coords(center.x, center.y + SHAPE_MAGNITUDE)
    ensures VertexAt(GetVertices(center, Triangle), 1).y == VertexAt(GetVertices(center, Triangle), 2).y
                                                         == center.y - SHAPE_MAGNITUDE
    ensures VertexAt(GetVertices(center, Triangle), 1).x == center.x - SHAPE_MAGNITUDE
    ensures VertexAt(GetVertices(center, Triangle), 2).x == center.x + SHAPE_MAGNITUDE
  {
  }

  /**
   * The pointer position in clip space: the pointer's offset inside the
   * canvas rectangle, scaled so that the canvas spans -1 to 1 on both axes,
   * with y flipped so that it grows upward. The canvas is assumed to have a
   * positive width and height.
   */
  function ModelSpaceCoords(clientX: real, clientY: real, left: real, top: real,
                            width: real, height: real): (p: Coords)
    requires width > 0.0 && height > 0.0
    ensures ClientPosition(p, left, top, width, height) == Coords(clientX, clientY)
  {
    Coords(((clientX - left) - width / 2.0) / (width / 2.0),
           (height / 2.0 - (clientY - top)) / (height / 2.0))
  }

  /** Where in the page a clip-space position lies: the inverse of ModelSpaceCoords. */
  function ClientPosition(p: Coords, left: real, top: real, width: real, height: real): Coords
  {
    Coords(left + width / 2.0 * (1.0 + p.x), top + height / 2.0 * (1.0 - p.y))
  }

  /** Every clip-space position is hit by exactly the pointer position ClientPosition gives. */
  lemma ModelSpaceOfClientPosition(p: Coords, left: real, top: real, width: real, height: real)
    requires width > 0.0 && height > 0.0
    ensures var c := ClientPosition(p, left, top, width, height);
            ModelSpaceCoords(c.x, c.y, left, top, width, height) == p
  {
  }

  /**
   * The canvas centre maps to the origin, the left and right edges to
   * x = -1 and x = 1, the top and bottom edges to y = 1 and y = -1, and
   * moving the pointer down the page lowers y.
   */
  lemma ModelSpaceLandmarks(left: real, top: real, width: real, height: real, clientX: real, clientY: real)
    requires width > 0.0 && height > 0.0
    ensures ModelSpaceCoords(left + width / 2.0, top + height / 2.0, left, top, width, height) == Coords(0.0, 0.0)
    ensures ModelSpaceCoords(left, clientY, left, top, width, height).x == -1.0
    ensures ModelSpaceCoords(left + width, clientY, left, top, width, height).x == 1.0
    ensures ModelSpaceCoords(clientX, top, left, top, width, height).y == 1.0
    ensures ModelSpaceCoords(clientX, top + height, left, top, width, height).y == -1.0
    ensures forall lower: real :: lower > clientY ==>
      ModelSpaceCoords(clientX, lower, left, top, width, height).y
      < ModelSpaceCoords(clientX, clientY, left, top, width, height).y
  {
  }
}
