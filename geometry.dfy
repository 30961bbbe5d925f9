/** Points, distances and the (cos, sin) abstraction shared by the box geometry. */
module Geometry {

  datatype Point2 = Point2(x: real, y: real)

  datatype Point3 = Point3(x: real, y: real, z: real)

  /** The pair (cos r, sin r) of some angle r: `math.cos` and `math.sin` are not modelled,
      only the identity cos^2 + sin^2 == 1 that every such pair satisfies. */
  type UnitPair = p: (real, real) | p.0 * p.0 + p.1 * p.1 == 1.0 witness (1.0, 0.0)

  /** The pair for angle 0. */
  const NoTurn: UnitPair := (1.0, 0.0)

  function SqDist2(p: Point2, q: Point2): real
  {
    (p.x - q.x) * (p.x - q.x) + (p.y - q.y) * (p.y - q.y)
  }

  function SqDist3(p: Point3, q: Point3): real
  {
    (p.x - q.x) * (p.x - q.x) + (p.y - q.y) * (p.y - q.y) + (p.z - q.z) * (p.z - q.z)
  }

  function XY(p: Point3): Point2
  {
    Point2(p.x, p.y)
  }

  /** Component-wise sum of a sequence of points. */
  function SumPoints(ps: seq<Point3>): Point3
  {
    if ps == [] then Point3(0.0, 0.0, 0.0)
    else
      var rest := SumPoints(ps[1..]);
      Point3(ps[0].x + rest.x, ps[0].y + rest.y, ps[0].z + rest.z)
  }

  /** The number of coordinates in which two points differ. */
  function AxesDiffering(p: Point3, q: Point3): nat
  {
    (if p.x != q.x then 1 else 0) + (if p.y != q.y then 1 else 0) + (if p.z != q.z then 1 else 0)
  }
}
