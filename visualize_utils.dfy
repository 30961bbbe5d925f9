/** The helpers of pointcloudprocess/visualize/utils.py: painting points, rotating a corner
    about a box centre, the eight corners of a centre-form box in the "visualize" ordering,
    and the twelve-segment wireframe of an eight-corner box. */
module VisualizeUtils {
  import opened Wrappers
  import opened Geometry

  // ---------------------------------------------------------------- paint_points

  /** A colour as three real channels (the renderer reads them as 0..255). */
  datatype Rgb = Rgb(r: real, g: real, b: real)

  /** The colour argument of paint_points: one triple broadcast to every row, or one triple per row. */
  datatype Paint = Uniform(rgb: Rgb) | PerPoint(rgbs: seq<Rgb>)

  /** Broadcasting a colour array onto N rows succeeds. */
  predicate FitsRows(paint: Paint, n: nat)
  {
    paint.Uniform? || |paint.rgbs| == n
  }

  function Coord(p: Point3, j: nat): real
    requires j < 3
  {
    if j == 0 then p.x else if j == 1 then p.y else p.z
  }

  function Channel(c: Rgb, k: nat): real
    requires k < 3
  {
    if k == 0 then c.r else if k == 1 then c.g else c.b
  }

  function ColorOfRow(paint: Paint, n: nat, i: nat): Rgb
    requires i < n && FitsRows(paint, n)
  {
    if paint.Uniform? then paint.rgb else paint.rgbs[i]
  }

  /** Entry (i, j) of the painted N x 6 buffer: x, y, z of point i, then its colour. */
  function PaintedAt(points: seq<Point3>, paint: Paint, i: nat, j: nat): real
    requires i < |points| && j < 6 && FitsRows(paint, |points|)
  {
    if j < 3 then Coord(points[i], j) else Channel(ColorOfRow(paint, |points|, i), j - 3)
  }

  /** Allocates an N x 6 buffer of zeros, copies the points into columns 0..2 and adds the
      colour to columns 3..5, each as one pass over the rows. */
  method PaintPoints(points: seq<Point3>, paint: Paint) returns (out: array2<real>)
    requires FitsRows(paint, |points|)
    ensures fresh(out)
    ensures out.Length0 == |points| && out.Length1 == 6
    ensures forall i, j | 0 <= i < |points| && 0 <= j < 6 :: out[i, j] == PaintedAt(points, paint, i, j)
  {
    var n := |points|;
    out := new real[n, 6]((_, _) => 0.0);
    // the point coordinates go into columns 0..2
    for i := 0 to n
      invariant forall r, c | 0 <= r < i && 0 <= c < 3 :: out[r, c] == Coord(points[r], c)
      invariant forall r, c | i <= r < n && 0 <= c < 3 :: out[r, c] == 0.0
      invariant forall r, c | 0 <= r < n && 3 <= c < 6 :: out[r, c] == 0.0
    {
      out[i, 0], out[i, 1], out[i, 2] := points[i].x, points[i].y, points[i].z;
    }
    // the colour is added onto the zeros of columns 3..5
    for i := 0 to n
      invariant forall r, c | 0 <= r < n && 0 <= c < 3 :: out[r, c] == Coord(points[r], c)
      invariant forall r, c | 0 <= r < i && 3 <= c < 6 :: out[r, c] == Channel(ColorOfRow(paint, n, r), c - 3)
      invariant forall r, c | i <= r < n && 3 <= c < 6 :: out[r, c] == 0.0
    {
      var color := ColorOfRow(paint, n, i);
      out[i, 3] := out[i, 3] + color.r;
      out[i, 4] := out[i, 4] + color.g;
      out[i, 5] := out[i, 5] + color.b;
    }
  }

  // ---------------------------------------------------------------- cal_corner_after_rotation

  /** Rotates `corner` about `center` by the angle whose (cos, sin) is `trig`. */
  function RotateAbout(corner: Point2, center: Point2, trig: UnitPair): Point2
  {
    var c, s := trig.0, trig.1;
    var dx, dy := corner.x - center.x, corner.y - center.y;
    Point2(c * dx - s * dy + center.x, s * dx + c * dy + center.y)
  }

  /** RotateAbout applied to the point center + (dx, dy). */
  lemma RotateOffset(center: Point2, dx: real, dy: real, trig: UnitPair)
    ensures RotateAbout(Point2(center.x + dx, center.y + dy), center, trig)
         == Point2(trig.0 * dx - trig.1 * dy + center.x, trig.1 * dx + trig.0 * dy + center.y)
  {
    var corner := Point2(center.x + dx, center.y + dy);
    var c, s := trig.0, trig.1;
    assert corner.x - center.x == dx && corner.y - center.y == dy;
    assert c * (corner.x - center.x) == c * dx && s * (corner.x - center.x) == s * dx;
    assert c * (corner.y - center.y) == c * dy && s * (corner.y - center.y) == s * dy;
    assert RotateAbout(corner, center, trig).x == c * dx - s * dy + center.x;
    assert RotateAbout(corner, center, trig).y == s * dx + c * dy + center.y;
  }

  /** The rotation matrix keeps the squared length of a vector. */
  lemma TurnKeepsLength(dx: real, dy: real, trig: UnitPair)
    ensures var (c, s) := trig;
      (c * dx - s * dy) * (c * dx - s * dy) + (s * dx + c * dy) * (s * dx + c * dy) == dx * dx + dy * dy
  {
    var (c, s) := trig;
    calc {
      (c * dx - s * dy) * (c * dx - s * dy) + (s * dx + c * dy) * (s * dx + c * dy);
      (c * c + s * s) * (dx * dx) + (c * c + s * s) * (dy * dy);
      dx * dx + dy * dy;
    }
  }

  /** The pivot does not move. */
  lemma RotateFixesPivot(center: Point2, trig: UnitPair)
    ensures RotateAbout(center, center, trig) == center
  {
    RotateOffset(center, 0.0, 0.0, trig);
    assert Point2(center.x + 0.0, center.y + 0.0) == center;
  }

  /** With cos 1 and sin 0 the rotation is the identity. */
  lemma RotateNoTurn(corner: Point2, center: Point2)
    ensures RotateAbout(corner, center, NoTurn) == corner
  {
  }

  /** A rotated corner keeps its squared distance to the pivot. */
  lemma RotateKeepsPivotDistance(corner: Point2, center: Point2, trig: UnitPair)
    ensures SqDist2(RotateAbout(corner, center, trig), center) == SqDist2(corner, center)
  {
    var dx, dy := corner.x - center.x, corner.y - center.y;
    assert corner == Point2(center.x + dx, center.y + dy);
    RotateOffset(center, dx, dy, trig);
    TurnKeepsLength(dx, dy, trig);
  }

  /** The difference of two rotated points is the turned difference of the points. */
  lemma RotateDifference(p: Point2, q: Point2, center: Point2, trig: UnitPair)
    ensures RotateAbout(p, center, trig).x - RotateAbout(q, center, trig).x == trig.0 * (p.x - q.x) - trig.1 * (p.y - q.y)
    ensures RotateAbout(p, center, trig).y - RotateAbout(q, center, trig).y == trig.1 * (p.x - q.x) + trig.0 * (p.y - q.y)
  {
    var c, s := trig.0, trig.1;
    assert c * (p.x - center.x) - c * (q.x - center.x) == c * (p.x - q.x);
    assert s * (p.y - center.y) - s * (q.y - center.y) == s * (p.y - q.y);
    assert s * (p.x - center.x) - s * (q.x - center.x) == s * (p.x - q.x);
    assert c * (p.y - center.y) - c * (q.y - center.y) == c * (p.y - q.y);
  }

  /** Rotating two points about the same pivot keeps the distance between them. */
  lemma RotateIsometry(p: Point2, q: Point2, center: Point2, trig: UnitPair)
    ensures SqDist2(RotateAbout(p, center, trig), RotateAbout(q, center, trig)) == SqDist2(p, q)
  {
    var rp, rq := RotateAbout(p, center, trig), RotateAbout(q, center, trig);
    var dx, dy := p.x - q.x, p.y - q.y;
    var ex, ey := rp.x - rq.x, rp.y - rq.y;
    RotateDifference(p, q, center, trig);
    TurnKeepsLength(dx, dy, trig);
    assert ex * ex == (trig.0 * dx - trig.1 * dy) * (trig.0 * dx - trig.1 * dy);
    assert ey * ey == (trig.1 * dx + trig.0 * dy) * (trig.1 * dx + trig.0 * dy);
  }

  /** A quarter turn of (1, 0) about the origin lands on (0, 1). */
  lemma QuarterTurn()
    ensures RotateAbout(Point2(1.0, 0.0), Point2(0.0, 0.0), (0.0, 1.0)) == Point2(0.0, 1.0)
  {
  }

  // ---------------------------------------------------------------- eight_points

  /** The size argument of eight_points: w along x, l along y, h along z. */
  datatype Size = Size(w: real, l: real, h: real)

  /** The eight corners before any rotation, in the "visualize" ordering. */
  function AxisAlignedCorners(center: Point3, size: Size): (r: seq<Point3>)
    ensures |r| == 8
    ensures forall i | 0 <= i < 8 :: r[i].y == if i < 4 then center.y - size.l / 2.0 else center.y + size.l / 2.0
    ensures forall i | 0 <= i < 4 :: r[i + 4].x == r[i].x && r[i + 4].z == r[i].z
  {
    var x, y, z := center.x, center.y, center.z;
    var w, l, h := size.w / 2.0, size.l / 2.0, size.h / 2.0;
    [ Point3(x - w, y - l, z + h), Point3(x + w, y - l, z + h),
      Point3(x + w, y - l, z - h), Point3(x - w, y - l, z - h),
      Point3(x - w, y + l, z + h), Point3(x + w, y + l, z + h),
      Point3(x + w, y + l, z - h), Point3(x - w, y + l, z - h) ]
  }

  /** Rotates the (x, y) part of a corner about the box centre; z is kept. */
  function Turn(p: Point3, center: Point3, trig: UnitPair): (r: Point3)
    ensures r.z == p.z
  {
    var q := RotateAbout(XY(p), XY(center), trig);
    Point3(q.x, q.y, p.z)
  }

  /** eight_points(center, size, rotation), with `trig` the (cos, sin) of `rotation`; the
      rotation is only applied when `rotation` is non-zero, as in the original. */
  function EightPoints(center: Point3, size: Size, rotation: real, trig: UnitPair): (r: seq<Point3>)
    ensures |r| == 8
    ensures forall i | 0 <= i < 8 ::
      r[i].z == if i % 4 < 2 then center.z + size.h / 2.0 else center.z - size.h / 2.0
  {
    var corners := AxisAlignedCorners(center, size);
    if rotation != 0.0 then
      seq(8, i requires 0 <= i < 8 => Turn(corners[i], center, trig))
    else
      corners
  }

  /** Offsets of the axis-aligned corner i from the centre, along x, y and z. */
  function OffsetX(size: Size, i: nat): real
  {
    if i % 4 == 0 || i % 4 == 3 then -(size.w / 2.0) else size.w / 2.0
  }

  function OffsetY(size: Size, i: nat): real
  {
    if i < 4 then -(size.l / 2.0) else size.l / 2.0
  }

  function OffsetZ(size: Size, i: nat): real
  {
    if i % 4 < 2 then size.h / 2.0 else -(size.h / 2.0)
  }

  lemma CornerOffsets(center: Point3, size: Size, i: nat)
    requires i < 8
    ensures AxisAlignedCorners(center, size)[i]
         == Point3(center.x + OffsetX(size, i), center.y + OffsetY(size, i), center.z + OffsetZ(size, i))
  {
  }

  /** Corner i of eight_points under a non-zero rotation, as the centre plus its rotated offset. */
  lemma EightPointsOffsets(center: Point3, size: Size, rotation: real, trig: UnitPair, i: nat)
    requires i < 8 && rotation != 0.0
    ensures EightPoints(center, size, rotation, trig)[i] == Point3(
      trig.0 * OffsetX(size, i) - trig.1 * OffsetY(size, i) + center.x,
      trig.1 * OffsetX(size, i) + trig.0 * OffsetY(size, i) + center.y,
      center.z + OffsetZ(size, i))
  {
    var corners := AxisAlignedCorners(center, size);
    CornerOffsets(center, size, i);
    assert XY(corners[i]) == Point2(XY(center).x + OffsetX(size, i), XY(center).y + OffsetY(size, i));
    RotateOffset(XY(center), OffsetX(size, i), OffsetY(size, i), trig);
  }

  /** Without rotation (an angle of 0, or one whose cos is 1 and sin 0) the corners are
      axis-aligned: corners 0..3 lie at y - l/2, corners 4..7 at y + l/2, and x runs
      x - w/2, x + w/2, x + w/2, x - w/2 on each of the two faces. */
  lemma EightPointsAxisAligned(center: Point3, size: Size, rotation: real, trig: UnitPair)
    requires rotation == 0.0 || trig == NoTurn
    ensures var r := EightPoints(center, size, rotation, trig);
      forall i | 0 <= i < 8 ::
        && r[i].y == (if i < 4 then center.y - size.l / 2.0 else center.y + size.l / 2.0)
        && r[i].x == (if i % 4 == 0 || i % 4 == 3 then center.x - size.w / 2.0 else center.x + size.w / 2.0)
  {
    var r := EightPoints(center, size, rotation, trig);
    var corners := AxisAlignedCorners(center, size);
    forall i | 0 <= i < 8 ensures r[i] == corners[i] {
      if rotation != 0.0 {
        assert r[i] == Turn(corners[i], center, trig);
        RotateNoTurn(XY(corners[i]), XY(center));
      }
    }
  }

  /** Every corner is at the same distance from the centre, a quarter of w^2 + l^2 + h^2, with or
      without rotation. */
  lemma EightPointsOnSphere(center: Point3, size: Size, rotation: real, trig: UnitPair, i: nat)
    requires i < 8
    ensures SqDist3(EightPoints(center, size, rotation, trig)[i], center)
         == (size.w * size.w + size.l * size.l + size.h * size.h) / 4.0
  {
    var r := EightPoints(center, size, rotation, trig);
    var corners := AxisAlignedCorners(center, size);
    var dx, dy, dz := OffsetX(size, i), OffsetY(size, i), OffsetZ(size, i);
    CornerOffsets(center, size, i);
    assert dx * dx == size.w * size.w / 4.0;
    assert dy * dy == size.l * size.l / 4.0;
    assert dz * dz == size.h * size.h / 4.0;
    assert SqDist2(XY(corners[i]), XY(center)) == dx * dx + dy * dy;
    assert SqDist3(corners[i], center) == dx * dx + dy * dy + dz * dz;
    if rotation != 0.0 {
      assert r[i] == Turn(corners[i], center, trig);
      RotateKeepsPivotDistance(XY(corners[i]), XY(center), trig);
      assert SqDist3(r[i], center) == SqDist2(XY(r[i]), XY(center)) + dz * dz;
    }
  }

  /** Rotation moves the box rigidly: the distance between any two corners is the one they
      have in the axis-aligned box. */
  lemma EightPointsRigid(center: Point3, size: Size, rotation: real, trig: UnitPair, i: nat, j: nat)
    requires i < 8 && j < 8
    ensures var r := EightPoints(center, size, rotation, trig);
      var corners := AxisAlignedCorners(center, size);
      SqDist3(r[i], r[j]) == SqDist3(corners[i], corners[j])
  {
    var r := EightPoints(center, size, rotation, trig);
    var corners := AxisAlignedCorners(center, size);
    if rotation != 0.0 {
      assert r[i] == Turn(corners[i], center, trig) && r[j] == Turn(corners[j], center, trig);
      TurnRigid(corners[i], corners[j], center, trig);
    }
  }

  /** Turning two points about the same centre keeps the distance between them. */
  lemma TurnRigid(p: Point3, q: Point3, center: Point3, trig: UnitPair)
    ensures SqDist3(Turn(p, center, trig), Turn(q, center, trig)) == SqDist3(p, q)
  {
    RotateIsometry(XY(p), XY(q), XY(center), trig);
    SplitSqDist(Turn(p, center, trig), Turn(q, center, trig));
    SplitSqDist(p, q);
  }

  /** The squared distance in space is the one in the plane plus the one along z. */
  lemma SplitSqDist(p: Point3, q: Point3)
    ensures SqDist3(p, q) == SqDist2(XY(p), XY(q)) + (p.z - q.z) * (p.z - q.z)
  {
  }

  /** The corners sum to eight times the centre, so the box stays centred on `center`,
      with or without rotation. */
  lemma EightPointsCentred(center: Point3, size: Size, rotation: real, trig: UnitPair)
    ensures SumPoints(EightPoints(center, size, rotation, trig)) == Point3(8.0 * center.x, 8.0 * center.y, 8.0 * center.z)
  {
    var r := EightPoints(center, size, rotation, trig);
    var corners := AxisAlignedCorners(center, size);
    SumOfEight(r);
    if rotation != 0.0 {
      // corners 0 and 6, 1 and 7, 2 and 4, 3 and 5 are opposite each other through the centre
      forall i, j | (i, j) in [(0, 6), (1, 7), (2, 4), (3, 5)]
        ensures r[i].x + r[j].x == 2.0 * center.x && r[i].y + r[j].y == 2.0 * center.y
      {
        assert r[i] == Turn(corners[i], center, trig) && r[j] == Turn(corners[j], center, trig);
        TurnOpposite(corners[i], corners[j], center, trig);
      }
    }
  }

  /** Two points opposite each other through the centre are still opposite after turning. */
  lemma TurnOpposite(p: Point3, q: Point3, center: Point3, trig: UnitPair)
    requires p.x + q.x == 2.0 * center.x && p.y + q.y == 2.0 * center.y
    ensures var tp, tq := Turn(p, center, trig), Turn(q, center, trig);
      tp.x + tq.x == 2.0 * center.x && tp.y + tq.y == 2.0 * center.y
  {
    var c, s := trig.0, trig.1;
    var dx, dy := p.x - center.x, p.y - center.y;
    assert q.x - center.x == -dx && q.y - center.y == -dy;
    assert c * (q.x - center.x) == -(c * dx) && s * (q.x - center.x) == -(s * dx);
    assert c * (q.y - center.y) == -(c * dy) && s * (q.y - center.y) == -(s * dy);
  }

  /** SumPoints of an eight-element sequence, written out. */
  lemma SumOfEight(ps: seq<Point3>)
    requires |ps| == 8
    ensures SumPoints(ps) == Point3(
      ps[0].x + ps[1].x + ps[2].x + ps[3].x + ps[4].x + ps[5].x + ps[6].x + ps[7].x,
      ps[0].y + ps[1].y + ps[2].y + ps[3].y + ps[4].y + ps[5].y + ps[6].y + ps[7].y,
      ps[0].z + ps[1].z + ps[2].z + ps[3].z + ps[4].z + ps[5].z + ps[6].z + ps[7].z)
  {
    assert ps[7..][1..] == [];
    assert SumPoints(ps[7..]) == Point3(ps[7].x, ps[7].y, ps[7].z);
    assert ps[6..][1..] == ps[7..];
    assert SumPoints(ps[6..]) == Point3(ps[6].x + ps[7].x, ps[6].y + ps[7].y, ps[6].z + ps[7].z);
    assert ps[5..][1..] == ps[6..];
    assert ps[4..][1..] == ps[5..];
    assert SumPoints(ps[4..]) == Point3(ps[4].x + ps[5].x + ps[6].x + ps[7].x,
      ps[4].y + ps[5].y + ps[6].y + ps[7].y, ps[4].z + ps[5].z + ps[6].z + ps[7].z);
    assert ps[3..][1..] == ps[4..];
    assert ps[2..][1..] == ps[3..];
    assert SumPoints(ps[2..]) == Point3(ps[2].x + ps[3].x + ps[4].x + ps[5].x + ps[6].x + ps[7].x,
      ps[2].y + ps[3].y + ps[4].y + ps[5].y + ps[6].y + ps[7].y,
      ps[2].z + ps[3].z + ps[4].z + ps[5].z + ps[6].z + ps[7].z);
    assert ps[1..][1..] == ps[2..];
  }

  // ---------------------------------------------------------------- create_lines

  /** The two index rings of create_lines: one face of four corners, then the opposite face. */
  const Ring0: seq<nat> := [0, 1, 2, 3, 0]
  const Ring1: seq<nat> := [4, 5, 6, 7, 4]

  /** A line record for the renderer: {"color": color, "vertices": [p, q]}. */
  datatype Segment = Segment(color: string, vertices: seq<Point3>)

  /** Corner indices joined by segment j: for i = j / 3 the loop appends the edge i -> i + 1 of
      the first ring, the edge i -> i + 1 of the second ring, then the edge from corner i of the
      first ring to corner i of the second. */
  function EdgeEnds(j: nat): (e: (nat, nat))
    requires j < 12
    ensures e.0 < 8 && e.1 < 8 && e.0 != e.1
  {
    var i := j / 3;
    if j % 3 == 0 then (Ring0[i], Ring0[i + 1])
    else if j % 3 == 1 then (Ring1[i], Ring1[i + 1])
    else (Ring0[i], Ring1[i])
  }

  /** The wireframe create_lines returns for `corners`. */
  function Wireframe(corners: seq<Point3>, color: string): (r: seq<Segment>)
    requires |corners| >= 8
    ensures |r| == 12
    ensures forall j | 0 <= j < 12 :: r[j].color == color && |r[j].vertices| == 2
  {
    seq(12, j requires 0 <= j < 12 => Segment(color, [corners[EdgeEnds(j).0], corners[EdgeEnds(j).1]]))
  }

  /** create_lines fails with IndexError when fewer than eight corners are given. */
  datatype LinesError = TooFewCorners

  /** create_lines: four passes, each appending one edge of either ring and one edge between
      them, then one record per vertex pair carrying `color`. */
  method CreateLines(corners: seq<Point3>, color: string) returns (r: Result<seq<Segment>, LinesError>)
    ensures r.Err? <==> |corners| < 8
    ensures r.Ok? ==> r.value == Wireframe(corners, color)
  {
    if |corners| < 8 {
      return Err(TooFewCorners);
    }
    var verticesList: seq<seq<Point3>> := [];
    for i := 0 to 4
      invariant |verticesList| == 3 * i
      invariant forall j | 0 <= j < 3 * i :: verticesList[j] == [corners[EdgeEnds(j).0], corners[EdgeEnds(j).1]]
    {
      verticesList := verticesList + [[corners[Ring0[i]], corners[Ring0[i + 1]]]];
      verticesList := verticesList + [[corners[Ring1[i]], corners[Ring1[i + 1]]]];
      verticesList := verticesList + [[corners[Ring0[i]], corners[Ring1[i]]]];
    }
    r := Ok(seq(|verticesList|, j requires 0 <= j < |verticesList| => Segment(color, verticesList[j])));
  }

  /** 1 when segment j touches corner k. */
  function Touches(j: nat, k: nat): nat
    requires j < 12
  {
    if EdgeEnds(j).0 == k || EdgeEnds(j).1 == k then 1 else 0
  }

  /** The number of segments j, from <= j < 12, that touch corner k. */
  function Degree(k: nat, from: nat): nat
    requires from <= 12
    decreases 12 - from
  {
    if from == 12 then 0 else Touches(from, k) + Degree(k, from + 1)
  }

  /** Each of the eight corners is an end of exactly three of the twelve segments. */
  lemma {:induction false} EveryCornerHasThreeEdges(k: nat)
    requires k < 8
    ensures Degree(k, 0) == 3
  {
    assert Degree(k, 6) == Touches(6, k) + Touches(7, k) + Touches(8, k) + Touches(9, k)
      + Touches(10, k) + Touches(11, k) by {
      assert Degree(k, 10) == Touches(10, k) + Touches(11, k);
      assert Degree(k, 8) == Touches(8, k) + Touches(9, k) + Degree(k, 10);
    }
    assert Degree(k, 0) == Touches(0, k) + Touches(1, k) + Touches(2, k) + Touches(3, k)
      + Touches(4, k) + Touches(5, k) + Degree(k, 6) by {
      assert Degree(k, 4) == Touches(4, k) + Touches(5, k) + Degree(k, 6);
      assert Degree(k, 2) == Touches(2, k) + Touches(3, k) + Degree(k, 4);
    }
  }

  /** No two of the twelve segments join the same pair of corners. */
  lemma WireframeEdgesDistinct(j1: nat, j2: nat)
    requires j1 < 12 && j2 < 12 && j1 != j2
    ensures EdgeEnds(j1) != EdgeEnds(j2) && EdgeEnds(j1) != (EdgeEnds(j2).1, EdgeEnds(j2).0)
  {
  }
}
