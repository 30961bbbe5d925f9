/** How the two corner orderings relate: transform_boxes (projection) and eight_points
    (visualize) give the same eight vertices in different orders, and create_lines draws the
    twelve edges of the box for either ordering. */
module CornerOrderings {
  import opened Wrappers
  import opened Geometry
  import opened VisualizeUtils
  import opened Transform

  /** Position in the eight_points list of corner k of transform_boxes. */
  const ToVisualize: seq<nat> := [1, 5, 4, 0, 2, 6, 7, 3]

  function CenterOf(box: seq<real>): Point3
    requires |box| >= 3
  {
    Point3(box[0], box[1], box[2])
  }

  function SizeOf(box: seq<real>): Size
    requires |box| >= 6
  {
    Size(box[3], box[4], box[5])
  }

  /** With rotation 0 and the same six parameters, corner k of transform_boxes is corner
      ToVisualize[k] of eight_points. */
  lemma CornerCorrespondence(box: seq<real>, trig: UnitPair)
    requires |box| >= 6
    ensures var projection := TransformBoxes(box).value;
      var visualize := EightPoints(CenterOf(box), SizeOf(box), 0.0, trig);
      forall k | 0 <= k < 8 :: projection[k] == visualize[ToVisualize[k]]
  {
  }

  /** With rotation 0 the two orderings list the same eight vertices: each list is a
      permutation of the other. */
  lemma SameVerticesWithoutRotation(box: seq<real>, trig: UnitPair)
    requires |box| >= 6
    ensures var projection := TransformBoxes(box).value;
      var visualize := EightPoints(CenterOf(box), SizeOf(box), 0.0, trig);
      && multiset(projection) == multiset(visualize)
      && forall p :: p in projection <==> p in visualize
  {
    var projection := TransformBoxes(box).value;
    var v := EightPoints(CenterOf(box), SizeOf(box), 0.0, trig);
    CornerCorrespondence(box, trig);
    assert projection == Reorder(v);
    ReorderIsPermutation(v);
    forall p ensures p in projection <==> p in v {
      assert p in projection <==> p in multiset(projection);
      assert p in v <==> p in multiset(v);
    }
  }

  /** The eight_points list rearranged into the transform_boxes order. */
  function Reorder(v: seq<Point3>): seq<Point3>
    requires |v| == 8
  {
    [v[1], v[5], v[4], v[0], v[2], v[6], v[7], v[3]]
  }

  lemma ReorderIsPermutation(v: seq<Point3>)
    requires |v| == 8
    ensures multiset(Reorder(v)) == multiset(v)
  {
    // six transpositions take v to Reorder(v)
    var t1 := Swap(v, 0, 1);
    var t2 := Swap(t1, 1, 5);
    var t3 := Swap(t2, 2, 4);
    var t4 := Swap(t3, 3, 5);
    var t5 := Swap(t4, 5, 6);
    var t6 := Swap(t5, 6, 7);
    SwapsGiveReorder(v);
    SwapKeepsMultiset(v, 0, 1);
    SwapKeepsMultiset(t1, 1, 5);
    SwapKeepsMultiset(t2, 2, 4);
    SwapKeepsMultiset(t3, 3, 5);
    SwapKeepsMultiset(t4, 5, 6);
    SwapKeepsMultiset(t5, 6, 7);
  }

  lemma SwapsGiveReorder(v: seq<Point3>)
    requires |v| == 8
    ensures Swap(Swap(Swap(Swap(Swap(Swap(v, 0, 1), 1, 5), 2, 4), 3, 5), 5, 6), 6, 7) == Reorder(v)
  {
    var t1 := Swap(v, 0, 1);
    assert t1 == [v[1], v[0], v[2], v[3], v[4], v[5], v[6], v[7]];
    var t2 := Swap(t1, 1, 5);
    assert t2 == [v[1], v[5], v[2], v[3], v[4], v[0], v[6], v[7]];
    var t3 := Swap(t2, 2, 4);
    assert t3 == [v[1], v[5], v[4], v[3], v[2], v[0], v[6], v[7]];
    var t4 := Swap(t3, 3, 5);
    assert t4 == [v[1], v[5], v[4], v[0], v[2], v[3], v[6], v[7]];
    var t5 := Swap(t4, 5, 6);
    assert t5 == [v[1], v[5], v[4], v[0], v[2], v[6], v[3], v[7]];
  }

  /** Exchanges entries i and j. */
  function Swap(s: seq<Point3>, i: nat, j: nat): (r: seq<Point3>)
    requires i < |s| && j < |s|
    ensures |r| == |s|
  {
    s[i := s[j]][j := s[i]]
  }

  lemma SwapKeepsMultiset(s: seq<Point3>, i: nat, j: nat)
    requires i < |s| && j < |s|
    ensures multiset(Swap(s, i, j)) == multiset(s)
  {
  }

  // ---------------------------------------------------------------- the wireframe is the box

  /** Squared length of wireframe segment j of an eight_points box: the ring edges alternate
      between the x side w and the z side h, and the edges between the rings run along y. */
  function EdgeSqLen(size: Size, j: nat): real
  {
    if j % 3 == 2 then size.l * size.l
    else if (j / 3) % 2 == 0 then size.w * size.w
    else size.h * size.h
  }

  /** The squared distance between the axis-aligned corners joined by segment j. */
  lemma AxisAlignedEdgeLength(center: Point3, size: Size, j: nat)
    requires j < 12
    ensures var corners := AxisAlignedCorners(center, size);
      SqDist3(corners[EdgeEnds(j).0], corners[EdgeEnds(j).1]) == EdgeSqLen(size, j)
  {
    var (a, b) := EdgeEnds(j);
    var u := Point3(OffsetX(size, a), OffsetY(size, a), OffsetZ(size, a));
    var v := Point3(OffsetX(size, b), OffsetY(size, b), OffsetZ(size, b));
    CornerOffsets(center, size, a);
    CornerOffsets(center, size, b);
    OffsetSqDist(center, u, v);
    EdgeSides(size, j);
  }

  /** Along segment j exactly one offset changes, by the full side of the box. */
  lemma EdgeSides(size: Size, j: nat)
    requires j < 12
    ensures var (a, b) := EdgeEnds(j);
      var dx := OffsetX(size, a) - OffsetX(size, b);
      var dy := OffsetY(size, a) - OffsetY(size, b);
      var dz := OffsetZ(size, a) - OffsetZ(size, b);
      dx * dx + dy * dy + dz * dz == EdgeSqLen(size, j)
  {
    var (a, b) := EdgeEnds(j);
    var dx := OffsetX(size, a) - OffsetX(size, b);
    var dy := OffsetY(size, a) - OffsetY(size, b);
    var dz := OffsetZ(size, a) - OffsetZ(size, b);
    if j % 3 == 2 {
      assert dx == 0.0 && dz == 0.0 && (dy == size.l || dy == -size.l);
      assert dy * dy == size.l * size.l;
    } else if (j / 3) % 2 == 0 {
      assert dy == 0.0 && dz == 0.0 && (dx == size.w || dx == -size.w);
      assert dx * dx == size.w * size.w;
    } else {
      assert dx == 0.0 && dy == 0.0 && (dz == size.h || dz == -size.h);
      assert dz * dz == size.h * size.h;
    }
  }

  /** The distance between two points given as offsets from the same centre. */
  lemma OffsetSqDist(center: Point3, u: Point3, v: Point3)
    ensures SqDist3(Point3(center.x + u.x, center.y + u.y, center.z + u.z),
                    Point3(center.x + v.x, center.y + v.y, center.z + v.z))
         == (u.x - v.x) * (u.x - v.x) + (u.y - v.y) * (u.y - v.y) + (u.z - v.z) * (u.z - v.z)
  {
    var p := Point3(center.x + u.x, center.y + u.y, center.z + u.z);
    var q := Point3(center.x + v.x, center.y + v.y, center.z + v.z);
    assert p.x - q.x == u.x - v.x && p.y - q.y == u.y - v.y && p.z - q.z == u.z - v.z;
  }

  /** Every segment create_lines draws for an eight_points box, rotated or not, has the length
      of one side of the box: w or h around either ring, l between the rings. */
  lemma VisualizeWireframeEdgeLengths(center: Point3, size: Size, rotation: real, trig: UnitPair, color: string)
    ensures var segments := Wireframe(EightPoints(center, size, rotation, trig), color);
      forall j | 0 <= j < 12 :: SqDist3(segments[j].vertices[0], segments[j].vertices[1]) == EdgeSqLen(size, j)
  {
    var corners := EightPoints(center, size, rotation, trig);
    var segments := Wireframe(corners, color);
    forall j | 0 <= j < 12
      ensures SqDist3(segments[j].vertices[0], segments[j].vertices[1]) == EdgeSqLen(size, j)
    {
      var (a, b) := EdgeEnds(j);
      assert segments[j].vertices == [corners[a], corners[b]];
      EightPointsRigid(center, size, rotation, trig, a, b);
      AxisAlignedEdgeLength(center, size, j);
    }
  }

  /** Without rotation, and with no side of length zero, every segment of an eight_points box
      is parallel to an axis: its two ends differ in exactly one coordinate. */
  lemma VisualizeWireframeAxisParallel(center: Point3, size: Size, trig: UnitPair, color: string)
    requires size.w != 0.0 && size.l != 0.0 && size.h != 0.0
    ensures var segments := Wireframe(EightPoints(center, size, 0.0, trig), color);
      forall j | 0 <= j < 12 :: AxesDiffering(segments[j].vertices[0], segments[j].vertices[1]) == 1
  {
    var corners := EightPoints(center, size, 0.0, trig);
    var segments := Wireframe(corners, color);
    forall j | 0 <= j < 12 ensures AxesDiffering(segments[j].vertices[0], segments[j].vertices[1]) == 1 {
      var (a, b) := EdgeEnds(j);
      assert segments[j].vertices == [corners[a], corners[b]];
      CornerOffsets(center, size, a);
      CornerOffsets(center, size, b);
    }
  }

  /** The same holds for the transform_boxes ordering: create_lines joins each top corner to
      the next one and to the bottom corner below it, so its twelve segments are the twelve
      edges of the box. */
  lemma ProjectionWireframeAxisParallel(box: seq<real>, color: string)
    requires |box| >= 6 && box[3] != 0.0 && box[4] != 0.0 && box[5] != 0.0
    ensures var segments := Wireframe(TransformBoxes(box).value, color);
      forall j | 0 <= j < 12 :: AxesDiffering(segments[j].vertices[0], segments[j].vertices[1]) == 1
  {
    var corners := TransformBoxes(box).value;
    var segments := Wireframe(corners, color);
    forall j | 0 <= j < 12 ensures AxesDiffering(segments[j].vertices[0], segments[j].vertices[1]) == 1 {
      var (a, b) := EdgeEnds(j);
      assert segments[j].vertices == [corners[a], corners[b]];
    }
  }
}
