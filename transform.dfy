/** pointcloudprocess/test/scannet/transform/transform.py: the eight corners of a centre-form box
    in the "projection" ordering, and the projection of a box into image coordinates through the
    inverse axis alignment, the inverse camera pose, a divide by z and the intrinsic matrix. */
module Transform {
  import opened Wrappers
  import opened Geometry

  /** Why a projection fails: the format assertion, unpacking a box with fewer than six values,
      np.linalg.inv on a singular matrix, or operands whose shapes do not combine. */
  datatype ProjError = InvalidFormat | BoxTooShort | SingularMatrix | ShapeMismatch

  // ---------------------------------------------------------------- transform_boxes

  /** transform_boxes: reads (cx, cy, cz, l, w, h) from the first six entries, with l along x and
      w along y, and lists the top face (z = cz + h/2) then the bottom face in the same xy order. */
  function TransformBoxes(box: seq<real>): (r: Result<seq<Point3>, ProjError>)
    ensures r.Ok? <==> |box| >= 6
    ensures r.Err? ==> r.error == BoxTooShort
    ensures r.Ok? ==> |r.value| == 8
    ensures r.Ok? ==> forall k | 0 <= k < 8 ::
      r.value[k].z == if k < 4 then box[2] + box[5] / 2.0 else box[2] - box[5] / 2.0
    ensures r.Ok? ==> forall k | 0 <= k < 4 :: r.value[k + 4].x == r.value[k].x && r.value[k + 4].y == r.value[k].y
  {
    if |box| < 6 then Err(BoxTooShort)
    else
      var cx, cy, cz, l, w, h := box[0], box[1], box[2], box[3], box[4], box[5];
      Ok([ Point3(cx + l / 2.0, cy - w / 2.0, cz + h / 2.0),
           Point3(cx + l / 2.0, cy + w / 2.0, cz + h / 2.0),
           Point3(cx - l / 2.0, cy + w / 2.0, cz + h / 2.0),
           Point3(cx - l / 2.0, cy - w / 2.0, cz + h / 2.0),
           Point3(cx + l / 2.0, cy - w / 2.0, cz - h / 2.0),
           Point3(cx + l / 2.0, cy + w / 2.0, cz - h / 2.0),
           Point3(cx - l / 2.0, cy + w / 2.0, cz - h / 2.0),
           Point3(cx - l / 2.0, cy - w / 2.0, cz - h / 2.0) ])
  }

  /** Only the first six entries are read: the yaw in entry 6 (and anything after it) has no
      effect on the corners. */
  lemma TransformBoxesIgnoresYaw(box: seq<real>, other: seq<real>)
    requires |box| >= 6 && |other| >= 6 && box[..6] == other[..6]
    ensures TransformBoxes(box) == TransformBoxes(other)
  {
    assert forall k | 0 <= k < 6 :: box[k] == box[..6][k] == other[..6][k] == other[k];
  }

  /** The box of centre 0 and sides 2 has its top face at z = 1 and its bottom face at z = -1,
      each listed as (1, -1), (1, 1), (-1, 1), (-1, -1). */
  lemma TransformBoxesUnitCube()
    ensures TransformBoxes([0.0, 0.0, 0.0, 2.0, 2.0, 2.0])
         == Ok([ Point3(1.0, -1.0, 1.0), Point3(1.0, 1.0, 1.0), Point3(-1.0, 1.0, 1.0), Point3(-1.0, -1.0, 1.0),
                 Point3(1.0, -1.0, -1.0), Point3(1.0, 1.0, -1.0), Point3(-1.0, 1.0, -1.0), Point3(-1.0, -1.0, -1.0) ])
  {
  }

  // ---------------------------------------------------------------- 4 x 4 matrices

  datatype Vec4 = Vec4(x: real, y: real, z: real, w: real)

  /** A 4 x 4 matrix by rows. */
  datatype Mat4 = Mat4(r0: Vec4, r1: Vec4, r2: Vec4, r3: Vec4)

  /** A 3 x 4 intrinsic matrix by rows. */
  datatype Intrinsic = Intrinsic(r0: Vec4, r1: Vec4, r2: Vec4)

  function Dot(a: Vec4, b: Vec4): real
  {
    a.x * b.x + a.y * b.y + a.z * b.z + a.w * b.w
  }

  /** The matrix-vector product m . v. */
  function Apply(m: Mat4, v: Vec4): Vec4
  {
    Vec4(Dot(m.r0, v), Dot(m.r1, v), Dot(m.r2, v), Dot(m.r3, v))
  }

  function Column(m: Mat4, j: nat): Vec4
    requires j < 4
  {
    if j == 0 then Vec4(m.r0.x, m.r1.x, m.r2.x, m.r3.x)
    else if j == 1 then Vec4(m.r0.y, m.r1.y, m.r2.y, m.r3.y)
    else if j == 2 then Vec4(m.r0.z, m.r1.z, m.r2.z, m.r3.z)
    else Vec4(m.r0.w, m.r1.w, m.r2.w, m.r3.w)
  }

  function RowTimes(row: Vec4, b: Mat4): Vec4
  {
    Vec4(Dot(row, Column(b, 0)), Dot(row, Column(b, 1)), Dot(row, Column(b, 2)), Dot(row, Column(b, 3)))
  }

  /** The matrix product a . b. */
  function MatMul(a: Mat4, b: Mat4): Mat4
  {
    Mat4(RowTimes(a.r0, b), RowTimes(a.r1, b), RowTimes(a.r2, b), RowTimes(a.r3, b))
  }

  const Identity4: Mat4 := Mat4(Vec4(1.0, 0.0, 0.0, 0.0), Vec4(0.0, 1.0, 0.0, 0.0),
                                Vec4(0.0, 0.0, 1.0, 0.0), Vec4(0.0, 0.0, 0.0, 1.0))

  /** What np.linalg.inv returns for an invertible matrix: a two-sided inverse. */
  predicate IsInverse(m: Mat4, inv: Mat4)
  {
    MatMul(m, inv) == Identity4 && MatMul(inv, m) == Identity4
  }

  lemma ApplyIdentity(v: Vec4)
    ensures Apply(Identity4, v) == v
  {
  }

  /** One row of the associativity of matrix products. */
  lemma DotAssoc(row: Vec4, b: Mat4, v: Vec4)
    ensures Dot(row, Apply(b, v)) == Dot(RowTimes(row, b), v)
  {
    calc {
      Dot(row, Apply(b, v));
      row.x * Dot(b.r0, v) + row.y * Dot(b.r1, v) + row.z * Dot(b.r2, v) + row.w * Dot(b.r3, v);
      (row.x * b.r0.x + row.y * b.r1.x + row.z * b.r2.x + row.w * b.r3.x) * v.x
        + (row.x * b.r0.y + row.y * b.r1.y + row.z * b.r2.y + row.w * b.r3.y) * v.y
        + (row.x * b.r0.z + row.y * b.r1.z + row.z * b.r2.z + row.w * b.r3.z) * v.z
        + (row.x * b.r0.w + row.y * b.r1.w + row.z * b.r2.w + row.w * b.r3.w) * v.w;
      Dot(RowTimes(row, b), v);
    }
  }

  /** Applying b and then a is applying a . b. */
  lemma ApplyMatMul(a: Mat4, b: Mat4, v: Vec4)
    ensures Apply(a, Apply(b, v)) == Apply(MatMul(a, b), v)
  {
    DotAssoc(a.r0, b, v);
    DotAssoc(a.r1, b, v);
    DotAssoc(a.r2, b, v);
    DotAssoc(a.r3, b, v);
  }

  /** The inverse undoes the matrix: inv . (m . v) == v. */
  lemma InverseRoundTrip(m: Mat4, inv: Mat4, v: Vec4)
    requires IsInverse(m, inv)
    ensures Apply(inv, Apply(m, v)) == v
    ensures Apply(m, Apply(inv, v)) == v
  {
    ApplyMatMul(inv, m, v);
    ApplyMatMul(m, inv, v);
    ApplyIdentity(v);
  }

  // ---------------------------------------------------------------- box3d_to_2d

  /** An image point, or the inf/nan that the divide by a zero depth produces. */
  datatype Pixel = Pixel(u: real, v: real) | NonFinite

  /** The box3d argument: a 1-D array (a centre-form box) or a 2-D array of rows. */
  datatype BoxArray = Flat(values: seq<real>) | Rows(rows: seq<seq<real>>)

  /** The corner array after the optional expansion, or one whose shape will make the
      concatenation with the column of ones, or the product with a 4 x 4 matrix, fail. */
  datatype Expanded = Corners(points: seq<Point3>) | Misshapen

  function Homogeneous(p: Point3): Vec4
  {
    Vec4(p.x, p.y, p.z, 1.0)
  }

  /** Camera-frame coordinates of a world corner: inverse axis alignment, then inverse pose. */
  function CameraPoint(p: Point3, axisInv: Mat4, camInv: Mat4): Vec4
  {
    Apply(camInv, Apply(axisInv, Homogeneous(p)))
  }

  /** The homogeneous row after the divide: (x/z, y/z, 1, w). */
  function Divided(q: Vec4): Vec4
    requires q.z != 0.0
  {
    Vec4(q.x / q.z, q.y / q.z, 1.0, q.w)
  }

  /** The first two entries of intrinsic . Divided(q), or NonFinite when the depth is zero. */
  function ProjectCameraPoint(q: Vec4, intrinsic: Intrinsic): Pixel
  {
    if q.z == 0.0 then NonFinite
    else Pixel(Dot(intrinsic.r0, Divided(q)), Dot(intrinsic.r1, Divided(q)))
  }

  function ProjectPoint(p: Point3, axisInv: Mat4, camInv: Mat4, intrinsic: Intrinsic): Pixel
  {
    ProjectCameraPoint(CameraPoint(p, axisInv, camInv), intrinsic)
  }

  predicate AllTriples(rows: seq<seq<real>>)
  {
    forall i | 0 <= i < |rows| :: |rows[i]| == 3
  }

  function RowsToPoints(rows: seq<seq<real>>): (ps: seq<Point3>)
    requires AllTriples(rows)
    ensures |ps| == |rows|
  {
    seq(|rows|, i requires 0 <= i < |rows| => Point3(rows[i][0], rows[i][1], rows[i][2]))
  }

  function PointsToRows(ps: seq<Point3>): (rows: seq<seq<real>>)
    ensures AllTriples(rows) && RowsToPoints(rows) == ps
  {
    seq(|ps|, i requires 0 <= i < |ps| => [ps[i].x, ps[i].y, ps[i].z])
  }

  /** Step 1: with 'center' the box is expanded by transform_boxes, with 'corners' the rows
      are taken as they are. */
  function Expand(box3d: BoxArray, format: string): (r: Result<Expanded, ProjError>)
    ensures r.Err? ==> format == "center" && r.error == BoxTooShort
    ensures format == "center" && box3d.Flat? ==> (r.Ok? <==> |box3d.values| >= 6)
    ensures r.Ok? && r.value.Corners? && format == "center" ==> |r.value.points| == 8
    ensures format != "center" && box3d.Rows? ==> (r == Ok(Misshapen) <==> !AllTriples(box3d.rows))
  {
    if format == "center" then
      match box3d
      case Flat(values) => (match TransformBoxes(values)
                            case Ok(corners) => Ok(Corners(corners))
                            case Err(e) => Err(e))
      // unpacking rows of a 2-D array: fewer than six rows fail at once, otherwise the
      // arithmetic builds a 3-D array that cannot be concatenated with the ones column
      case Rows(rows) => if |rows| < 6 then Err(BoxTooShort) else Ok(Misshapen)
    else
      match box3d
      case Flat(_) => Ok(Misshapen)
      case Rows(rows) => if AllTriples(rows) then Ok(Corners(RowsToPoints(rows))) else Ok(Misshapen)
  }

  /** box3d_to_2d, as a function of its inputs. `axisInv` and `camInv` are the results of
      np.linalg.inv: None when the matrix is singular. The failures come in the order of the
      original's statements. */
  function Projected(box3d: BoxArray, axisInv: Option<Mat4>, camInv: Option<Mat4>, intrinsic: Intrinsic,
                     format: string): (r: Result<seq<Pixel>, ProjError>)
    ensures r.Ok? ==> (format == "corners" || format == "center") && axisInv.Some? && camInv.Some?
    ensures r.Ok? && format == "center" ==> |r.value| == 8
    ensures axisInv.None? && (format == "corners" || format == "center") && Expand(box3d, format).Ok?
      ==> r == Err(SingularMatrix)
  {
    if format != "corners" && format != "center" then Err(InvalidFormat)
    else match Expand(box3d, format)
      case Err(e) => Err(e)
      case Ok(expanded) =>
        if axisInv.None? then Err(SingularMatrix)
        else if expanded.Misshapen? then Err(ShapeMismatch)
        else if camInv.None? then Err(SingularMatrix)
        else
          var corners := expanded.points;
          Ok(seq(|corners|, i requires 0 <= i < |corners| =>
                   ProjectPoint(corners[i], axisInv.value, camInv.value, intrinsic)))
  }

  /** box3d_to_2d: expands a centre-form box, maps every row through the two inverse matrices,
      divides columns 0 and 1 by column 2 in place, sets column 2 to 1, and keeps the first
      two columns of the product with the intrinsic matrix. */
  method Box3dTo2d(box3d: BoxArray, axisAlign: Mat4, axisInv: Option<Mat4>, camPose: Mat4,
                   camInv: Option<Mat4>, intrinsic: Intrinsic, format: string)
    returns (r: Result<seq<Pixel>, ProjError>)
    requires axisInv.Some? ==> IsInverse(axisAlign, axisInv.value)
    requires camInv.Some? ==> IsInverse(camPose, camInv.value)
    ensures r == Projected(box3d, axisInv, camInv, intrinsic, format)
  {
    if format != "corners" && format != "center" {
      return Err(InvalidFormat);
    }
    var expanded := Expand(box3d, format);
    if expanded.Err? {
      return Err(expanded.error);
    }
    if axisInv.None? {
      return Err(SingularMatrix);
    }
    if expanded.value.Misshapen? {
      return Err(ShapeMismatch);
    }
    var corners := expanded.value.points;
    var aligned := AlignCorners(corners, axisInv.value);
    if camInv.None? {
      return Err(SingularMatrix);
    }
    var cam := TransformRows(aligned, camInv.value);
    label BeforeDivide:
    var nonFinite := DivideByDepth(cam);
    var corners2d := ImageColumns(cam, nonFinite, intrinsic);
    forall k | 0 <= k < |corners|
      ensures corners2d[k] == ProjectPoint(corners[k], axisInv.value, camInv.value, intrinsic)
    {
      var q := CameraPoint(corners[k], axisInv.value, camInv.value);
      assert old@BeforeDivide(Row(cam, k)) == q;
      if !nonFinite[k] {
        assert Row(cam, k) == Divided(q);
      }
    }
    assert corners2d == seq(|corners|, i requires 0 <= i < |corners| =>
                             ProjectPoint(corners[i], axisInv.value, camInv.value, intrinsic));
    r := Ok(corners2d);
  }

  /** The inverse axis alignment applied to every corner extended with a 1: one row per corner. */
  method AlignCorners(corners: seq<Point3>, axisInv: Mat4) returns (out: array2<real>)
    ensures fresh(out) && out.Length0 == |corners| && out.Length1 == 4
    ensures forall k | 0 <= k < |corners| :: Row(out, k) == Apply(axisInv, Homogeneous(corners[k]))
  {
    out := new real[|corners|, 4];
    for i := 0 to |corners|
      invariant forall k | 0 <= k < i :: Row(out, k) == Apply(axisInv, Homogeneous(corners[k]))
    {
      var v := Apply(axisInv, Homogeneous(corners[i]));
      out[i, 0], out[i, 1], out[i, 2], out[i, 3] := v.x, v.y, v.z, v.w;
    }
  }

  /** Every row of `a` multiplied by m. */
  method TransformRows(a: array2<real>, m: Mat4) returns (out: array2<real>)
    requires a.Length1 == 4
    ensures fresh(out) && out.Length0 == a.Length0 && out.Length1 == 4
    ensures forall k | 0 <= k < a.Length0 :: Row(out, k) == Apply(m, Row(a, k))
  {
    out := new real[a.Length0, 4];
    for i := 0 to a.Length0
      invariant forall k | 0 <= k < i :: Row(out, k) == Apply(m, Row(a, k))
    {
      var v := Apply(m, Row(a, i));
      out[i, 0], out[i, 1], out[i, 2], out[i, 3] := v.x, v.y, v.z, v.w;
    }
  }

  /** In place: column 0 /= column 2, column 1 /= column 2, column 2 = 1. A zero in column 2
      leaves inf or nan in columns 0 and 1; those rows are flagged in `nonFinite`. */
  method DivideByDepth(b: array2<real>) returns (nonFinite: array<bool>)
    requires b.Length1 == 4
    modifies b
    ensures fresh(nonFinite) && nonFinite.Length == b.Length0
    ensures forall k | 0 <= k < b.Length0 :: nonFinite[k] == (old(b[k, 2]) == 0.0)
    ensures forall k | 0 <= k < b.Length0 :: !nonFinite[k] ==> Row(b, k) == Divided(old(Row(b, k)))
  {
    nonFinite := new bool[b.Length0];
    for i := 0 to b.Length0
      modifies nonFinite
      invariant forall k | 0 <= k < i :: nonFinite[k] == (b[k, 2] == 0.0)
    {
      nonFinite[i] := b[i, 2] == 0.0;
    }
    DivideColumn(b, 0);  // x over depth
    label DividedX:
    DivideColumn(b, 1);  // y over depth
    label DividedY:
    SetDepthOne(b);      // depth column set to 1
    forall k | 0 <= k < b.Length0 && !nonFinite[k]
      ensures Row(b, k) == Divided(old(Row(b, k)))
    {
      assert b[k, 0] == old@DividedY(b[k, 0]) == old@DividedX(b[k, 0]);
      assert b[k, 1] == old@DividedY(b[k, 1]);
      assert old@DividedY(b[k, 2]) == old@DividedX(b[k, 2]) == old(b[k, 2]);
      assert b[k, 3] == old@DividedY(b[k, 3]) == old@DividedX(b[k, 3]) == old(b[k, 3]);
    }
  }

  /** In place: column c /= column 2 in every row whose column 2 is not zero. */
  method DivideColumn(b: array2<real>, c: nat)
    requires b.Length1 == 4 && c < 2
    modifies b
    ensures forall k, j | 0 <= k < b.Length0 && 0 <= j < 4 && j != c :: b[k, j] == old(b[k, j])
    ensures forall k | 0 <= k < b.Length0 && old(b[k, 2]) != 0.0 :: b[k, c] == old(b[k, c]) / old(b[k, 2])
  {
    for i := 0 to b.Length0
      invariant forall k, j | 0 <= k < b.Length0 && 0 <= j < 4 && (j != c || i <= k) :: b[k, j] == old(b[k, j])
      invariant forall k | 0 <= k < i && old(b[k, 2]) != 0.0 :: b[k, c] == old(b[k, c]) / old(b[k, 2])
    {
      if b[i, 2] != 0.0 {
        b[i, c] := b[i, c] / b[i, 2];
      }
    }
  }

  /** In place: column 2 = 1. */
  method SetDepthOne(b: array2<real>)
    requires b.Length1 == 4
    modifies b
    ensures forall k, j | 0 <= k < b.Length0 && 0 <= j < 4 && j != 2 :: b[k, j] == old(b[k, j])
    ensures forall k | 0 <= k < b.Length0 :: b[k, 2] == 1.0
  {
    for i := 0 to b.Length0
      invariant forall k, j | 0 <= k < b.Length0 && 0 <= j < 4 && (j != 2 || i <= k) :: b[k, j] == old(b[k, j])
      invariant forall k | 0 <= k < i :: b[k, 2] == 1.0
    {
      b[i, 2] := 1.0;
    }
  }

  /** The product with the intrinsic matrix, keeping two columns: the first two rows of the intrinsic matrix
      applied to every row; a row holding inf or nan gives a non-finite point. */
  method ImageColumns(b: array2<real>, nonFinite: array<bool>, intrinsic: Intrinsic) returns (corners2d: seq<Pixel>)
    requires b.Length1 == 4 && nonFinite.Length == b.Length0
    ensures |corners2d| == b.Length0
    ensures forall k | 0 <= k < b.Length0 :: corners2d[k] == ImagePoint(b, nonFinite, intrinsic, k)
  {
    corners2d := [];
    for i := 0 to b.Length0
      invariant |corners2d| == i
      invariant forall k | 0 <= k < i :: corners2d[k] == ImagePoint(b, nonFinite, intrinsic, k)
    {
      var p := if nonFinite[i] then NonFinite else Pixel(Dot(intrinsic.r0, Row(b, i)), Dot(intrinsic.r1, Row(b, i)));
      corners2d := corners2d + [p];
    }
  }

  /** Row k of the product with the intrinsic matrix, first two columns. */
  function ImagePoint(b: array2<real>, nonFinite: array<bool>, intrinsic: Intrinsic, k: nat): Pixel
    requires b.Length1 == 4 && nonFinite.Length == b.Length0 && k < b.Length0
    reads b, nonFinite
  {
    if nonFinite[k] then NonFinite else Pixel(Dot(intrinsic.r0, Row(b, k)), Dot(intrinsic.r1, Row(b, k)))
  }

  /** Row k of an n x 4 array. */
  function Row(a: array2<real>, k: nat): Vec4
    requires k < a.Length0 && a.Length1 == 4
    reads a
  {
    Vec4(a[k, 0], a[k, 1], a[k, 2], a[k, 3])
  }

  // ---------------------------------------------------------------- properties of the projection

  /** Any format other than 'corners' and 'center' is refused before anything else is read. */
  lemma ProjectedRejectsFormat(box3d: BoxArray, axisInv: Option<Mat4>, camInv: Option<Mat4>,
                               intrinsic: Intrinsic, format: string)
    requires format != "corners" && format != "center"
    ensures Projected(box3d, axisInv, camInv, intrinsic, format) == Err(InvalidFormat)
  {
  }

  /** A centre-form box projects as its transform_boxes corners do in the 'corners' format. */
  lemma CenterIsCornersOfTransform(box: seq<real>, axisInv: Option<Mat4>, camInv: Option<Mat4>, intrinsic: Intrinsic)
    requires |box| >= 6
    ensures Projected(Flat(box), axisInv, camInv, intrinsic, "center")
         == Projected(Rows(PointsToRows(TransformBoxes(box).value)), axisInv, camInv, intrinsic, "corners")
  {
  }

  /** On success there is one image point per input corner, and point i is the projection of
      corner i alone. */
  lemma ProjectedRowwise(corners: seq<Point3>, axisInv: Mat4, camInv: Mat4, intrinsic: Intrinsic)
    ensures var r := Projected(Rows(PointsToRows(corners)), Some(axisInv), Some(camInv), intrinsic, "corners");
      && r.Ok? && |r.value| == |corners|
      && forall i | 0 <= i < |corners| :: r.value[i] == ProjectPoint(corners[i], axisInv, camInv, intrinsic)
  {
  }

  /** The intrinsic matrix [I3 | 0]. */
  const PlainIntrinsic: Intrinsic := Intrinsic(Vec4(1.0, 0.0, 0.0, 0.0), Vec4(0.0, 1.0, 0.0, 0.0), Vec4(0.0, 0.0, 1.0, 0.0))

  /** With identity alignment and pose and the intrinsic [I3 | 0], a corner at non-zero depth
      projects to (x/z, y/z). */
  lemma IdentityProjection(p: Point3)
    requires p.z != 0.0
    ensures ProjectPoint(p, Identity4, Identity4, PlainIntrinsic) == Pixel(p.x / p.z, p.y / p.z)
  {
    ApplyIdentity(Homogeneous(p));
  }

  /** If a world point is the camera-frame point q carried through the pose and then the axis
      alignment, the two inverse steps recover q exactly, and the corner projects as q does. */
  lemma RecoversCameraFrame(axisAlign: Mat4, axisInv: Mat4, camPose: Mat4, camInv: Mat4, p: Point3, q: Vec4,
                            intrinsic: Intrinsic)
    requires IsInverse(axisAlign, axisInv) && IsInverse(camPose, camInv)
    requires Homogeneous(p) == Apply(axisAlign, Apply(camPose, q))
    ensures CameraPoint(p, axisInv, camInv) == q
    ensures ProjectPoint(p, axisInv, camInv, intrinsic) == ProjectCameraPoint(q, intrinsic)
  {
    InverseRoundTrip(axisAlign, axisInv, Apply(camPose, q));
    InverseRoundTrip(camPose, camInv, q);
  }

  /** A corner at zero camera depth gives the non-finite values of a division by zero. */
  lemma ZeroDepthIsNonFinite(p: Point3, axisInv: Mat4, camInv: Mat4, intrinsic: Intrinsic)
    requires CameraPoint(p, axisInv, camInv).z == 0.0
    ensures ProjectPoint(p, axisInv, camInv, intrinsic) == NonFinite
  {
  }
}
