# Pointcloudprocess box geometry in Dafny

This project models the box geometry at the core of the `pointcloudprocess` package, together with the scene object that collects box wireframes for rendering. It proves properties of the model. It covers:

- **`visualize/utils.py`**:
  - `paint_points`: an N x 6 buffer holding the xyz of each point and its colour.
  - `cal_corner_after_rotation`: rotating a corner about a pivot in the XY plane.
  - `eight_points`: the eight corners of a centre-form box, in the "visualize" ordering, turned by the yaw when it is non-zero.
  - `create_lines`: the twelve coloured segments of a box wireframe.
- **`test/scannet/transform/transform.py`**:
  - `transform_boxes`: the eight corners in the "transform" ordering, with no yaw.
  - `box3d_to_2d`: inverse axis alignment, inverse camera pose, perspective divide and intrinsic projection.
- **`visualize/pts_visualize.py`**:
  - the `COLOR_LIST` palette;
  - the `PointCloudScene` object: its painted buffer and its growing list of box segments;
  - `create_scene`, `show_scene`, `append_boxes` and `show_scene_by_boxes`, with their input checks.

Files:

| file | contents |
|---|---|
| `wrappers.dfy` | `Result`, `Outcome` and `Option`. |
| `geometry.dfy` | Points, squared distances and `UnitPair`. A `UnitPair` is a pair `(c, s)` with `c*c + s*s == 1`, standing for `(cos r, sin r)`. |
| `visualize_utils.dfy` | `utils.py`. |
| `transform.dfy` | `transform.py`. |
| `corner_orderings.dfy` | How the two corner orderings and the wireframe relate. |
| `pts_visualize.dfy` | `pts_visualize.py`. |

How the source's parts are modelled:

- **Pure code becomes functions and lemmas.** This covers `cal_corner_after_rotation`, `eight_points`, `transform_boxes` and the palette.
- **Loops become methods.** `paint_points` and the in-place column updates of `box3d_to_2d` are methods over `array2`; `create_lines` is a method whose loop builds a sequence of records. Each is proved against a specification function.
- **`PointCloudScene` is a class.** Its methods update the `scene` and `boxes` fields.
- **Errors are values.** Exceptions and failed assertions of the source become `Result`/`Outcome` errors, reported in the order the source raises them. The inputs whose failures the model does not reproduce are listed under "## Left out".
- **Parameters stand in for calls the model cannot see:**
  - `math.cos`/`math.sin` are a `UnitPair`, or a function `trig: real -> UnitPair` where the angle is read from a box;
  - `np.linalg.inv` is an `Option<Mat4>`, where `None` stands for a singular matrix and `Some(inv)` is required to be a two-sided inverse.

Behaviour of the code that the model keeps as written:

- The palette key is `'aque'`, not "aqua".
- In `box3d_to_2d` with `'corners'`, any N x 3 corner array is accepted. Only rows that are not triples fail, at the shape check of the homogeneous product. Eight rows are not required.
- `transform_boxes` never reads the yaw.
- A zero camera depth yields the non-finite values of a float division. This is the `NonFinite` pixel. There is no precondition against it.
- Only the point colour is looked up in the palette. Box colours are passed through untouched.

## Model

| member | source | states |
|---|---|---|
| VisualizeUtils.PaintPoints | pointcloudprocess/visualize/utils.py:4-9 | The buffer is fresh and N x 6. Entry (i, j) is coordinate j of point i for j < 3, and channel j - 3 of the row's colour otherwise. The colour is either one triple for every row or one triple per row. |
| VisualizeUtils.RotateOffset | pointcloudprocess/visualize/utils.py:11-16 | Rotating the point center + (dx, dy) gives center + (c dx - s dy, s dx + c dy). |
| VisualizeUtils.TurnKeepsLength | pointcloudprocess/visualize/utils.py:14-15 | The rotation matrix of a (cos, sin) pair keeps the squared length of every vector. |
| VisualizeUtils.RotateFixesPivot | pointcloudprocess/visualize/utils.py:11-16 | The pivot does not move. |
| VisualizeUtils.RotateNoTurn | pointcloudprocess/visualize/utils.py:11-16 | With cos 1 and sin 0 every point stays where it is. |
| VisualizeUtils.RotateKeepsPivotDistance | pointcloudprocess/visualize/utils.py:11-16 | A rotated corner keeps its distance to the pivot. |
| VisualizeUtils.RotateDifference | pointcloudprocess/visualize/utils.py:14-15 | Proof helper. The difference of two points rotated about the same pivot is their difference, turned. |
| VisualizeUtils.RotateIsometry | pointcloudprocess/visualize/utils.py:11-16 | Rotating two points about the same pivot keeps the distance between them. |
| VisualizeUtils.QuarterTurn | pointcloudprocess/visualize/utils.py:14-15 | With (cos, sin) = (0, 1), the point (1, 0) rotated about the origin lands on (0, 1). |
| VisualizeUtils.AxisAlignedCorners | pointcloudprocess/visualize/utils.py:25-32 | Eight corners; the first four on the face y - l/2 and the last four on the face y + l/2, corner i + 4 having the x and z of corner i. |
| VisualizeUtils.Turn | pointcloudprocess/visualize/utils.py:35-42 | A corner's (x, y) is rotated about the centre's (x, y); its z is unchanged. |
| VisualizeUtils.EightPoints | pointcloudprocess/visualize/utils.py:18-54 | There are exactly eight corners. Corners 0, 1, 4 and 5 lie at z + h/2 and the others at z - h/2, whatever the rotation. |
| VisualizeUtils.CornerOffsets | pointcloudprocess/visualize/utils.py:25-32 | Unrotated corner i is the centre plus (±w/2, ±l/2, ±h/2), with the signs of the visualize ordering. |
| VisualizeUtils.EightPointsOffsets | pointcloudprocess/visualize/utils.py:34-42 | With a non-zero rotation, corner i is the centre plus its offset turned by (cos, sin); z is unchanged. |
| VisualizeUtils.EightPointsAxisAligned | pointcloudprocess/visualize/utils.py:25-34 | With rotation 0, or a (cos, sin) of (1, 0), the corners are the unrotated ones. |
| VisualizeUtils.EightPointsOnSphere | pointcloudprocess/visualize/utils.py:18-54 | Every corner, rotated or not, lies at squared distance (w² + l² + h²)/4 from the centre. |
| VisualizeUtils.EightPointsRigid | pointcloudprocess/visualize/utils.py:34-42 | Rotation moves the box rigidly: any two corners keep their unrotated distance. |
| VisualizeUtils.TurnRigid | pointcloudprocess/visualize/utils.py:35-42 | Turning two points about the same centre keeps their distance in space. |
| VisualizeUtils.SplitSqDist | pointcloudprocess/visualize/utils.py:35-42 | Proof helper. Squared distance in space is the planar part plus the z part, so a yaw-only turn can be handled in the plane. |
| VisualizeUtils.EightPointsCentred | pointcloudprocess/visualize/utils.py:18-54 | The eight corners sum to eight times the centre, rotated or not. |
| VisualizeUtils.TurnOpposite | pointcloudprocess/visualize/utils.py:35-42 | Two points opposite through the centre are still opposite after turning. |
| VisualizeUtils.SumOfEight | pointcloudprocess/visualize/utils.py:44-53 | Proof helper. The component sum of an eight-corner stack, written out. |
| VisualizeUtils.EdgeEnds | pointcloudprocess/visualize/utils.py:57-62 | The two corners joined by segment j are distinct indices below 8. |
| VisualizeUtils.Wireframe | pointcloudprocess/visualize/utils.py:56-63 | There are twelve records, each with the given colour and two vertices. |
| VisualizeUtils.CreateLines | pointcloudprocess/visualize/utils.py:56-63 | Fails (IndexError) exactly when there are fewer than eight corners. Otherwise the records are the wireframe of the corners, in loop order. |
| VisualizeUtils.EveryCornerHasThreeEdges | pointcloudprocess/visualize/utils.py:57-62 | Each of the eight corners is an end of exactly three of the twelve segments. |
| VisualizeUtils.WireframeEdgesDistinct | pointcloudprocess/visualize/utils.py:57-62 | No two segments join the same pair of corners, in either direction. |
| Transform.TransformBoxes | pointcloudprocess/test/scannet/transform/transform.py:3-59 | Fails (unpack error) exactly when the box has fewer than six numbers. Otherwise there are eight corners: the top four at cz + h/2, the bottom four at cz - h/2, each bottom corner under its top corner. |
| Transform.TransformBoxesIgnoresYaw | pointcloudprocess/test/scannet/transform/transform.py:18 | Only the first six numbers are read. Boxes that agree on them, whatever their yaw, give the same corners. |
| Transform.TransformBoxesUnitCube | pointcloudprocess/test/scannet/transform/transform.py:19-58 | The box of centre 0 and sides 2 gives (1,-1,1), (1,1,1), (-1,1,1), (-1,-1,1) and then the same four at z = -1. |
| Transform.ApplyIdentity | pointcloudprocess/test/scannet/transform/transform.py:66-69 | The identity matrix leaves every vector unchanged. |
| Transform.DotAssoc | pointcloudprocess/test/scannet/transform/transform.py:66-69 | Proof helper. A row times (b · v) equals (the row times b) · v. |
| Transform.ApplyMatMul | pointcloudprocess/test/scannet/transform/transform.py:66-69 | Applying b and then a is applying a · b. |
| Transform.InverseRoundTrip | pointcloudprocess/test/scannet/transform/transform.py:65-69 | A two-sided inverse undoes the matrix in both orders. |
| Transform.RowsToPoints | pointcloudprocess/test/scannet/transform/transform.py:66-67 | One point per row. |
| Transform.PointsToRows | pointcloudprocess/test/scannet/transform/transform.py:66-67 | Writing corners as rows of triples and reading them back gives the same corners. |
| Transform.Expand | pointcloudprocess/test/scannet/transform/transform.py:62-64 | Only 'center' can fail here, and only with a short box: a flat centre-form box expands exactly when it has at least six numbers, into eight corners. With 'corners' a 2-D array is misshapen exactly when some row is not a triple. |
| Transform.Projected | pointcloudprocess/test/scannet/transform/transform.py:61-75 | A result exists only for a valid format with both inverses present; a centre-form box gives eight image points; a singular axis alignment is reported once the box has been read. |
| Transform.Box3dTo2d | pointcloudprocess/test/scannet/transform/transform.py:61-75 | Equals the specification `Projected`, checking in the source's order: the format; the box checks of transform_boxes; a singular axis alignment; a corner array that is not N x 3; a singular camera pose. On success, image point k is the projection of corner k. |
| Transform.AlignCorners | pointcloudprocess/test/scannet/transform/transform.py:65-67 | Row k is the inverse axis alignment applied to corner k extended with a 1. |
| Transform.TransformRows | pointcloudprocess/test/scannet/transform/transform.py:68-69 | Row k is the inverse camera pose applied to row k. |
| Transform.DivideByDepth | pointcloudprocess/test/scannet/transform/transform.py:70-72 | Rows whose depth was zero are flagged non-finite. Every other row becomes (x/z, y/z, 1, w). |
| Transform.DivideColumn | pointcloudprocess/test/scannet/transform/transform.py:70-71 | Column c is divided by column 2 wherever column 2 is non-zero; the other columns keep their values. Column c of a zero-depth row is left unspecified: the source leaves inf or nan there, and such rows are flagged by DivideByDepth. |
| Transform.SetDepthOne | pointcloudprocess/test/scannet/transform/transform.py:72 | Column 2 becomes 1; every other entry keeps its value. |
| Transform.ImageColumns | pointcloudprocess/test/scannet/transform/transform.py:74 | Image point k is the first two rows of the intrinsic matrix applied to row k, or non-finite where the depth was zero. |
| Transform.ProjectedRejectsFormat | pointcloudprocess/test/scannet/transform/transform.py:62 | Any format other than 'corners' and 'center' is refused before anything else is read. |
| Transform.CenterIsCornersOfTransform | pointcloudprocess/test/scannet/transform/transform.py:63-64 | A centre-form box projects exactly as its transform_boxes corners do under 'corners'. |
| Transform.ProjectedRowwise | pointcloudprocess/test/scannet/transform/transform.py:65-75 | When both inverses exist, N corners give N image points, point i being the projection of corner i alone. |
| Transform.IdentityProjection | pointcloudprocess/test/scannet/transform/transform.py:70-74 | With identity matrices and the intrinsic [I3 \| 0], a corner at non-zero depth lands at (x/z, y/z). |
| Transform.RecoversCameraFrame | pointcloudprocess/test/scannet/transform/transform.py:65-74 | A world point built from a camera-frame point through the pose and then the axis alignment is mapped back to that camera-frame point, and projected from it. |
| Transform.ZeroDepthIsNonFinite | pointcloudprocess/test/scannet/transform/transform.py:70-71 | A corner at zero camera depth gives the non-finite result of a division by zero. |
| CornerOrderings.CornerCorrespondence | pointcloudprocess/test/scannet/transform/transform.py:19-58 | With rotation 0 and the same six parameters, corner k of transform_boxes is corner ToVisualize[k] of eight_points. |
| CornerOrderings.SameVerticesWithoutRotation | pointcloudprocess/visualize/utils.py:25-32 | With rotation 0, transform_boxes and eight_points list the same eight vertices. Each list is a permutation of the other. |
| CornerOrderings.ReorderIsPermutation | pointcloudprocess/test/scannet/transform/transform.py:51-58 | Reordering eight corners into the transform ordering keeps the multiset of corners. |
| CornerOrderings.SwapsGiveReorder | pointcloudprocess/test/scannet/transform/transform.py:51-58 | Proof helper. The reordering is a composition of six transpositions. |
| CornerOrderings.Swap | pointcloudprocess/test/scannet/transform/transform.py:51-58 | Proof helper. A transposition keeps the length. |
| CornerOrderings.SwapKeepsMultiset | pointcloudprocess/test/scannet/transform/transform.py:51-58 | Proof helper. A transposition keeps the multiset. |
| CornerOrderings.AxisAlignedEdgeLength | pointcloudprocess/visualize/utils.py:25-32 | The unrotated corners joined by segment j are w, l or h apart, by the segment's kind. |
| CornerOrderings.EdgeSides | pointcloudprocess/visualize/utils.py:57-62 | Along segment j exactly one offset changes, by a full side of the box. |
| CornerOrderings.OffsetSqDist | pointcloudprocess/visualize/utils.py:25-32 | Proof helper. Two points given as offsets from a common centre are as far apart as the offsets. |
| CornerOrderings.VisualizeWireframeEdgeLengths | pointcloudprocess/visualize/utils.py:56-63 | Every segment create_lines draws for an eight_points box, rotated or not, has the length of a box side. |
| CornerOrderings.VisualizeWireframeAxisParallel | pointcloudprocess/visualize/utils.py:56-63 | For an unrotated box with no zero side, every segment differs in exactly one coordinate: it is parallel to an axis. |
| CornerOrderings.ProjectionWireframeAxisParallel | pointcloudprocess/test/scannet/transform/transform.py:19-58 | The same holds for transform_boxes corners passed to create_lines. |
| PtsVisualize.PointCloudScene.constructor | pointcloudprocess/visualize/pts_visualize.py:13-17 | A new scene holds the given points, no painted buffer and no boxes. |
| PtsVisualize.ColorListWellFormed | pointcloudprocess/visualize/pts_visualize.py:6-10 | Every palette entry is an RGB triple in 0..255, and 'grey' and 'gray' are one colour. |
| PtsVisualize.RgbColumns | pointcloudprocess/visualize/pts_visualize.py:26-28 | An accepted colour array gives one colour per point. |
| PtsVisualize.ScenePaint | pointcloudprocess/visualize/pts_visualize.py:23-31 | An accepted paint has points and fits their number of rows. |
| PtsVisualize.ScenePaintColumns | pointcloudprocess/visualize/pts_visualize.py:23-31 | An unknown colour name is refused even with with_rgb. With with_rgb, painted columns 3..5 are the point array's columns 3..5. Without it, every row gets the palette colour. Columns 0..2 are always the xyz. |
| PtsVisualize.Wireframes | pointcloudprocess/visualize/pts_visualize.py:48-51 | The box list's extension by create_lines for each corner set, in order: twelve segments per set. |
| PtsVisualize.WireframesLayout | pointcloudprocess/visualize/pts_visualize.py:48-51 | k corner sets give exactly 12k segments, all in the given colour. Set k's twelve are at 12k .. 12k+11, in create_lines order. |
| PtsVisualize.CenterBoxCorners | pointcloudprocess/visualize/pts_visualize.py:39-46 | A centre-form box yields eight corners. |
| PtsVisualize.CenterCornerSets | pointcloudprocess/visualize/pts_visualize.py:38-47 | One set of eight corners per box. |
| PtsVisualize.FullBoxes | pointcloudprocess/visualize/pts_visualize.py:55-58 | Counts the leading boxes with at least eight corners. |
| PtsVisualize.FullBoxesAt | pointcloudprocess/visualize/pts_visualize.py:55-58 | Proof helper. The count is i when the first i boxes are full and box i is short, or there is none. |
| PtsVisualize.PointCloudScene.InitScene | pointcloudprocess/visualize/pts_visualize.py:23-32 | Fails with the ScenePaint error (no points, unknown colour, a colour array that does not broadcast) and leaves the scene alone. Otherwise the scene is a fresh N x 6 buffer painted with the chosen colour. |
| PtsVisualize.PointCloudScene.AddBoxesByCenter | pointcloudprocess/visualize/pts_visualize.py:34-51 | Succeeds exactly when every box has at least six numbers. A short box adds nothing: all corners are computed first. Otherwise the boxes list grows by the wireframes of every box's eight_points corners, in order. The yaw is bbox[6], or 0 when absent. |
| PtsVisualize.PointCloudScene.AddBoxesByCorners | pointcloudprocess/visualize/pts_visualize.py:54-58 | Succeeds exactly when every box has at least eight corners. Either way the list grows by the wireframes of the boxes before the first short one. |
| PtsVisualize.SceneCheck | pointcloudprocess/visualize/pts_visualize.py:69-74 | The checks of create_scene, then init_scene's: passing needs a numpy array and a palette colour, and an array is never refused for missing points. |
| PtsVisualize.SceneCheckFailures | pointcloudprocess/visualize/pts_visualize.py:61-75 | After create_scene's own checks, the only failure left is an unknown colour. It succeeds exactly for an array with at least six columns when with_rgb is set, and a palette colour. |
| PtsVisualize.CreateScene | pointcloudprocess/visualize/pts_visualize.py:61-75 | Fails exactly as SceneCheck says: not an array, too few columns for with_rgb, then init_scene's errors. Otherwise the scene is fresh, holds the points, has no boxes, and is painted as init_scene paints. |
| PtsVisualize.ShowScene | pointcloudprocess/visualize/pts_visualize.py:97-104 | The outcome of create_scene's checks and painting. |
| PtsVisualize.AppendOutcome | pointcloudprocess/visualize/pts_visualize.py:86-91 | The format check, then the list-or-array check, then the add method's outcome; passing needs a valid format and a list or array. An empty list passes under either format. |
| PtsVisualize.AppendedSets | pointcloudprocess/visualize/pts_visualize.py:77-92 | The corner sets that get drawn all have at least eight corners. Centre-form boxes under 'center' that pass give the eight_points corners of every box. Corner-form boxes under 'corners' give the leading full sets: every box on success, the boxes before the first short one on TooFewCorners. After any other failure there are none. |
| PtsVisualize.AppendEmptyList | pointcloudprocess/visualize/pts_visualize.py:86-91 | An empty list of either form passes under either format and draws no box. |
| PtsVisualize.AppendBoxes | pointcloudprocess/visualize/pts_visualize.py:77-92 | Reports the format check, then the list-or-array check, then the add method's outcome. An empty list passes under either format and adds nothing. The scene's boxes grow by exactly the wireframes of AppendedSets. |
| PtsVisualize.ShowSceneByBoxes | pointcloudprocess/visualize/pts_visualize.py:106-114 | Scene errors come first, then append_boxes errors. On success the fresh scene holds the points, a fresh N x 6 buffer painted as init_scene paints it, and exactly the appended wireframes. |
| PtsVisualize.ShownBoxesLayout | pointcloudprocess/visualize/pts_visualize.py:77-92 | A scene that accepted its boxes holds twelve segments per box in the box colour. For corner-form boxes, segment 12k + j is edge j of box k. |
| PtsVisualize.UnknownKeywords | pointcloudprocess/visualize/utils.py:56 | The unknown keywords of a call are empty exactly when every keyword is `corners` or `color`. |
| PtsVisualize.BindCreateLines | pointcloudprocess/visualize/utils.py:56 | A call to create_lines binds exactly when every keyword is a parameter name and `corners` is given. |
| PtsVisualize.ExtendBoxes | pointcloudprocess/visualize/pts_visualize.py:48-51 | With keywords that do not bind, a non-empty list raises the binding error. With keywords that bind, it succeeds exactly when every set has at least eight corners, and otherwise raises IndexError. |
| PtsVisualize.ExtendAsWrittenRaises | pointcloudprocess/visualize/pts_visualize.py:51 | With the `cornors=` keyword as written, any non-empty list of boxes raises TypeError before a segment is added. |
| PtsVisualize.ExtendCorrected | pointcloudprocess/visualize/pts_visualize.py:48-51 | With `corners=`, the loop appends the wireframes of all boxes, in order. |
| PtsVisualize.WireframesCons | pointcloudprocess/visualize/pts_visualize.py:55-58 | Proof helper. The wireframes of a list are those of its first set followed by those of the rest. |
| PtsVisualize.IsInstance | pointcloudprocess/visualize/pts_visualize.py:87 | A list of types as classinfo is an error. A tuple of types gives membership. |
| PtsVisualize.IsInstanceAsWrittenRaises | pointcloudprocess/visualize/pts_visualize.py:87 | `isinstance(boxes, [list, np.ndarray])` raises TypeError whatever the boxes are. |
| PtsVisualize.IsInstanceCorrected | pointcloudprocess/visualize/pts_visualize.py:87 | The tuple form accepts exactly lists and arrays. |

## Left out

- Rendering is not modelled: `PointCloudScene.plot`, the module-level `plot`, the `scene.plot` calls in `show_scene`/`show_scene_by_boxes`, `PyntCloud` and the pandas DataFrame. The model stops at the painted buffer and the list of segments.
- The `dim` field of `PointCloudScene` is not modelled; nothing reads it.
- Floating point is not modelled: reals stand in for float64/float32, and the `astype(np.float32)` casts are not modelled.
- The inf and nan that a zero depth produces are collapsed into one `NonFinite` pixel. Near-zero depths are exact reals.
- `math.cos` and `math.sin` are a `(cos, sin)` pair with c² + s² = 1, or a caller-supplied function from angle to pair. No property of the actual trigonometric functions beyond that identity is used.
- `np.linalg.inv` is an optional inverse supplied by the caller. `None` stands for LinAlgError; a supplied inverse must be two-sided. Nothing ties `None` to a matrix that is singular over the reals: the floating-point LU factorisation behind `np.linalg.inv` can refuse a matrix that is invertible in exact arithmetic and can accept one that is not, so the model leaves that choice to the caller.
- Matrix shapes are fixed by the types: the axis alignment and the camera pose are 4 x 4 (`Mat4`) and the intrinsic matrix is 3 x 4 (`Intrinsic`). The source also accepts other shapes at the products: a 4 x 4 intrinsic gives the same image points, since only its first two rows are used, while an intrinsic with fewer than four columns, such as a 3 x 3 one, fails with a shape error at the product with the intrinsic matrix. Those shapes are not modelled.
- Ragged numpy inputs and dtype conversions are not modelled: point arrays are rectangular by type, and boxes are sequences of reals or of points.
- Point arrays always have at least three columns (xyz plus C further channels), so several arrays the source accepts or refuses cannot be expressed. These are: an N x 1 array, whose single column `paint_points` broadcasts into all three coordinates; N x 0 and N x 2 arrays, which fail with a broadcast ValueError in `paint_points` when init_scene runs; and a 1-D array, which fails with IndexError at the column slices of init_scene or at create_scene's column check.
- An empty 2-D corner array carries no column count in the model, so `box3d_to_2d` with 'corners' accepts it as zero corners and returns no image points. In the source an empty array whose width is not 3, such as a 0 x 4 array, fails at the product with the inverse axis alignment.
- Non-empty boxes of the other form than `format` names are reported as `FormMismatch`. In the source such boxes go on into the wrong add method. Under 'center', an eight-corner set given as a list fails with a TypeError when eight_points halves a side (a list divided by a number), and an eight-corner set given as an array fails with a ValueError at the test of the rotation against 0 (the truth value of a three-element array). Other sizes differ: a set of fewer than six corners fails with a ValueError when the centre or the size is unpacked, and an array set of exactly six corners has no seventh entry, so the bare `except` makes its rotation 0 and it draws segments built from the wrong values without any error. Under 'corners', centre-form boxes reach create_lines, which raises IndexError for fewer than eight numbers and otherwise builds segments from the numbers themselves. An empty list passes under either format, as in the source.
- The box argument of `box3d_to_2d` is always a numpy array in the model. Under 'corners' a Python list of triples fails in the source with an AttributeError when the homogeneous column is built from its shape, after the inverse axis alignment has been computed; the model projects it as it would the array. Under 'center' a list is no different, since transform_boxes returns an array.
- `box3d_to_2d` with 'center' and a 2-D array is reported as a wrong shape, or as too short when it has fewer than six rows. In the source the failure depends on the row shapes.
- Array corner sets and `tolist()` conversions are not modelled: corner sets are sequences of points.
- Default argument values (colour 'green', format 'corners' and so on) are not modelled; callers pass every argument.
- `setup.py` packaging is not part of this model.
- `transform_boxes` does not apply the yaw. The model keeps this as the source does, and `Transform.TransformBoxesIgnoresYaw` states it.
- PtsVisualize.PointCloudScene.AddBoxesByCenter: assumes create_lines is called with `corners=`. The as-written call fails, as recorded under Findings.
- PtsVisualize.PointCloudScene.AddBoxesByCorners: assumes create_lines is called with `corners=`. The as-written call fails, as recorded under Findings.
- PtsVisualize.AppendBoxes: uses the tuple form of the isinstance check. The as-written list form fails, as recorded under Findings.

## Findings

| source | as written | input that shows it | evidently intended | confidence | as-written member | corrected member |
|---|---|---|---|---|---|---|
| pointcloudprocess/visualize/pts_visualize.py:51 | `create_lines(cornors=corners, color=color)`, but the parameter is named `corners` | any list with one valid centre-form box, e.g. `[[0, 0, 0, 1, 1, 1]]` | `create_lines(corners=corners, color=color)`: twelve segments per box | not executed | PtsVisualize.ExtendAsWrittenRaises | PtsVisualize.PointCloudScene.AddBoxesByCenter |
| pointcloudprocess/visualize/pts_visualize.py:58 | the same `cornors=` keyword in add_boxes_by_corners | any list with one box of eight corners | the same call with `corners=` | not executed | PtsVisualize.ExtendAsWrittenRaises | PtsVisualize.PointCloudScene.AddBoxesByCorners |
| pointcloudprocess/visualize/pts_visualize.py:87 | `isinstance(boxes, [list, np.ndarray])`: a list is not a valid classinfo | any call with a valid format, e.g. `append_boxes(scene, [], 'corners')` | `isinstance(boxes, (list, np.ndarray))` | not executed | PtsVisualize.IsInstanceAsWrittenRaises | PtsVisualize.AppendBoxes |
