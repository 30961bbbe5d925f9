/** pointcloudprocess/visualize/pts_visualize.py: the named colour table, the PointCloudScene
    object that holds a painted point buffer and a growing list of box segments, and the
    module-level functions that validate their inputs and drive it. */
module PtsVisualize {
  import opened Wrappers
  import opened Geometry
  import opened VisualizeUtils

  // ---------------------------------------------------------------- COLOR_LIST

  /** A palette entry, in integer channels. */
  datatype Rgb255 = Rgb255(r: int, g: int, b: int)

  /** COLOR_LIST, with the original's spelling 'aque'. */
  const ColorList: map<string, Rgb255> := map[
    "red" := Rgb255(255, 0, 0), "green" := Rgb255(0, 255, 0), "blue" := Rgb255(0, 0, 255),
    "black" := Rgb255(0, 0, 0), "white" := Rgb255(255, 255, 255), "aque" := Rgb255(0, 255, 255),
    "yellow" := Rgb255(255, 255, 0), "orange" := Rgb255(255, 125, 0), "grey" := Rgb255(125, 125, 125),
    "gray" := Rgb255(125, 125, 125)]

  /** Every palette entry is an RGB triple in 0..255, and 'grey' and 'gray' are the same colour. */
  lemma ColorListWellFormed()
    ensures forall name | name in ColorList ::
      0 <= ColorList[name].r <= 255 && 0 <= ColorList[name].g <= 255 && 0 <= ColorList[name].b <= 255
    ensures "grey" in ColorList && "gray" in ColorList && ColorList["grey"] == ColorList["gray"]
  {
  }

  function ToRgb(c: Rgb255): Rgb
  {
    Rgb(c.r as real, c.g as real, c.b as real)
  }

  // ---------------------------------------------------------------- points and errors

  /** One row of an N x (3 + C) point array: x, y, z and C further channels. */
  datatype PointRow = PointRow(xyz: Point3, channels: seq<real>)

  datatype PointTable = PointTable(channels: nat, rows: seq<PointRow>)

  /** A rectangular point array: every row has the same number of extra channels. */
  type Points = t: PointTable | forall i | 0 <= i < |t.rows| :: |t.rows[i].channels| == t.channels
    witness PointTable(0, [])

  /** The `points` argument: a numpy array or anything else. */
  datatype PointsArg = NdArray(table: Points) | NotNdArray

  /** The exceptions and failed assertions of the original. */
  datatype SceneError =
    | PointsNotArray    // the points are not a numpy array (TypeError)
    | TooFewRgbColumns  // colours are asked for but there are fewer than six columns
    | NoPoints          // the scene was built without points
    | UnknownColor      // the colour name is not in the palette (KeyError)
    | ChannelBroadcast  // colours of 0 or 2 channels do not broadcast onto 3 columns
    | InvalidFormat     // the format is neither 'corners' nor 'center'
    | NotListOrArray    // the boxes are neither a list nor an array
    | BoxTooShort       // fewer than six numbers to unpack as centre and size
    | TooFewCorners     // create_lines indexes past the corners (IndexError)
    | FormMismatch      // non-empty boxes of the other form than the one `format` names

  /** The first three columns of the point array. */
  function Xyz(t: Points): seq<Point3>
  {
    seq(|t.rows|, i requires 0 <= i < |t.rows| => t.rows[i].xyz)
  }

  /** Columns 3..5 of the point array broadcast onto the three colour columns: three or more channels give
      channels 0..2, a single channel is repeated, and 0 or 2 channels cannot be broadcast. */
  function RgbColumns(t: Points): (r: Result<Paint, SceneError>)
    ensures r.Ok? ==> FitsRows(r.value, |t.rows|)
  {
    if t.channels >= 3 then
      Ok(PerPoint(seq(|t.rows|, i requires 0 <= i < |t.rows| =>
        Rgb(t.rows[i].channels[0], t.rows[i].channels[1], t.rows[i].channels[2]))))
    else if t.channels == 1 then
      Ok(PerPoint(seq(|t.rows|, i requires 0 <= i < |t.rows| =>
        Rgb(t.rows[i].channels[0], t.rows[i].channels[0], t.rows[i].channels[0]))))
    else Err(ChannelBroadcast)
  }

  /** The colour init_scene paints with, or why it fails. The palette is consulted first, so an
      unknown colour name fails even when the colours come from the points. */
  function ScenePaint(points: Option<Points>, pointColor: string, withRgb: bool): (r: Result<Paint, SceneError>)
    ensures r.Ok? ==> points.Some? && FitsRows(r.value, |points.value.rows|)
  {
    if points.None? then Err(NoPoints)
    else if pointColor !in ColorList then Err(UnknownColor)
    else if withRgb then RgbColumns(points.value)
    else Ok(Uniform(ToRgb(ColorList[pointColor])))
  }

  /** With with_rgb and at least three extra channels the painted colour columns are the point
      array's columns 3..5; without it every row gets the palette colour; an unknown name is
      refused either way. */
  lemma ScenePaintColumns(t: Points, pointColor: string, withRgb: bool, i: nat, k: nat)
    requires i < |t.rows| && k < 3
    ensures var paint := ScenePaint(Some(t), pointColor, withRgb);
      && (pointColor !in ColorList ==> paint == Err(UnknownColor))
      && (pointColor in ColorList && withRgb && t.channels >= 3 ==>
            paint.Ok? && PaintedAt(Xyz(t), paint.value, i, 3 + k) == t.rows[i].channels[k])
      && (pointColor in ColorList && !withRgb ==>
            paint.Ok? && PaintedAt(Xyz(t), paint.value, i, 3 + k) == Channel(ToRgb(ColorList[pointColor]), k))
      && (paint.Ok? ==> forall c | 0 <= c < 3 :: PaintedAt(Xyz(t), paint.value, i, c) == Coord(t.rows[i].xyz, c))
  {
  }

  // ---------------------------------------------------------------- box lists

  /** create_lines over a list of corner sets, concatenated in order. */
  function Wireframes(sets: seq<seq<Point3>>, color: string): (r: seq<Segment>)
    requires forall k | 0 <= k < |sets| :: |sets[k]| >= 8
    ensures |r| == 12 * |sets|
  {
    if sets == [] then []
    else Wireframes(sets[..|sets| - 1], color) + Wireframe(sets[|sets| - 1], color)
  }

  /** k corner sets give exactly 12 k segments, set k's twelve at 12 k .. 12 k + 11, all in
      the given colour. */
  lemma {:induction false} WireframesLayout(sets: seq<seq<Point3>>, color: string)
    requires forall k | 0 <= k < |sets| :: |sets[k]| >= 8
    ensures |Wireframes(sets, color)| == 12 * |sets|
    ensures forall k, j | 0 <= k < |sets| && 0 <= j < 12 :: Wireframes(sets, color)[12 * k + j] == Wireframe(sets[k], color)[j]
    ensures forall m | 0 <= m < |Wireframes(sets, color)| :: Wireframes(sets, color)[m].color == color
  {
    if sets != [] {
      var init := sets[..|sets| - 1];
      WireframesLayout(init, color);
      var w := Wireframes(sets, color);
      assert w == Wireframes(init, color) + Wireframe(sets[|sets| - 1], color);
      forall k, j | 0 <= k < |sets| && 0 <= j < 12 ensures w[12 * k + j] == Wireframe(sets[k], color)[j] {
        if k < |init| {
          assert sets[k] == init[k];
        }
      }
    }
  }

  /** A box of the centre form has at least six numbers. */
  predicate AllCenterForm(boxes: seq<seq<real>>)
  {
    forall k | 0 <= k < |boxes| :: |boxes[k]| >= 6
  }

  /** bbox[6] when the box has a seventh number, 0 otherwise. */
  function BoxRotation(bbox: seq<real>): real
  {
    if |bbox| > 6 then bbox[6] else 0.0
  }

  /** eight_points of the box's first three numbers as centre, the next three as size, and its
      rotation; `trig` gives (cos, sin) of an angle. */
  function CenterBoxCorners(bbox: seq<real>, trig: real -> UnitPair): (r: seq<Point3>)
    requires |bbox| >= 6
    ensures |r| == 8
  {
    var rotation := BoxRotation(bbox);
    EightPoints(Point3(bbox[0], bbox[1], bbox[2]), Size(bbox[3], bbox[4], bbox[5]), rotation, trig(rotation))
  }

  function CenterCornerSets(boxes: seq<seq<real>>, trig: real -> UnitPair): (r: seq<seq<Point3>>)
    requires AllCenterForm(boxes)
    ensures |r| == |boxes| && forall k | 0 <= k < |r| :: |r[k]| == 8
  {
    seq(|boxes|, k requires 0 <= k < |boxes| => CenterBoxCorners(boxes[k], trig))
  }

  /** The number of leading boxes that have at least eight corners. */
  function FullBoxes(boxes: seq<seq<Point3>>): (n: nat)
    ensures n <= |boxes|
    ensures forall k | 0 <= k < n :: |boxes[k]| >= 8
  {
    if boxes == [] || |boxes[0]| < 8 then 0 else 1 + FullBoxes(boxes[1..])
  }

  lemma {:induction false} FullBoxesAt(boxes: seq<seq<Point3>>, i: nat)
    requires i <= |boxes| && forall k | 0 <= k < i :: |boxes[k]| >= 8
    requires i == |boxes| || |boxes[i]| < 8
    ensures FullBoxes(boxes) == i
  {
    if i > 0 {
      FullBoxesAt(boxes[1..], i - 1);
    }
  }

  // ---------------------------------------------------------------- PointCloudScene

  class PointCloudScene {
    var points: Option<Points>
    /** The painted N x 6 buffer handed to the renderer; null until init_scene. */
    var scene: array2?<real>
    /** The line records of every box added so far. */
    var boxes: seq<Segment>

    constructor (points: Option<Points>)
      ensures this.points == points && scene == null && boxes == []
    {
      this.points := points;
      scene := null;
      boxes := [];
    }

    /** init_scene: paints the xyz columns of the points with the colour ScenePaint chooses. */
    method InitScene(pointColor: string, withRgb: bool) returns (r: Outcome<SceneError>)
      modifies this`scene
      ensures r.Fail? <==> ScenePaint(points, pointColor, withRgb).Err?
      ensures r.Fail? ==> r.error == ScenePaint(points, pointColor, withRgb).error && scene == old(scene)
      ensures r.Pass? ==> var paint := ScenePaint(points, pointColor, withRgb).value;
        var xyz := Xyz(points.value);
        && scene != null && fresh(scene) && scene.Length0 == |xyz| && scene.Length1 == 6
        && forall i, j | 0 <= i < |xyz| && 0 <= j < 6 :: scene[i, j] == PaintedAt(xyz, paint, i, j)
    {
      var paint := ScenePaint(points, pointColor, withRgb);
      if paint.Err? {
        return Fail(paint.error);
      }
      var painted := PaintPoints(Xyz(points.value), paint.value);
      scene := painted;
      r := Pass;
    }

    /** add_boxes_by_center: the corners of every box are computed first, so a box with fewer
        than six numbers fails before any segment is added; then each box's twelve segments
        are appended in order. */
    method AddBoxesByCenter(boxes: seq<seq<real>>, color: string, trig: real -> UnitPair) returns (r: Outcome<SceneError>)
      modifies this`boxes
      ensures r.Pass? <==> AllCenterForm(boxes)
      ensures r.Fail? ==> r.error == BoxTooShort && this.boxes == old(this.boxes)
      ensures r.Pass? ==> this.boxes == old(this.boxes) + Wireframes(CenterCornerSets(boxes, trig), color)
    {
      var pcCorners: seq<seq<Point3>> := [];
      for i := 0 to |boxes|
        invariant |pcCorners| == i
        invariant forall k | 0 <= k < i :: |boxes[k]| >= 6 && pcCorners[k] == CenterBoxCorners(boxes[k], trig)
      {
        var bbox := boxes[i];
        if |bbox| < 6 {
          return Fail(BoxTooShort);
        }
        var center := Point3(bbox[0], bbox[1], bbox[2]);
        var size := Size(bbox[3], bbox[4], bbox[5]);
        var rotation := if |bbox| > 6 then bbox[6] else 0.0;
        pcCorners := pcCorners + [EightPoints(center, size, rotation, trig(rotation))];
      }
      assert pcCorners == CenterCornerSets(boxes, trig);
      for i := 0 to |pcCorners|
        invariant this.boxes == old(this.boxes) + Wireframes(pcCorners[..i], color)
      {
        var lines := CreateLines(pcCorners[i], color);
        assert pcCorners[..i + 1][..i] == pcCorners[..i];
        this.boxes := this.boxes + lines.value;
      }
      assert pcCorners[..|pcCorners|] == pcCorners;
      r := Pass;
    }

    /** add_boxes_by_corners: each box's twelve segments are appended as soon as they are made,
        so a box with fewer than eight corners fails after the boxes before it were added. */
    method AddBoxesByCorners(boxes: seq<seq<Point3>>, color: string) returns (r: Outcome<SceneError>)
      modifies this`boxes
      ensures r.Pass? <==> FullBoxes(boxes) == |boxes|
      ensures r.Fail? ==> r.error == SceneError.TooFewCorners
      ensures this.boxes == old(this.boxes) + Wireframes(boxes[..FullBoxes(boxes)], color)
    {
      for i := 0 to |boxes|
        invariant forall k | 0 <= k < i :: |boxes[k]| >= 8
        invariant this.boxes == old(this.boxes) + Wireframes(boxes[..i], color)
      {
        var lines := CreateLines(boxes[i], color);
        if lines.Err? {
          FullBoxesAt(boxes, i);
          return Fail(SceneError.TooFewCorners);
        }
        assert boxes[..i + 1][..i] == boxes[..i];
        this.boxes := this.boxes + lines.value;
      }
      FullBoxesAt(boxes, |boxes|);
      assert boxes[..|boxes|] == boxes;
      r := Pass;
    }
  }

  // ---------------------------------------------------------------- module functions

  /** The checks of create_scene and show_scene, in order, and then init_scene's. */
  function SceneCheck(points: PointsArg, color: string, withRgb: bool): (r: Outcome<SceneError>)
    ensures r.Pass? ==> points.NdArray? && color in ColorList
    ensures r.Fail? && points.NdArray? ==> r.error != NoPoints && r.error != PointsNotArray
  {
    if points.NotNdArray? then Fail(PointsNotArray)
    else if withRgb && 3 + points.table.channels < 6 then Fail(TooFewRgbColumns)
    else match ScenePaint(Some(points.table), color, withRgb)
      case Err(e) => Fail(e)
      case Ok(_) => Pass
  }

  /** Once create_scene's checks pass, init_scene can only fail on an unknown colour name; with
      with_rgb the points always carry the three colour channels. */
  lemma SceneCheckFailures(points: PointsArg, color: string, withRgb: bool)
    ensures SceneCheck(points, color, withRgb).Fail? ==>
      SceneCheck(points, color, withRgb).error in {PointsNotArray, TooFewRgbColumns, UnknownColor}
    ensures SceneCheck(points, color, withRgb).Pass? <==>
      points.NdArray? && (withRgb ==> points.table.channels >= 3) && color in ColorList
  {
  }

  /** create_scene: checks the points, builds the scene and paints it. */
  method CreateScene(points: PointsArg, color: string, withRgb: bool) returns (r: Result<PointCloudScene, SceneError>)
    ensures r.Err? <==> SceneCheck(points, color, withRgb).Fail?
    ensures r.Err? ==> r.error == SceneCheck(points, color, withRgb).error
    ensures r.Ok? ==> var s := r.value;
      && fresh(s) && s.points == Some(points.table) && s.boxes == []
      && s.scene != null && fresh(s.scene)
      && s.scene.Length0 == |points.table.rows| && s.scene.Length1 == 6
      && forall i, j | 0 <= i < |points.table.rows| && 0 <= j < 6 ::
           s.scene[i, j] == PaintedAt(Xyz(points.table), ScenePaint(Some(points.table), color, withRgb).value, i, j)
  {
    if points.NotNdArray? {
      return Err(PointsNotArray);
    }
    if withRgb && 3 + points.table.channels < 6 {
      return Err(TooFewRgbColumns);
    }
    var scene := new PointCloudScene(Some(points.table));
    var init := scene.InitScene(color, withRgb);
    if init.Fail? {
      return Err(init.error);
    }
    r := Ok(scene);
  }

  /** show_scene: the checks and painting of create_scene; the plot itself is not modelled. */
  method ShowScene(points: PointsArg, color: string, withRgb: bool) returns (r: Outcome<SceneError>)
    ensures r == SceneCheck(points, color, withRgb)
  {
    var scene := CreateScene(points, color, withRgb);
    r := if scene.Err? then Fail(scene.error) else Pass;
  }

  /** The Python type of the `boxes` argument. */
  datatype Container = PyList | PyNdArray | PyOther

  /** The boxes themselves: corner sets, or centre-form parameter lists. */
  datatype BoxPayload = CornerBoxes(sets: seq<seq<Point3>>) | CenterBoxes(params: seq<seq<real>>)

  datatype BoxesArg = BoxesArg(container: Container, payload: BoxPayload)

  /** What append_boxes reports: the format check, then the container check, then the outcome
      of add_boxes_by_corners or add_boxes_by_center. */
  function AppendOutcome(boxes: BoxesArg, format: string): (r: Outcome<SceneError>)
    ensures r.Pass? ==> (format == "corners" || format == "center") && (boxes.container == PyList || boxes.container == PyNdArray)
  {
    if format != "corners" && format != "center" then Fail(InvalidFormat)
    else if IsInstance(boxes.container, ListOrArray) != Ok(true) then Fail(NotListOrArray)
    else match boxes.payload
      case CornerBoxes(sets) =>
        // an empty list is a valid list of boxes of either form
        if format != "corners" then (if sets == [] then Pass else Fail(FormMismatch))
        else if FullBoxes(sets) == |sets| then Pass else Fail(SceneError.TooFewCorners)
      case CenterBoxes(params) =>
        if format != "center" then (if params == [] then Pass else Fail(FormMismatch))
        else if AllCenterForm(params) then Pass else Fail(BoxTooShort)
  }

  /** The corner sets whose segments append_boxes adds to the scene: none when a check fails,
      every box of the centre form or none of them, and the leading full corner sets. */
  function AppendedSets(boxes: BoxesArg, format: string, trig: real -> UnitPair): (r: seq<seq<Point3>>)
    ensures forall k | 0 <= k < |r| :: |r[k]| >= 8
    ensures AppendOutcome(boxes, format).Pass? && boxes.payload.CornerBoxes? ==> r == boxes.payload.sets
    ensures AppendOutcome(boxes, format).Pass? && boxes.payload.CenterBoxes? && format == "center" ==>
      r == CenterCornerSets(boxes.payload.params, trig)
    ensures format == "corners" && IsInstance(boxes.container, ListOrArray) == Ok(true) && boxes.payload.CornerBoxes? ==>
      r == boxes.payload.sets[..FullBoxes(boxes.payload.sets)]
    ensures (AppendOutcome(boxes, format).Fail? && AppendOutcome(boxes, format).error != SceneError.TooFewCorners) ==> r == []
  {
    if format != "corners" && format != "center" then []
    else if IsInstance(boxes.container, ListOrArray) != Ok(true) then []
    else match boxes.payload
      case CornerBoxes(sets) =>
        if format != "corners" then []
        else
          assert FullBoxes(sets) == |sets| ==> sets[..FullBoxes(sets)] == sets;
          sets[..FullBoxes(sets)]
      case CenterBoxes(params) =>
        if format != "center" || !AllCenterForm(params) then [] else CenterCornerSets(params, trig)
  }

  /** An empty list, of either form, passes append_boxes under either format and draws nothing,
      as the loops of both add methods run zero times. */
  lemma AppendEmptyList(boxes: BoxesArg, format: string, trig: real -> UnitPair)
    requires format == "corners" || format == "center"
    requires boxes.container == PyList || boxes.container == PyNdArray
    requires boxes.payload == CornerBoxes([]) || boxes.payload == CenterBoxes([])
    ensures AppendOutcome(boxes, format) == Pass
    ensures AppendedSets(boxes, format, trig) == []
  {
  }

  /** append_boxes: checks the format, then that the boxes are a list or an array, then hands
      them to add_boxes_by_corners or add_boxes_by_center. */
  method AppendBoxes(scene: PointCloudScene, boxes: BoxesArg, format: string, color: string, trig: real -> UnitPair)
    returns (r: Outcome<SceneError>)
    modifies scene`boxes
    ensures r == AppendOutcome(boxes, format)
    ensures scene.boxes == old(scene.boxes) + Wireframes(AppendedSets(boxes, format, trig), color)
  {
    if format != "corners" && format != "center" {
      return Fail(InvalidFormat);
    }
    if IsInstance(boxes.container, ListOrArray) != Ok(true) {
      return Fail(NotListOrArray);
    }
    if format == "corners" {
      match boxes.payload
      case CornerBoxes(sets) => r := scene.AddBoxesByCorners(sets, color);
      case CenterBoxes(params) => r := if params == [] then Pass else Fail(FormMismatch);
    } else {
      match boxes.payload
      case CenterBoxes(params) => r := scene.AddBoxesByCenter(params, color, trig);
      case CornerBoxes(sets) => r := if sets == [] then Pass else Fail(FormMismatch);
    }
  }

  /** show_scene_by_boxes: create_scene's checks and painting, then append_boxes; the plot
      itself is not modelled. */
  method ShowSceneByBoxes(points: PointsArg, boxes: BoxesArg, pointsColor: string, withRgb: bool,
                          boxColor: string, format: string, trig: real -> UnitPair)
    returns (r: Result<PointCloudScene, SceneError>)
    ensures SceneCheck(points, pointsColor, withRgb).Fail? ==> r == Err(SceneCheck(points, pointsColor, withRgb).error)
    ensures SceneCheck(points, pointsColor, withRgb).Pass? && AppendOutcome(boxes, format).Fail?
      ==> r == Err(AppendOutcome(boxes, format).error)
    ensures r.Ok? <==> SceneCheck(points, pointsColor, withRgb).Pass? && AppendOutcome(boxes, format).Pass?
    ensures r.Ok? ==> fresh(r.value) && r.value.boxes == Wireframes(AppendedSets(boxes, format, trig), boxColor)
    ensures r.Ok? ==> var s := r.value;
      && s.points == Some(points.table)
      && s.scene != null && fresh(s.scene)
      && s.scene.Length0 == |points.table.rows| && s.scene.Length1 == 6
      && forall i, j | 0 <= i < |points.table.rows| && 0 <= j < 6 ::
           s.scene[i, j] == PaintedAt(Xyz(points.table), ScenePaint(Some(points.table), pointsColor, withRgb).value, i, j)
  {
    var created := CreateScene(points, pointsColor, withRgb);
    if created.Err? {
      return Err(created.error);
    }
    var scene := created.value;
    var appended := AppendBoxes(scene, boxes, format, boxColor, trig);
    if appended.Fail? {
      return Err(appended.error);
    }
    r := Ok(scene);
  }

  /** A scene shown with boxes holds twelve segments per box in the box colour, and for boxes
      given by their corners, segment 12 k + j is edge j of box k. */
  lemma ShownBoxesLayout(boxes: BoxesArg, format: string, color: string, trig: real -> UnitPair)
    requires AppendOutcome(boxes, format).Pass?
    ensures boxes.payload.CornerBoxes? ==>
      |Wireframes(AppendedSets(boxes, format, trig), color)| == 12 * |boxes.payload.sets|
    ensures boxes.payload.CornerBoxes? ==>
      forall k, j | 0 <= k < |boxes.payload.sets| && 0 <= j < 12 ::
        Wireframes(AppendedSets(boxes, format, trig), color)[12 * k + j] == Wireframe(boxes.payload.sets[k], color)[j]
    ensures boxes.payload.CenterBoxes? ==>
      |Wireframes(AppendedSets(boxes, format, trig), color)| == 12 * |boxes.payload.params|
    ensures forall m | 0 <= m < |Wireframes(AppendedSets(boxes, format, trig), color)| ::
      Wireframes(AppendedSets(boxes, format, trig), color)[m].color == color
  {
    WireframesLayout(AppendedSets(boxes, format, trig), color);
  }

  // ---------------------------------------------------------------- the two call defects

  /** How Python matches the keyword arguments of a call to create_lines(corners, color="yellow"):
      an unknown keyword is refused first, then a missing `corners`. */
  datatype CallError = UnexpectedKeyword(name: string) | MissingArgument(name: string) | ClassInfoNotTypes | IndexOutOfRange

  /** The keywords of a call that create_lines does not have, in call order. */
  function UnknownKeywords(keywords: seq<string>): (r: seq<string>)
    ensures r == [] <==> forall k | 0 <= k < |keywords| :: keywords[k] in {"corners", "color"}
    ensures r != [] ==> r[0] in keywords && r[0] !in {"corners", "color"}
  {
    if keywords == [] then []
    else if keywords[0] in {"corners", "color"} then UnknownKeywords(keywords[1..])
    else [keywords[0]] + UnknownKeywords(keywords[1..])
  }

  function BindCreateLines(keywords: seq<string>): (r: Outcome<CallError>)
    ensures r.Pass? <==> (forall k | 0 <= k < |keywords| :: keywords[k] in {"corners", "color"}) && "corners" in keywords
  {
    var unknown := UnknownKeywords(keywords);
    if unknown != [] then Fail(UnexpectedKeyword(unknown[0]))
    else if "corners" !in keywords then Fail(MissingArgument("corners"))
    else Pass
  }

  /** The extension loop shared by add_boxes_by_center and add_boxes_by_corners: for each corner
      set, the box list is extended by a call to create_lines with the given keywords. A call
      that does not bind raises TypeError; one that binds raises IndexError on a short set. */
  function ExtendBoxes(existing: seq<Segment>, sets: seq<seq<Point3>>, color: string, keywords: seq<string>)
    : (r: Result<seq<Segment>, CallError>)
    ensures sets != [] && BindCreateLines(keywords).Fail? ==> r == Err(BindCreateLines(keywords).error)
    ensures BindCreateLines(keywords).Pass? ==> (r.Ok? <==> FullBoxes(sets) == |sets|)
    ensures BindCreateLines(keywords).Pass? && r.Err? ==> r.error == IndexOutOfRange
    decreases |sets|
  {
    if sets == [] then Ok(existing)
    else match BindCreateLines(keywords)
      case Fail(e) => Err(e)
      case Pass =>
        if |sets[0]| < 8 then Err(IndexOutOfRange)
        else ExtendBoxes(existing + Wireframe(sets[0], color), sets[1..], color, keywords)
  }

  /** As written, the call passes `cornors=`: every box list that is not empty makes the loop
      raise TypeError before a single segment is added. */
  lemma ExtendAsWrittenRaises(existing: seq<Segment>, sets: seq<seq<Point3>>, color: string)
    requires sets != []
    ensures ExtendBoxes(existing, sets, color, ["cornors", "color"]) == Err(UnexpectedKeyword("cornors"))
  {
  }

  /** With `corners=` the call binds, and the loop appends the twelve segments of every box. */
  lemma {:induction false} ExtendCorrected(existing: seq<Segment>, sets: seq<seq<Point3>>, color: string)
    requires forall k | 0 <= k < |sets| :: |sets[k]| >= 8
    ensures ExtendBoxes(existing, sets, color, ["corners", "color"]) == Ok(existing + Wireframes(sets, color))
    decreases |sets|
  {
    if sets != [] {
      var keywords := ["corners", "color"];
      assert keywords[0] in {"corners", "color"} && keywords[1] in {"corners", "color"};
      assert BindCreateLines(keywords) == Pass;
      var rest := sets[1..];
      var next := existing + Wireframe(sets[0], color);
      assert ExtendBoxes(existing, sets, color, keywords) == ExtendBoxes(next, rest, color, keywords);
      ExtendCorrected(next, rest, color);
      WireframesCons(sets, color);
      assert next + Wireframes(rest, color) == existing + Wireframes(sets, color);
    } else {
      assert existing + Wireframes(sets, color) == existing;
    }
  }

  /** Wireframes split after the first corner set. */
  lemma {:induction false} WireframesCons(sets: seq<seq<Point3>>, color: string)
    requires sets != [] && forall k | 0 <= k < |sets| :: |sets[k]| >= 8
    ensures Wireframes(sets, color) == Wireframe(sets[0], color) + Wireframes(sets[1..], color)
  {
    if |sets| > 1 {
      var init, tail := sets[..|sets| - 1], sets[1..];
      WireframesCons(init, color);
      assert tail[..|tail| - 1] == init[1..];
      assert tail[|tail| - 1] == sets[|sets| - 1];
      assert init[0] == sets[0];
      assert Wireframes(tail, color) == Wireframes(init[1..], color) + Wireframe(sets[|sets| - 1], color);
    } else {
      assert sets[1..] == [];
      assert sets[..0] == [];
    }
  }

  /** isinstance(x, classinfo): classinfo must be a type or a tuple of types; anything else,
      such as a list of types, raises TypeError. */
  datatype ClassInfo = OneType(t: Container) | TupleOfTypes(ts: seq<Container>) | ListOfTypes(ts: seq<Container>)

  function IsInstance(x: Container, info: ClassInfo): (r: Result<bool, CallError>)
    ensures info.ListOfTypes? <==> r.Err?
    ensures info.TupleOfTypes? ==> r == Ok(x in info.ts)
  {
    match info
    case OneType(t) => Ok(x == t)
    case TupleOfTypes(ts) => Ok(x in ts)
    case ListOfTypes(_) => Err(ClassInfoNotTypes)
  }

  /** The intended classinfo: the tuple of the list and array types. */
  const ListOrArray: ClassInfo := TupleOfTypes([PyList, PyNdArray])

  /** As written, append_boxes passes a list of the two types: whatever the boxes are, every call with
      a valid format raises TypeError at the check. */
  lemma IsInstanceAsWrittenRaises(x: Container)
    ensures IsInstance(x, ListOfTypes([PyList, PyNdArray])) == Err(ClassInfoNotTypes)
  {
  }

  /** The intended check accepts exactly lists and arrays. */
  lemma IsInstanceCorrected(x: Container)
    ensures IsInstance(x, ListOrArray) == Ok(x == PyList || x == PyNdArray)
  {
  }
}
