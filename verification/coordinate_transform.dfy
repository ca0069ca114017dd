/** `CoordinateTransform`: image pixels to robot-table coordinates through a
    3×3 homography H. How H is solved from four point pairs is not modelled;
    the solver is an oracle that raises, returns no matrix, or returns H. */
module CoordinateTransform {
  import opened Wrappers

  datatype Point = Point(x: real, y: real)

  /** A homography, row by row. */
  datatype Mat3 = Mat3(m00: real, m01: real, m02: real,
                       m10: real, m11: real, m12: real,
                       m20: real, m21: real, m22: real)

  /** One matrix row (a, b, c) applied to the homogeneous point (x, y, 1). */
  function Row(a: real, b: real, c: real, x: real, y: real): real
  {
    a * x + b * y + c
  }

  /** The homogeneous coordinate of the image of (x, y). */
  function W(h: Mat3, x: real, y: real): real
  {
    Row(h.m20, h.m21, h.m22, x, y)
  }

  /** The first and second coordinates of the image before the division. */
  function NX(h: Mat3, x: real, y: real): real
  {
    Row(h.m00, h.m01, h.m02, x, y)
  }

  function NY(h: Mat3, x: real, y: real): real
  {
    Row(h.m10, h.m11, h.m12, x, y)
  }

  /** `FLT_EPSILON`, 2^-23: OpenCV's cut-off for a vanishing homogeneous
      coordinate on single-precision points. */
  const FltEpsilon: real := 0.00000011920928955078125

  /** `fabs(w) > FLT_EPSILON` fails. */
  predicate Vanishes(w: real)
  {
    -FltEpsilon <= w <= FltEpsilon
  }

  /** `cv2.perspectiveTransform` on one point: multiply by H and divide by the
      homogeneous coordinate; a homogeneous coordinate within `FLT_EPSILON`
      of zero yields the origin. */
  function Apply(h: Mat3, x: real, y: real): (p: Point)
    ensures !Vanishes(W(h, x, y)) ==> p.x * W(h, x, y) == NX(h, x, y) && p.y * W(h, x, y) == NY(h, x, y)
    ensures Vanishes(W(h, x, y)) ==> p == Point(0.0, 0.0)
  {
    var w := W(h, x, y);
    if Vanishes(w) then Point(0.0, 0.0) else Point(NX(h, x, y) / w, NY(h, x, y) / w)
  }

  function Scale(h: Mat3, k: real): Mat3
  {
    Mat3(k * h.m00, k * h.m01, k * h.m02, k * h.m10, k * h.m11, k * h.m12, k * h.m20, k * h.m21, k * h.m22)
  }

  lemma ScaleLinear(k: real, a: real, b: real, c: real, x: real, y: real)
    ensures Row(k * a, k * b, k * c, x, y) == k * Row(a, b, c, x, y)
  {
    assert (k * a) * x == k * (a * x);
    assert (k * b) * y == k * (b * y);
  }

  lemma ScaleQuotient(k: real, n: real, w: real)
    requires k != 0.0 && w != 0.0
    ensures (k * n) / (k * w) == n / w
  {
    var q := n / w;
    assert q * w == n;
    assert q * (k * w) == k * n by {
      assert q * (k * w) == k * (q * w);
    }
  }

  /** Scaling H scales each of the three forms it applies to (x, y). */
  lemma FormsScale(h: Mat3, k: real, x: real, y: real)
    ensures W(Scale(h, k), x, y) == k * W(h, x, y)
    ensures NX(Scale(h, k), x, y) == k * NX(h, x, y)
    ensures NY(Scale(h, k), x, y) == k * NY(h, x, y)
  {
    WScale(h, k, x, y);
    NXScale(h, k, x, y);
    NYScale(h, k, x, y);
  }

  lemma WScale(h: Mat3, k: real, x: real, y: real)
    ensures W(Scale(h, k), x, y) == k * W(h, x, y)
  {
    ScaleLinear(k, h.m20, h.m21, h.m22, x, y);
  }

  lemma NXScale(h: Mat3, k: real, x: real, y: real)
    ensures NX(Scale(h, k), x, y) == k * NX(h, x, y)
  {
    ScaleLinear(k, h.m00, h.m01, h.m02, x, y);
  }

  lemma NYScale(h: Mat3, k: real, x: real, y: real)
    ensures NY(Scale(h, k), x, y) == k * NY(h, x, y)
  {
    ScaleLinear(k, h.m10, h.m11, h.m12, x, y);
  }

  /** A homography is only defined up to a non-zero factor: scaling H does not
      move an image point, as long as the scaling leaves its homogeneous
      coordinate on the same side of the `FLT_EPSILON` cut-off. */
  lemma ApplyScaleInvariant(h: Mat3, k: real, x: real, y: real)
    requires k != 0.0
    ensures Vanishes(W(Scale(h, k), x, y)) == Vanishes(W(h, x, y)) ==> Apply(Scale(h, k), x, y) == Apply(h, x, y)
  {
    var s := Scale(h, k);
    var w := W(h, x, y);
    FormsScale(h, k, x, y);
    if !Vanishes(w) && !Vanishes(W(s, x, y)) {
      QuotientsAgree(k, NX(h, x, y), w, NX(s, x, y), W(s, x, y));
      QuotientsAgree(k, NY(h, x, y), w, NY(s, x, y), W(s, x, y));
    }
  }

  /** The cut-off is not scale invariant: scaling the identity by 10^-8
      sends every point to the origin. */
  lemma ScaleCrossesCutoff()
    ensures Apply(Identity, 5.0, 7.0) == Point(5.0, 7.0)
    ensures Apply(Scale(Identity, 0.00000001), 5.0, 7.0) == Point(0.0, 0.0)
  {
  }

  lemma QuotientsAgree(k: real, n: real, w: real, n': real, w': real)
    requires k != 0.0 && w != 0.0 && n' == k * n && w' == k * w
    ensures w' != 0.0 && n' / w' == n / w
  {
    ScaleQuotient(k, n, w);
  }

  const Identity := Mat3(1.0, 0.0, 0.0, 0.0, 1.0, 0.0, 0.0, 0.0, 1.0)

  lemma ApplyIdentity(x: real, y: real)
    ensures Apply(Identity, x, y) == Point(x, y)
  {
  }

  /** The default corner correspondences: the 640×480 image corners and the
      table points they were measured at. */
  const DefaultCameraPoints := [Point(0.0, 0.0), Point(640.0, 0.0), Point(640.0, 480.0), Point(0.0, 480.0)]
  const DefaultRobotPoints := [Point(91.3, -99.5), Point(88.4, 35.5), Point(205.7, 40.9), Point(211.5, -120.2)]

  /** What `cv2.findHomography` does for a calibration: it raises, or returns
      a matrix or None. */
  datatype Solution = SolverRaises | Solved(h: Option<Mat3>)

  datatype Transformer = Transformer(cameraPoints: seq<Point>, robotPoints: seq<Point>, h: Option<Mat3>, center: Point)

  /** `convert_coordinate`: transforming with no matrix raises. */
  function ConvertCoordinate(t: Transformer, x: real, y: real): (r: Result<Point>)
    ensures r.Success? <==> t.h.Some?
    ensures r.Success? ==> r.value == Apply(t.h.value, x, y)
  {
    match t.h
    case None => Failure("no homography")
    case Some(h) => Success(Apply(h, x, y))
  }

  /** `CoordinateTransform.__init__`: the defaults stand in for missing point
      lists, and the image centre (320, 240) is converted once H is known. */
  function NewTransformer(cameraPoints: Option<seq<Point>>, robotPoints: Option<seq<Point>>, solve: Solution): (r: Result<Transformer>)
    ensures r.Success? <==> solve.Solved? && solve.h.Some?
    ensures r.Success? ==> r.value.cameraPoints == cameraPoints.GetOr(DefaultCameraPoints)
                           && r.value.robotPoints == robotPoints.GetOr(DefaultRobotPoints)
                           && r.value.h == solve.h
                           && r.value.center == Apply(solve.h.value, 320.0, 240.0)
  {
    if solve.SolverRaises? || solve.h.None? then Failure("calibration failed")
    else Success(Transformer(cameraPoints.GetOr(DefaultCameraPoints), robotPoints.GetOr(DefaultRobotPoints),
                             solve.h, Apply(solve.h.value, 320.0, 240.0)))
  }

  /** `convert_multiple_points`: an empty list is answered before H is used;
      otherwise every point is converted, in order. */
  function ConvertMultiplePoints(t: Transformer, points: seq<Point>): (r: Result<seq<Point>>)
    ensures points == [] ==> r == Success([])
    ensures points != [] ==> (r.Success? <==> t.h.Some?)
    ensures r.Success? ==> |r.value| == |points|
    ensures r.Success? ==> forall i :: 0 <= i < |points| ==>
              ConvertCoordinate(t, points[i].x, points[i].y) == Success(r.value[i])
  {
    if points == [] then Success([])
    else match t.h
      case None => Failure("no homography")
      case Some(h) => Success(seq(|points|, i requires 0 <= i < |points| => Apply(h, points[i].x, points[i].y)))
  }

  /** `update_calibration`: the point lists are stored before H is
      recomputed, so a failure keeps the new points. A solver that returns no
      matrix leaves H unset, after which the centre conversion raises. */
  function UpdateCalibration(t: Transformer, cameraPoints: seq<Point>, robotPoints: seq<Point>, solve: Solution): (r: (Transformer, bool))
    ensures r.0.cameraPoints == cameraPoints && r.0.robotPoints == robotPoints
    ensures r.1 <==> solve.Solved? && solve.h.Some?
    ensures r.1 ==> r.0.h == solve.h && ConvertCoordinate(r.0, 320.0, 240.0) == Success(r.0.center)
    ensures solve.SolverRaises? ==> r.0.h == t.h && r.0.center == t.center
    ensures solve.Solved? && solve.h.None? ==> r.0.h.None? && r.0.center == t.center
  {
    var stored := t.(cameraPoints := cameraPoints, robotPoints := robotPoints);
    match solve
    case SolverRaises => (stored, false)
    case Solved(None) => (stored.(h := None), false)
    case Solved(Some(h)) => (stored.(h := Some(h), center := Apply(h, 320.0, 240.0)), true)
  }

  /** `get_transform_matrix`: `self.H.copy()` raises when H is unset. */
  function GetTransformMatrix(t: Transformer): (r: Result<Mat3>)
    ensures r.Success? <==> t.h.Some?
    ensures r.Success? ==> r.value == t.h.value
  {
    match t.h
    case None => Failure("no homography")
    case Some(h) => Success(h)
  }

  function GetCalibrationPoints(t: Transformer): (r: (seq<Point>, seq<Point>))
    ensures r == (t.cameraPoints, t.robotPoints)
  {
    (t.cameraPoints, t.robotPoints)
  }

  /** `validate_transform`: converting the four corners and the centre
      succeeds exactly when H is known. */
  function ValidateTransform(t: Transformer): (r: bool)
    ensures r <==> ConvertCoordinate(t, 320.0, 240.0).Success?
  {
    ConvertMultiplePoints(t, DefaultCameraPoints + [Point(320.0, 240.0)]).Success?
  }

  /** A `workspace_bounds` dict. */
  type BoundsDict = map<string, real>

  const BoundKeys: set<string> := {"x_min", "x_max", "y_min", "y_max"}

  /** The uArm's reach on the table. */
  const DefaultWorkspace: BoundsDict := map["x_min" := 0.0, "x_max" := 300.0, "y_min" := -150.0, "y_max" := 150.0]

  /** All four bounds are present and the point lies in their closed
      rectangle. */
  predicate InRectangle(b: BoundsDict, x: real, y: real)
  {
    BoundKeys <= b.Keys
    && b["x_min"] <= x <= b["x_max"] && b["y_min"] <= y <= b["y_max"]
  }

  /** `is_point_in_workspace`: an inclusive rectangle test written as two
      chained comparisons joined by `and`, so the bounds are looked up in the
      order x_min, x_max, y_min, y_max and only until the first comparison
      that fails. Looking up a missing bound raises KeyError. */
  function IsPointInWorkspace(x: real, y: real, bounds: Option<BoundsDict>): (r: Result<bool>)
    ensures r.Success? && r.value <==> InRectangle(bounds.GetOr(DefaultWorkspace), x, y)
    ensures BoundKeys <= bounds.GetOr(DefaultWorkspace).Keys ==> r.Success?
    ensures r.Failure? ==> r.error == "KeyError" && !(BoundKeys <= bounds.GetOr(DefaultWorkspace).Keys)
    ensures bounds.None? ==> r == Success(0.0 <= x <= 300.0 && -150.0 <= y <= 150.0)
  {
    var b := bounds.GetOr(DefaultWorkspace);
    if "x_min" !in b then Failure("KeyError")
    else if !(b["x_min"] <= x) then Success(false)
    else if "x_max" !in b then Failure("KeyError")
    else if !(x <= b["x_max"]) then Success(false)
    else if "y_min" !in b then Failure("KeyError")
    else if !(b["y_min"] <= y) then Success(false)
    else if "y_max" !in b then Failure("KeyError")
    else Success(y <= b["y_max"])
  }

  /** The short circuit hides a missing bound: a point left of `x_min`
      answers False although the dict has no other key, while a point that
      passes the x_min test raises KeyError on the same dict. */
  lemma MissingBoundOnlySometimesRaises()
    ensures IsPointInWorkspace(-1.0, 0.0, Some(map["x_min" := 0.0])) == Success(false)
    ensures IsPointInWorkspace(1.0, 0.0, Some(map["x_min" := 0.0])) == Failure("KeyError")
  {
  }

  /** `get_safe_coordinate`: the converted point when it lies in the default
      workspace, None otherwise. */
  function GetSafeCoordinate(t: Transformer, x: real, y: real): (r: Result<Option<Point>>)
    ensures r.Success? <==> t.h.Some?
    ensures r.Success? && r.value.Some? ==> Success(r.value.value) == ConvertCoordinate(t, x, y)
    ensures r.Success? ==> (r.value.Some? <==> var p := ConvertCoordinate(t, x, y).value;
                                               IsPointInWorkspace(p.x, p.y, None) == Success(true))
  {
    match ConvertCoordinate(t, x, y)
    case Failure(e) => Failure(e)
    case Success(p) => Success(if IsPointInWorkspace(p.x, p.y, None) == Success(true) then Some(p) else None)
  }

  /** A safe coordinate always lies inside the default workspace. */
  lemma SafeCoordinateInBounds(t: Transformer, x: real, y: real)
    requires GetSafeCoordinate(t, x, y).Success? && GetSafeCoordinate(t, x, y).value.Some?
    ensures var p := GetSafeCoordinate(t, x, y).value.value;
            0.0 <= p.x <= 300.0 && -150.0 <= p.y <= 150.0
  {
  }
}
