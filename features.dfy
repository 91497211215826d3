/** Per-frame feature extraction of the reading-difficulty detector: the
    eye-aspect ratio of each eye, the eye centres, the gaze point and the eye
    separation, computed from one frame's facial landmarks, and the head-pose
    block with its all-zero fallback.

    The face-mesh landmark predictor and the perspective pose solver are
    oracles: their results arrive as values. The Euclidean norm
    (`np.linalg.norm`) is an oracle too, a function `norm` from a vector to
    its length; only the arithmetic around it is modelled. */
module Features {
  import opened Values
  import Stats

  /** One facial landmark: x and y in pixels, z a relative depth. */
  datatype Point = Point(x: real, y: real, z: real)

  /** The x and y of a point (`point[:2]`). */
  datatype Point2 = Point2(x: real, y: real)

  /** The Euclidean norm of a vector, as the detector's numeric library computes it. */
  type Norm = seq<real> -> real

  /** The 16 face-mesh indices of each eye, in the order the detector uses them. */
  const LeftEyeIndices: seq<nat> := [33, 7, 163, 144, 145, 153, 154, 155, 133, 173, 157, 158, 159, 160, 161, 246]
  const RightEyeIndices: seq<nat> := [362, 382, 381, 380, 374, 373, 390, 249, 263, 466, 388, 387, 386, 385, 384, 398]

  /** The largest index in either list: a landmark list must be longer than this. */
  const MaxEyeIndex: nat := 466

  /** The neutral eye-aspect ratio used whenever it cannot be computed. */
  const DefaultEar: real := 0.3

  /** `max(0.0, min(1.0, x))`. */
  function Clamp01(x: real): (r: real)
    ensures 0.0 <= r <= 1.0
    ensures 0.0 <= x <= 1.0 ==> r == x
    ensures x < 0.0 ==> r == 0.0
    ensures x > 1.0 ==> r == 1.0
  {
    if x > 1.0 then 1.0 else if x < 0.0 then 0.0 else x
  }

  /** The planar (x, y) distance between two landmarks. */
  function PlanarDistance(p: Point, q: Point, norm: Norm): real
  {
    norm([p.x - q.x, p.y - q.y])
  }

  /** The ratio (A + B) / (2 C) of the eye-aspect-ratio formula, where A, B and
      C are the distances between eye points 1 and 5, 2 and 4, and 0 and 3. */
  function RawEar(points: seq<Point>, norm: Norm): real
    requires |points| >= 6
    requires PlanarDistance(points[0], points[3], norm) > 0.0
  {
    var a := PlanarDistance(points[1], points[5], norm);
    var b := PlanarDistance(points[2], points[4], norm);
    var c := PlanarDistance(points[0], points[3], norm);
    (a + b) / (2.0 * c)
  }

  /** The eye-aspect ratio of one eye. An index error (fewer than six points)
      or a horizontal distance C that is not positive gives the default 0.3;
      otherwise the ratio is clamped into [0, 1]. */
  function EyeAspectRatio(points: seq<Point>, norm: Norm): (r: real)
    ensures 0.0 <= r <= 1.0
  {
    if |points| < 6 then DefaultEar
    else if PlanarDistance(points[0], points[3], norm) > 0.0 then Clamp01(RawEar(points, norm))
    else DefaultEar
  }

  /** When the ratio cannot be formed the eye-aspect ratio is exactly 0.3; when
      it can, the eye-aspect ratio is the ratio itself if it lies in [0, 1], 1
      above that and 0 below. */
  lemma EarCases(points: seq<Point>, norm: Norm)
    ensures (|points| < 6 || !(PlanarDistance(points[0], points[3], norm) > 0.0)) ==>
              EyeAspectRatio(points, norm) == DefaultEar
    ensures |points| >= 6 && PlanarDistance(points[0], points[3], norm) > 0.0 ==>
              var raw := RawEar(points, norm);
              && (0.0 <= raw <= 1.0 ==> EyeAspectRatio(points, norm) == raw)
              && (raw > 1.0 ==> EyeAspectRatio(points, norm) == 1.0)
              && (raw < 0.0 ==> EyeAspectRatio(points, norm) == 0.0)
  {
  }

  /** Every index of both eyes is a valid position in `landmarks`. */
  predicate CoversEyes(landmarks: seq<Point>)
  {
    && (forall k :: 0 <= k < |LeftEyeIndices| ==> LeftEyeIndices[k] < |landmarks|)
    && (forall k :: 0 <= k < |RightEyeIndices| ==> RightEyeIndices[k] < |landmarks|)
  }

  /** The eye lookup succeeds exactly when there are more than 466 landmarks. */
  lemma CoversEyesIffLongEnough(landmarks: seq<Point>)
    ensures CoversEyes(landmarks) <==> |landmarks| > MaxEyeIndex
  {
    if |landmarks| > MaxEyeIndex {
      assert forall k :: 0 <= k < |LeftEyeIndices| ==> LeftEyeIndices[k] <= MaxEyeIndex;
      assert forall k :: 0 <= k < |RightEyeIndices| ==> RightEyeIndices[k] <= MaxEyeIndex;
    } else {
      assert RightEyeIndices[9] == MaxEyeIndex;
    }
  }

  /** `[landmarks[i] for i in indices]`. */
  function Select(landmarks: seq<Point>, indices: seq<nat>): (pts: seq<Point>)
    requires forall k :: 0 <= k < |indices| ==> indices[k] < |landmarks|
    ensures |pts| == |indices|
  {
    seq(|indices|, k requires 0 <= k < |indices| => landmarks[indices[k]])
  }

  /** The per-axis mean of a set of points (`np.mean(points, axis=0)`). */
  function Centroid(pts: seq<Point>): Point
    requires |pts| > 0
  {
    var xs := seq(|pts|, k requires 0 <= k < |pts| => pts[k].x);
    var ys := seq(|pts|, k requires 0 <= k < |pts| => pts[k].y);
    var zs := seq(|pts|, k requires 0 <= k < |pts| => pts[k].z);
    Point(Stats.Mean(xs), Stats.Mean(ys), Stats.Mean(zs))
  }

  /** The eye block of a frame's features. `centers` holds the left and right
      eye centres when the landmarks were found, and is absent in the fallback
      record (which has no eye-centre keys). */
  datatype EyeFeatures = EyeFeatures(
    leftEar: real, rightEar: real, avgEar: real,
    centers: Option<(Point2, Point2)>,
    gazeX: real, gazeY: real, eyeDistance: real)

  /** The record used when the eye landmarks cannot be looked up. */
  const DefaultEyeFeatures: EyeFeatures :=
    EyeFeatures(DefaultEar, DefaultEar, DefaultEar, None, 0.0, 0.0, 0.0)

  /** The eye features of one frame. Each eye-aspect ratio, and their mean,
      lies in [0, 1]; when fewer than 467 landmarks are given the lookup fails
      and every eye feature takes its default. */
  function ExtractEyeFeatures(landmarks: seq<Point>, norm: Norm): (f: EyeFeatures)
    ensures 0.0 <= f.leftEar <= 1.0 && 0.0 <= f.rightEar <= 1.0
    ensures f.avgEar == (f.leftEar + f.rightEar) / 2.0
    ensures 0.0 <= f.avgEar <= 1.0
    ensures |landmarks| <= MaxEyeIndex ==> f == DefaultEyeFeatures
    ensures |landmarks| > MaxEyeIndex ==> f.centers.Some?
  {
    CoversEyesIffLongEnough(landmarks);
    if !CoversEyes(landmarks) then DefaultEyeFeatures
    else
      var left := Select(landmarks, LeftEyeIndices);
      var right := Select(landmarks, RightEyeIndices);
      var leftEar := EyeAspectRatio(left, norm);
      var rightEar := EyeAspectRatio(right, norm);
      var lc := Centroid(left);
      var rc := Centroid(right);
      EyeFeatures(
        leftEar, rightEar, (leftEar + rightEar) / 2.0,
        Some((Point2(lc.x, lc.y), Point2(rc.x, rc.y))),
        (lc.x + rc.x) / 2.0, (lc.y + rc.y) / 2.0,
        norm([lc.x - rc.x, lc.y - rc.y, lc.z - rc.z]))
  }

  /** The head-pose block: pitch, yaw and roll in degrees and the distance of
      the head from the camera. */
  datatype HeadPose = HeadPose(pitch: real, yaw: real, roll: real, distance: real)

  const ZeroPose: HeadPose := HeadPose(0.0, 0.0, 0.0, 0.0)

  /** The head pose of a frame, given the pose solver's outcome: a failed solve
      (or one that raised) degrades to the all-zero pose and never propagates. */
  function HeadPoseOrZero(solved: Option<HeadPose>): (p: HeadPose)
    ensures solved.None? ==> p == ZeroPose
    ensures solved.Some? ==> p == solved.value
  {
    solved.GetOr(ZeroPose)
  }

  /** The feature record of one processed frame: eye block, pose block and fps. */
  datatype FrameFeatures = FrameFeatures(eye: EyeFeatures, pose: HeadPose, fps: nat)
}
