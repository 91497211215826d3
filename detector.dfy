/** The reading-difficulty detector: the stateful pipeline that, per frame,
    updates its frame-rate counter, extracts the frame's features, pushes them
    onto the bounded feature history and scores them. */
module Detector {
  import opened Values
  import opened Features
  import opened Temporal
  import opened Scoring

  /** The eye keys of the feature dictionary. */
  function EyeKeys(eye: EyeFeatures): map<string, Value>
  {
    map["left_ear" := VFloat(eye.leftEar), "right_ear" := VFloat(eye.rightEar),
        "avg_ear" := VFloat(eye.avgEar),
        "gaze_x" := VFloat(eye.gazeX), "gaze_y" := VFloat(eye.gazeY),
        "eye_distance" := VFloat(eye.eyeDistance)]
  }

  /** The eye-centre keys: a two-element array per eye, when the centres exist. */
  function CenterKeys(centers: Option<(Point2, Point2)>): map<string, Value>
  {
    if centers.None? then map[]
    else
      var (l, r) := centers.value;
      map["left_eye_center" := VArray([VFloat(l.x), VFloat(l.y)]),
          "right_eye_center" := VArray([VFloat(r.x), VFloat(r.y)])]
  }

  /** The pose keys and the frame rate. */
  function PoseKeys(pose: HeadPose, fps: nat): map<string, Value>
  {
    map["pitch" := VFloat(pose.pitch), "yaw" := VFloat(pose.yaw),
        "roll" := VFloat(pose.roll), "distance" := VFloat(pose.distance),
        "fps" := VInt(fps)]
  }

  /** The temporal keys; the two counts are numpy integer scalars, objects
      whose string form is the decimal count. */
  function TemporalKeys(temporal: Option<TemporalFeatures>): map<string, Value>
  {
    if temporal.None? then map[]
    else
      var t := temporal.value;
      map["gaze_stability_x" := VFloat(t.gazeStabilityX),
          "gaze_stability_y" := VFloat(t.gazeStabilityY),
          "reading_progression" := VFloat(t.readingProgression),
          "gaze_direction_changes" := VObject(Some(NatToDecimal(t.directionChanges))),
          "blink_rate" := VObject(Some(NatToDecimal(t.blinkRate)))]
  }

  /** The features a prediction returns: the no-face marker with the frame
      rate, or the current frame's features merged with the temporal ones. */
  datatype DetectionFeatures =
    | NoFace(fps: nat)
    | Detected(current: FrameFeatures, temporal: Option<TemporalFeatures>)
  {
    /** The feature dictionary, with each value of the run-time kind the
        detector stores: floats for the measurements, a two-element array for
        each eye centre, an int for the frame rate and numpy integer scalars
        for the two counts. */
    function ToMap(): map<string, Value>
    {
      match this
      case NoFace(fps) =>
        map["error" := VStr("No face detected"), "fps" := VInt(fps)]
      case Detected(cur, temporal) =>
        EyeKeys(cur.eye) + CenterKeys(cur.eye.centers) + PoseKeys(cur.pose, cur.fps) + TemporalKeys(temporal)
    }
  }

  /** The no-face marker tells a missing face apart from a calm reading: the
      dictionary has an "error" key exactly when no face was found, the frame
      rate is always reported, and the scored keys are present otherwise. */
  lemma NoFaceMarker(d: DetectionFeatures)
    ensures "error" in d.ToMap() <==> d.NoFace?
    ensures "fps" in d.ToMap()
    ensures d.Detected? ==> "avg_ear" in d.ToMap() && "pitch" in d.ToMap()
    ensures d.Detected? ==> ("blink_rate" in d.ToMap() <==> d.temporal.Some?)
  {
    if d.Detected? {
      var eye, centers := EyeKeys(d.current.eye), CenterKeys(d.current.eye.centers);
      var pose, temporal := PoseKeys(d.current.pose, d.current.fps), TemporalKeys(d.temporal);
      assert "error" !in eye && "error" !in centers && "error" !in pose && "error" !in temporal;
      assert "blink_rate" !in eye && "blink_rate" !in centers && "blink_rate" !in pose;
      assert "avg_ear" in eye && "pitch" in pose && "fps" in pose;
    }
  }

  /** The current frame's feature record, from the landmark oracle's points and
      the pose solver's outcome. */
  function CurrentFeatures(landmarks: seq<Point>, solved: Option<HeadPose>, fps: nat, norm: Norm): FrameFeatures
  {
    FrameFeatures(ExtractEyeFeatures(landmarks, norm), HeadPoseOrZero(solved), fps)
  }

  /** Mode selection: the rule-based ladder when temporal features exist,
      the basic one on the current frame's features otherwise. */
  method ScoreFrame(current: FrameFeatures, temporal: Option<TemporalFeatures>) returns (score: real)
    ensures score == DifficultyScore(current, temporal)
    ensures 0.0 <= score <= 1.0
  {
    if temporal.Some? {
      score := CalculateRuleBasedScore(InputsOf(current, temporal));
    } else {
      score := CalculateBasicScore(InputsOf(current, None));
    }
  }

  /** What one prediction of the detector gives, with `fps` the frame rate
      after the frame is counted: for no face, score 0, the no-face marker
      and the feature history unchanged; for a face, the frame's features
      pushed onto the history, the merged current and temporal features, and
      the score of the ladder those select. */
  predicate IsPrediction(landmarks: Option<seq<Point>>, solved: Option<HeadPose>, fps: nat, norm: Norm,
                         before: seq<FrameFeatures>, after: seq<FrameFeatures>,
                         score: real, features: DetectionFeatures)
  {
    if landmarks.None? then
      score == 0.0 && features == NoFace(fps) && after == before
    else
      var current := CurrentFeatures(landmarks.value, solved, fps, norm);
      && after == Push(before, current)
      && features == Detected(current, TemporalFeaturesOf(after))
      && score == DifficultyScore(current, TemporalFeaturesOf(after))
  }

  /** One step of the frame-rate counter at clock `now`: the frame is counted;
      once a second or more has passed since the last report, the count is
      reported as the rate and counting starts again at the clock `now`. */
  predicate FpsStep(now: real, oldCounter: nat, oldTime: real, oldFps: nat,
                    counter: nat, time: real, fps: nat)
  {
    if now - oldTime >= 1.0 then fps == oldCounter + 1 && counter == 0 && time == now
    else fps == oldFps && counter == oldCounter + 1 && time == oldTime
  }

  class ReadingDifficultyDetector {
    /** The bounded FIFO of per-frame feature records, oldest first. */
    var featureHistory: seq<FrameFeatures>
    /** Frames counted since the last frame-rate report. */
    var fpsCounter: nat
    /** The clock time of the last frame-rate report. */
    var lastFpsTime: real
    /** The last reported frame rate. */
    var currentFps: nat

    ghost predicate Valid()
      reads this
    {
      |featureHistory| <= MaxHistory
    }

    constructor (now: real)
      ensures Valid()
      ensures featureHistory == [] && fpsCounter == 0 && currentFps == 0 && lastFpsTime == now
    {
      featureHistory := [];
      fpsCounter := 0;
      lastFpsTime := now;
      currentFps := 0;
    }

    /** Counts one frame; once a second or more has passed since the last
        report, reports the count as the frame rate and starts counting again. */
    method UpdateFpsCounter(now: real)
      modifies this
      ensures featureHistory == old(featureHistory)
      ensures FpsStep(now, old(fpsCounter), old(lastFpsTime), old(currentFps), fpsCounter, lastFpsTime, currentFps)
    {
      fpsCounter := fpsCounter + 1;
      if now - lastFpsTime >= 1.0 {
        currentFps := fpsCounter;
        fpsCounter := 0;
        lastFpsTime := now;
      }
    }

    /** Scores one frame. `landmarks` is the face-mesh oracle's answer, `solved`
        the pose solver's, `now` the clock. Without a face the score is 0 with
        the no-face marker and the history is untouched; with one, exactly one
        record is pushed (evicting the oldest beyond 300) and the frame is
        scored by the ladder its history length selects. */
    method PredictReadingDifficulty(now: real, landmarks: Option<seq<Point>>, solved: Option<HeadPose>, norm: Norm)
      returns (score: real, features: DetectionFeatures)
      requires Valid()
      modifies this
      ensures Valid()
      ensures FpsStep(now, old(fpsCounter), old(lastFpsTime), old(currentFps), fpsCounter, lastFpsTime, currentFps)
      ensures IsPrediction(landmarks, solved, currentFps, norm, old(featureHistory), featureHistory, score, features)
      ensures 0.0 <= score <= 1.0
    {
      UpdateFpsCounter(now);

      if landmarks.None? {
        score, features := 0.0, NoFace(currentFps);
        return;
      }

      var current := FrameFeatures(
        ExtractEyeFeatures(landmarks.value, norm), HeadPoseOrZero(solved), currentFps);

      PushFeatures(current);
      var temporal := TemporalFeaturesOf(featureHistory);
      score := ScoreFrame(current, temporal);
      features := Detected(current, temporal);
    }

    /** The history append of a scored frame: `f` goes last and the oldest
        record is evicted once the history exceeds 300. */
    method PushFeatures(f: FrameFeatures)
      requires Valid()
      modifies this
      ensures Valid()
      ensures featureHistory == Push(old(featureHistory), f)
      ensures fpsCounter == old(fpsCounter) && lastFpsTime == old(lastFpsTime) && currentFps == old(currentFps)
    {
      featureHistory := featureHistory + [f];
      if |featureHistory| > MaxHistory {
        featureHistory := featureHistory[1..];
      }
    }

    /** Empties the history and the frame counter; the reported rate and the
        time of the last report are kept. */
    method Reset()
      modifies this
      ensures Valid()
      ensures featureHistory == [] && fpsCounter == 0
      ensures currentFps == old(currentFps) && lastFpsTime == old(lastFpsTime)
    {
      featureHistory := [];
      fpsCounter := 0;
    }
  }
}
