/** The application's session bookkeeping, without its window: per processed
    frame, the status band shown for the score and the detection history it
    keeps; starting and stopping a detection session; the elapsed-time display;
    and the (timestamp, score) rows of the data export. */
module ReadingApp {
  import opened Values
  import opened Stats
  import opened Features
  import opened Temporal
  import opened Scoring
  import opened Detector
  import opened DataLogging

  // ---------------------------------------------------------------------
  // Status bands

  datatype Status = NormalReading | SlightDifficulty | ReadingDifficulty
  datatype Color = Green | Orange | Red

  /** The label colour and status text shown for a score. */
  datatype Band = Band(color: Color, status: Status)

  /** The status text the window shows for a status. */
  function StatusText(s: Status): string
  {
    match s
    case NormalReading => "Normal Reading"
    case SlightDifficulty => "Slight Difficulty"
    case ReadingDifficulty => "Reading Difficulty"
  }

  /** How severe a status is, for comparing bands. */
  function Severity(s: Status): nat
  {
    match s
    case NormalReading => 0
    case SlightDifficulty => 1
    case ReadingDifficulty => 2
  }

  /** The band of a score: below 0.3 normal reading (green), from 0.3 up to 0.7
      slight difficulty (orange), from 0.7 on reading difficulty (red). */
  function StatusBand(score: real): (b: Band)
    ensures b.status == NormalReading <==> score < 0.3
    ensures b.status == SlightDifficulty <==> 0.3 <= score < 0.7
    ensures b.status == ReadingDifficulty <==> 0.7 <= score
    ensures StatusText(b.status) == "Normal Reading" <==> score < 0.3
    ensures StatusText(b.status) == "Slight Difficulty" <==> 0.3 <= score < 0.7
    ensures StatusText(b.status) == "Reading Difficulty" <==> 0.7 <= score
    ensures b.color == (match b.status case NormalReading => Green case SlightDifficulty => Orange case ReadingDifficulty => Red)
  {
    if score < 0.3 then Band(Green, NormalReading)
    else if score < 0.7 then Band(Orange, SlightDifficulty)
    else Band(Red, ReadingDifficulty)
  }

  /** A higher score never shows a less severe band. */
  lemma StatusBandMonotone(s1: real, s2: real)
    requires s1 <= s2
    ensures Severity(StatusBand(s1).status) <= Severity(StatusBand(s2).status)
  {
  }

  // ---------------------------------------------------------------------
  // The elapsed-time display

  datatype Clock = Clock(hours: int, minutes: int, seconds: int)

  /** `x % 3600` and `x % 60` as Python computes them on floats: the result
      has the sign of the (positive) divisor. */
  function Mod3600(x: real): (r: real)
    ensures 0.0 <= r < 3600.0
  {
    x - 3600.0 * (x / 3600.0).Floor as real
  }

  function Mod60(x: real): (r: real)
    ensures 0.0 <= r < 60.0
  {
    x - 60.0 * (x / 60.0).Floor as real
  }

  /** The timer's split of an elapsed duration into hours, minutes and seconds
      (`int(d // 3600)`, `int((d % 3600) // 60)`, `int(d % 60)`): the minutes
      and seconds lie in [0, 60) and together they make up the whole seconds of
      the duration, negative durations included. */
  function SplitDuration(d: real): (c: Clock)
    ensures 0 <= c.minutes < 60 && 0 <= c.seconds < 60
    ensures c.hours * 3600 + c.minutes * 60 + c.seconds == d.Floor
  {
    var hours := (d / 3600.0).Floor;
    var rest := Mod3600(d);
    var minutes := (rest / 60.0).Floor;
    var seconds := Mod60(d).Floor;
    SplitDurationSums(d, hours, rest, minutes);
    Clock(hours, minutes, seconds)
  }

  /** The arithmetic behind `SplitDuration`. */
  lemma SplitDurationSums(d: real, hours: int, rest: real, minutes: int)
    requires hours == (d / 3600.0).Floor && rest == Mod3600(d)
    requires minutes == (rest / 60.0).Floor
    ensures 0 <= minutes < 60
    ensures 0 <= Mod60(d).Floor < 60
    ensures hours * 3600 + minutes * 60 + Mod60(d).Floor == d.Floor
  {
    assert rest == d - 3600.0 * hours as real;
    assert d / 60.0 == 60.0 * hours as real + rest / 60.0;
    FloorShift(rest / 60.0, 60 * hours);
    assert (d / 60.0).Floor == 60 * hours + minutes;
    var m := Mod60(d);
    assert m == d - (3600 * hours + 60 * minutes) as real;
    FloorShift(m, 3600 * hours + 60 * minutes);
  }

  /** Adding a whole number shifts the floor by that number. */
  lemma FloorShift(x: real, k: int)
    ensures (x + k as real).Floor == x.Floor + k
  {
  }

  // ---------------------------------------------------------------------
  // The detection history and the export

  /** One entry of the application's detection history. */
  datatype AppDetection = AppDetection(timestamp: real, score: real, features: DetectionFeatures)

  /** The history as the logger receives it: dictionaries with all three keys. */
  function ToLoggerHistory(history: seq<AppDetection>): (r: seq<HistoryEntry>)
    ensures |r| == |history|
  {
    seq(|history|, i requires 0 <= i < |history| =>
      HistoryEntry(Some(history[i].timestamp), Some(history[i].score), Some(history[i].features.ToMap())))
  }

  /** The detections the logger keeps from the application's history: the
      same times and scores, in order, with the features sanitised. */
  lemma LoggedHistoryMatches(history: seq<AppDetection>, now: real)
    ensures var logged := ConvertHistory(ToLoggerHistory(history), now);
            && |logged| == |history|
            && forall i :: 0 <= i < |history| ==>
                 logged[i] == DetectionRecord(history[i].timestamp, history[i].score, Sanitized(history[i].features.ToMap()))
  {
  }

  /** A frame as it is processed: the clock at processing time and the
      landmark and pose oracles' answers for it. */
  datatype FrameInput = FrameInput(time: real, landmarks: Option<seq<Point>>, solved: Option<HeadPose>)

  /** One row of the CSV export. */
  datatype CsvRow = HeaderRow | DataRow(timestamp: real, score: real)

  class ReadingDifficultyApp {
    const detector: ReadingDifficultyDetector
    const logger: DataLogger

    var isAnalyzing: bool
    /** The open session's id, when there is one. */
    var currentSession: Option<string>
    var detectionHistory: seq<AppDetection>
    var sessionStartTime: Option<real>

    // What the window shows.
    var shownScore: real
    var shownBand: Band
    var shownSamples: nat
    var shownDuration: Clock

    /** The detector's history is bounded, and the current session's logged
        detections keep step with the detection history: every processed
        frame adds one to each. */
    ghost predicate Valid()
      reads this, detector, logger
    {
      && detector.Valid()
      && (HasSession() && currentSession.value in logger.currentSessions ==>
            |logger.currentSessions[currentSession.value].detections| == |detectionHistory|)
    }

    /** A session is current: the id is present and, as Python tests a
        string, not empty. */
    predicate HasSession()
      reads this
    {
      currentSession.Some? && currentSession.value != ""
    }

    /** The timer runs while analysing and a (non-zero) start time is set. */
    predicate TimerRunning()
      reads this
    {
      isAnalyzing && sessionStartTime.Some? && sessionStartTime.value != 0.0
    }

    constructor (now: real)
      ensures Valid() && fresh(detector) && fresh(logger)
      ensures detector.featureHistory == [] && logger.currentSessions == map[] && logger.savedSessions == map[]
      ensures !isAnalyzing && currentSession.None? && detectionHistory == [] && sessionStartTime.None?
      ensures shownScore == 0.0 && shownBand == StatusBand(0.0) && shownSamples == 0 && shownDuration == Clock(0, 0, 0)
    {
      detector := new ReadingDifficultyDetector(now);
      logger := new DataLogger();
      isAnalyzing := false;
      currentSession := None;
      detectionHistory := [];
      sessionStartTime := None;
      shownScore := 0.0;
      shownBand := StatusBand(0.0);
      shownSamples := 0;
      shownDuration := Clock(0, 0, 0);
    }

    /** Scores a frame, shows its score and band, appends exactly one entry to
        the history (the samples count then equals the history length), and
        logs the detection to the current session, if there is one. */
    method ProcessFrame(now: real, landmarks: Option<seq<Point>>, solved: Option<HeadPose>, norm: Norm)
      returns (score: real, features: DetectionFeatures)
      requires Valid()
      modifies this, detector, logger
      ensures Valid()
      ensures 0.0 <= score <= 1.0
      ensures shownScore == score && shownBand == StatusBand(score)
      ensures detectionHistory == old(detectionHistory) + [AppDetection(now, score, features)]
      ensures shownSamples == |detectionHistory|
      ensures isAnalyzing == old(isAnalyzing) && currentSession == old(currentSession)
      ensures sessionStartTime == old(sessionStartTime) && shownDuration == old(shownDuration)
      ensures logger.currentSessions ==
                if HasSession()
                then AppendDetection(old(logger.currentSessions), currentSession.value,
                                     DetectionRecord(now, score, Sanitized(features.ToMap())))
                else old(logger.currentSessions)
      ensures logger.savedSessions == old(logger.savedSessions)
      ensures FpsStep(now, old(detector.fpsCounter), old(detector.lastFpsTime), old(detector.currentFps),
                      detector.fpsCounter, detector.lastFpsTime, detector.currentFps)
      ensures IsPrediction(landmarks, solved, detector.currentFps, norm,
                           old(detector.featureHistory), detector.featureHistory, score, features)
    {
      score, features := detector.PredictReadingDifficulty(now, landmarks, solved, norm);
      Record(now, score, features);
    }

    /** The bookkeeping of a scored frame: the display, the history entry and
        the log record. */
    method Record(now: real, score: real, features: DetectionFeatures)
      modifies this, logger
      ensures shownScore == score && shownBand == StatusBand(score)
      ensures detectionHistory == old(detectionHistory) + [AppDetection(now, score, features)]
      ensures shownSamples == |detectionHistory|
      ensures isAnalyzing == old(isAnalyzing) && currentSession == old(currentSession)
      ensures sessionStartTime == old(sessionStartTime) && shownDuration == old(shownDuration)
      ensures logger.currentSessions ==
                if HasSession()
                then AppendDetection(old(logger.currentSessions), currentSession.value,
                                     DetectionRecord(now, score, Sanitized(features.ToMap())))
                else old(logger.currentSessions)
      ensures logger.savedSessions == old(logger.savedSessions)
    {
      shownScore := score;
      shownBand := StatusBand(score);

      detectionHistory := detectionHistory + [AppDetection(now, score, features)];
      shownSamples := |detectionHistory|;

      if HasSession() {
        logger.LogDetection(currentSession.value, score, features.ToMap(), now);
      }
    }

    /** Starts analysing: opens a new session (id from the uuid oracle), empties
        the history, records the start time and shows the timer. */
    method StartDetection(freshId: string, now: real)
      requires Valid()
      modifies this, logger
      ensures Valid()
      ensures isAnalyzing && currentSession == Some(freshId)
      ensures detectionHistory == [] && sessionStartTime == Some(now)
      ensures logger.currentSessions ==
                old(logger.currentSessions)[freshId := Session(freshId, now, map[], [], SessionMetadata)]
      ensures logger.savedSessions == old(logger.savedSessions)
      ensures now != 0.0 ==> shownDuration == Clock(0, 0, 0)
      ensures now == 0.0 ==> shownDuration == old(shownDuration)
      ensures shownScore == old(shownScore) && shownBand == old(shownBand) && shownSamples == old(shownSamples)
    {
      isAnalyzing := true;
      var id := logger.StartSession(None, freshId, now);
      currentSession := Some(id);
      detectionHistory := [];
      sessionStartTime := Some(now);
      UpdateSessionTimer(now);
    }

    /** Stops analysing: ends the current session, if any, handing it the whole
        detection history, then forgets the session and resets the display.
        The history itself is kept (it is what the export writes). Returns the
        number of samples reported to the user. */
    method StopDetection(now: real, writeSucceeds: bool) returns (samples: nat)
      requires Valid()
      modifies this, logger
      ensures Valid()
      ensures !isAnalyzing && currentSession.None?
      ensures detectionHistory == old(detectionHistory) && sessionStartTime == old(sessionStartTime)
      ensures samples == |detectionHistory|
      ensures shownDuration == Clock(0, 0, 0) && shownSamples == 0
      ensures shownScore == old(shownScore) && shownBand == old(shownBand)
      ensures old(HasSession()) ==>
                var id := old(currentSession).value;
                && logger.currentSessions == old(logger.currentSessions) - {id}
                && (id in old(logger.currentSessions) && writeSucceeds ==>
                      logger.savedSessions ==
                        old(logger.savedSessions)[id := Finalize(old(logger.currentSessions)[id],
                                                                  ToLoggerHistory(detectionHistory), now)])
                && (!(id in old(logger.currentSessions) && writeSucceeds) ==>
                      logger.savedSessions == old(logger.savedSessions))
      ensures !old(HasSession()) ==>
                logger.currentSessions == old(logger.currentSessions)
                && logger.savedSessions == old(logger.savedSessions)
      ensures old(HasSession()) && old(currentSession).value in old(logger.currentSessions)
              && writeSucceeds ==>
                logger.savedSessions[old(currentSession).value].summary.totalDetections == |detectionHistory|
    {
      isAnalyzing := false;

      if HasSession() {
        logger.EndSession(currentSession.value, ToLoggerHistory(detectionHistory), now, writeSucceeds);
      }

      samples := |detectionHistory|;
      currentSession := None;
      shownDuration := Clock(0, 0, 0);
      shownSamples := 0;
    }

    /** Shows the elapsed time of the running session. */
    method UpdateSessionTimer(now: real)
      modifies this
      ensures old(TimerRunning()) ==> shownDuration == SplitDuration(now - old(sessionStartTime).value)
      ensures !old(TimerRunning()) ==> shownDuration == old(shownDuration)
      ensures isAnalyzing == old(isAnalyzing) && currentSession == old(currentSession)
      ensures detectionHistory == old(detectionHistory) && sessionStartTime == old(sessionStartTime)
      ensures shownScore == old(shownScore) && shownBand == old(shownBand) && shownSamples == old(shownSamples)
    {
      if TimerRunning() {
        var duration := now - sessionStartTime.value;
        shownDuration := SplitDuration(duration);
      }
    }

    /** The rows the export writes: nothing for an empty history, otherwise the
        header followed by one (timestamp, score) row per history entry, in
        history order. */
    method ExportData() returns (rows: Option<seq<CsvRow>>)
      ensures detectionHistory == [] ==> rows.None?
      ensures detectionHistory != [] ==>
                && rows.Some? && |rows.value| == |detectionHistory| + 1
                && rows.value[0] == HeaderRow
                && forall i :: 0 <= i < |detectionHistory| ==>
                     rows.value[i + 1] == DataRow(detectionHistory[i].timestamp, detectionHistory[i].score)
    {
      if detectionHistory == [] {
        return None;
      }
      var written := [HeaderRow];
      var i := 0;
      while i < |detectionHistory|
        invariant 0 <= i <= |detectionHistory|
        invariant |written| == i + 1 && written[0] == HeaderRow
        invariant forall j :: 0 <= j < i ==>
                    written[j + 1] == DataRow(detectionHistory[j].timestamp, detectionHistory[j].score)
      {
        written := written + [DataRow(detectionHistory[i].timestamp, detectionHistory[i].score)];
        i := i + 1;
      }
      rows := Some(written);
    }
  }

  /** One frame of `RunFrames`: the frame's entry goes last in the history and
      its score last in the open session's scores; nothing else of the session
      changes. */
  method ProcessSessionFrame(app: ReadingDifficultyApp, freshId: string, frame: FrameInput, norm: Norm)
    returns (score: real)
    requires app.Valid() && app.isAnalyzing && app.currentSession == Some(freshId) && freshId != ""
    requires freshId in app.logger.currentSessions
    modifies app, app.detector, app.logger
    ensures app.Valid() && app.isAnalyzing && app.currentSession == Some(freshId)
    ensures app.sessionStartTime == old(app.sessionStartTime)
    ensures 0.0 <= score <= 1.0
    ensures |app.detectionHistory| == |old(app.detectionHistory)| + 1
    ensures app.detectionHistory[..|old(app.detectionHistory)|] == old(app.detectionHistory)
    ensures app.detectionHistory[|old(app.detectionHistory)|].score == score
    ensures freshId in app.logger.currentSessions
    ensures app.logger.currentSessions[freshId].(detections := []) == old(app.logger.currentSessions[freshId]).(detections := [])
    ensures Scores(app.logger.currentSessions[freshId].detections)
            == Scores(old(app.logger.currentSessions[freshId].detections)) + [score]
  {
    ghost var before := app.logger.currentSessions;
    var features;
    score, features := app.ProcessFrame(frame.time, frame.landmarks, frame.solved, norm);
    ghost var d := DetectionRecord(frame.time, score, Sanitized(features.ToMap()));
    AppendDetectionProperties(before, freshId, d);
    assert app.logger.currentSessions[freshId].detections == before[freshId].detections + [d];
  }

  /** Processes each frame in turn during an open session: one history entry
      and one logged detection per frame, with the frames' scores in order. */
  method RunFrames(app: ReadingDifficultyApp, freshId: string, frames: seq<FrameInput>, norm: Norm)
    returns (scores: seq<real>)
    requires app.Valid() && app.isAnalyzing && app.currentSession == Some(freshId) && freshId != ""
    requires app.detectionHistory == []
    requires freshId in app.logger.currentSessions
    requires Scores(app.logger.currentSessions[freshId].detections) == []
    modifies app, app.detector, app.logger
    ensures app.Valid() && app.isAnalyzing && app.currentSession == Some(freshId)
    ensures app.sessionStartTime == old(app.sessionStartTime)
    ensures |scores| == |frames| && |app.detectionHistory| == |frames|
    ensures forall j :: 0 <= j < |frames| ==> app.detectionHistory[j].score == scores[j]
    ensures forall j :: 0 <= j < |frames| ==> 0.0 <= scores[j] <= 1.0
    ensures freshId in app.logger.currentSessions
    ensures app.logger.currentSessions[freshId].(detections := []) == old(app.logger.currentSessions[freshId]).(detections := [])
    ensures Scores(app.logger.currentSessions[freshId].detections) == scores
  {
    scores := [];
    var i := 0;
    while i < |frames|
      invariant 0 <= i <= |frames| && |scores| == i
      invariant app.Valid()
      invariant app.isAnalyzing && app.currentSession == Some(freshId)
      invariant app.sessionStartTime == old(app.sessionStartTime)
      invariant |app.detectionHistory| == i
      invariant forall j :: 0 <= j < i ==> app.detectionHistory[j].score == scores[j]
      invariant forall j :: 0 <= j < i ==> 0.0 <= scores[j] <= 1.0
      invariant freshId in app.logger.currentSessions
      invariant app.logger.currentSessions[freshId].(detections := []) == old(app.logger.currentSessions[freshId]).(detections := [])
      invariant Scores(app.logger.currentSessions[freshId].detections) == scores
    {
      var score := ProcessSessionFrame(app, freshId, frames[i], norm);
      scores := scores + [score];
      i := i + 1;
    }
  }

  /** A whole detection run: the application starts a session, processes each
      frame in turn while analysing and stops with the write succeeding. The
      saved session holds one detection per frame, with the scores the frames
      got (each in [0, 1]) in processing order, and its summary counts them
      and reports their mean and top score. */
  method DetectionRun(freshId: string, startTime: real, frames: seq<FrameInput>, stopTime: real, norm: Norm)
    returns (scores: seq<real>, samples: nat, record: SessionRecord)
    requires freshId != ""
    ensures |scores| == |frames| && samples == |frames|
    ensures forall i :: 0 <= i < |scores| ==> 0.0 <= scores[i] <= 1.0
    ensures record.session.sessionId == freshId && record.session.startTime == startTime
    ensures record.summary.totalDetections == |frames|
    ensures Scores(record.session.detections) == scores
    ensures |frames| > 0 ==>
              && record.summary.avgScore == Mean(scores)
              && record.summary.maxScore == MaxOf(scores)
              && record.summary.maxScore <= 1.0
  {
    var app := new ReadingDifficultyApp(startTime);
    app.StartDetection(freshId, startTime);
    scores := RunFrames(app, freshId, frames, norm);
    ghost var history := app.detectionHistory;
    samples := app.StopDetection(stopTime, true);
    record := app.logger.savedSessions[freshId];
    LoggedHistoryMatches(history, stopTime);
    assert Scores(record.session.detections) == scores;
    if |frames| > 0 {
      MaxOfUnique(scores, record.summary.maxScore);
    }
  }
}
