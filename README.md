# Reading difficulty detection — a verified Dafny model

This project models the core of a reading-difficulty detector. The detector
watches a reader through a camera and scores each frame in [0, 1].

- **The detector** (`ReadingDifficultyDetector`, module `Detector`, with its
  helpers in `Features`, `Temporal` and `Scoring`). Per frame it updates a
  frame-rate counter and computes the eye-aspect ratio of each eye, the eye
  centres, the gaze point and the eye separation. It takes the head pose from
  a pose solver and pushes the frame's features onto a bounded history (300
  records, FIFO). Once the history holds at least 30 records it derives window
  statistics: gaze variance, reading progression, gaze direction changes and
  blink rate. It then scores the frame with one of two threshold ladders: the
  rule-based ladder when window statistics exist, the basic ladder otherwise.
- **The session logger** (`DataLogger`, module `DataLogging`). It holds a map
  of open sessions. Starting a session opens one under a fresh id. Logging
  appends a detection with sanitised features. Ending a session replaces the
  logged detections with the supplied history when a non-empty one is given,
  computes the
  count, mean and maximum score, writes the record and closes the session.
- **The application's session bookkeeping** (`ReadingDifficultyApp`, module
  `ReadingApp`). It maps the score to a status band. It keeps the detection
  history: one entry per processed frame, emptied on start and handed to the
  logger on stop. It splits the elapsed time into hours, minutes and seconds,
  and projects the history onto the (timestamp, score) rows of the export.

Values are exact reals (`real`). The face-mesh landmark predictor, the pose
solver, the Euclidean norm, the clock, the uuid generator and the outcome of
writing the session file are inputs: `landmarks: Option<seq<Point>>`,
`solved: Option<HeadPose>`, `norm: seq<real> -> real`, `now: real`,
`freshId: string` and `writeSucceeds: bool`.

Files: `values.dfy` (optional values, the run-time kinds of feature values,
decimal text of counts), `stats.dfy` (sum, mean, maximum, sample variance,
deltas), `features.dfy`, `temporal.dfy`, `scoring.dfy`, `detector.dfy`,
`data_logger.dfy`, `app.dfy`.

Three behaviours of the code a reader might not expect:

- A direction change is any difference in sign between consecutive gaze
  deltas, not only a reversal. A zero delta next to a non-zero one counts.
- A session whose file cannot be written is still closed and discarded, and
  its record is not saved (a write that fails after the file is opened can
  leave a partial file).
- A no-face frame is still appended to the application's detection history
  with score 0, so it counts in the session summary. Only the detector's
  feature history skips it.

## Model

| member | source | states |
|---|---|---|
| Values.NatToDecimal | src/utils/data_logger.py:75-76 | the string form of a numpy count is a non-empty run of decimal digits |
| Values.DecimalRoundTrip | src/utils/data_logger.py:75-76 | the decimal text of a count denotes that count, so storing a count as its string loses nothing |
| Stats.MaxOf | src/utils/data_logger.py:106 | `max(scores)` bounds every element and is attained by one |
| Stats.Mean | src/utils/data_logger.py:105 | the arithmetic mean `sum(xs) / len(xs)` of a non-empty sequence (also pandas' `mean()` of the gaze deltas) |
| Stats.SampleVariance | src/models/reading_detector.py:168-169 | pandas' `var()`: the squared deviations from the mean divided by n - 1 |
| Stats.Deltas | src/models/reading_detector.py:171 | `diff().dropna()` of n samples has n - 1 entries (none for fewer than two) |
| Stats.SumAtMostCountTimesBound | src/utils/data_logger.py:105 | a sum of n values each at most b is at most n·b |
| Stats.MeanAtMostBound | src/utils/data_logger.py:105 | the mean of values each at most b is at most b |
| Stats.MeanAtMostMax | src/utils/data_logger.py:105-106 | the average score never exceeds the maximum score |
| Stats.SumOfConstant | src/models/reading_detector.py:168 | n copies of c sum to n·c |
| Stats.MeanOfConstant | src/models/reading_detector.py:168 | the mean of a constant window is that constant |
| Stats.SquaredDeviationNonNegative | src/models/reading_detector.py:168-169 | the sum of squared deviations is non-negative |
| Stats.VarianceNonNegative | src/models/reading_detector.py:168-169 | the sample variance (divisor n - 1) is non-negative |
| Stats.SquaredDeviationOfConstant | src/models/reading_detector.py:168 | a constant window has zero squared deviation from its value |
| Stats.VarianceOfConstant | src/models/reading_detector.py:168 | a constant window has zero variance |
| Stats.DeltasTelescope | src/models/reading_detector.py:171-173 | consecutive deltas sum to the last sample minus the first |
| Stats.MeanDeltaIsNetChange | src/models/reading_detector.py:171-173 | the mean delta is the net change divided by n - 1 |
| Features.Clamp01 | src/models/reading_detector.py:107 | `max(0, min(1, x))` lies in [0, 1], is x inside it, 0 below and 1 above |
| Features.PlanarDistance | src/models/reading_detector.py:98-100 | the norm of the (x, y) difference of two landmarks (`points[i][:2] - points[j][:2]`) |
| Features.RawEar | src/models/reading_detector.py:98-103 | (A + B) / (2C) with A, B, C the planar distances of eye points 1–5, 2–4 and 0–3 |
| Features.EyeAspectRatio | src/models/reading_detector.py:95-109 | the eye-aspect ratio always lies in [0, 1] |
| Features.EarCases | src/models/reading_detector.py:95-109 | with fewer than six points or C not positive the ratio is exactly 0.3; otherwise it is (A + B) / (2C) clamped, over points 1–5, 2–4 and 0–3 |
| Features.CoversEyesIffLongEnough | src/models/reading_detector.py:68-69 | the eye-index lookup succeeds exactly when there are more than 466 landmarks |
| Features.CoversEyes | src/models/reading_detector.py:68-69 | every index of both eye lists is a valid landmark position, so the lookup raises no IndexError |
| Features.Select | src/models/reading_detector.py:68-69 | the selected eye points are one per index |
| Features.Centroid | src/models/reading_detector.py:75-76 | `np.mean(points, axis=0)`: the per-axis mean of the eye points |
| Features.ExtractEyeFeatures | src/models/reading_detector.py:63-93 | both ears and their mean lie in [0, 1] and avg_ear is the mean of the two; a failed lookup gives ears 0.3, gaze and distance 0 and no eye centres; a successful one has both centres |
| Features.HeadPoseOrZero | src/models/reading_detector.py:142-155 | a failed or raising pose solve gives the all-zero pose; a successful one its angles |
| Temporal.LastN | src/models/reading_detector.py:161 | `history[-300:]` is the suffix of length min(n, 300) |
| Temporal.Push | src/models/reading_detector.py:206-208 | `append`, then `pop(0)` when the length exceeds 300 |
| Temporal.PushKeepsLastWindow | src/models/reading_detector.py:206-208 | a push keeps the history within 300, puts the record last, grows it by one below capacity and drops the oldest at capacity |
| Temporal.LastNAppend | src/models/reading_detector.py:206-208 | trimming to the last n before or after an append gives the same window |
| Temporal.PushAllKeepsLastWindow | src/models/reading_detector.py:206-208 | any run of pushes leaves exactly the last 300 of the old history followed by the pushed records, in order |
| Temporal.PushingOneTooMany | src/models/reading_detector.py:206-208 | 301 pushes onto an empty history leave the last 300 in order, the first one gone |
| Temporal.GazeXs | src/models/reading_detector.py:164-168 | the gaze-x column has one entry per record |
| Temporal.GazeYs | src/models/reading_detector.py:164-169 | the gaze-y column has one entry per record |
| Temporal.AvgEars | src/models/reading_detector.py:164-178 | the avg_ear column has one entry per record |
| Temporal.Sign | src/models/reading_detector.py:174 | `np.sign`: 1, -1 or 0 |
| Temporal.SignChanges | src/models/reading_detector.py:174 | `np.sum(np.diff(np.sign(d)) != 0)`: the adjacent pairs whose signs differ |
| Temporal.DirectionChanges | src/models/reading_detector.py:171-175 | the sign changes of the gaze-x deltas |
| Temporal.SignChangesBound | src/models/reading_detector.py:174 | k deltas have at most k - 1 sign changes |
| Temporal.DirectionChangesBound | src/models/reading_detector.py:171-175 | n ≥ 2 gaze samples have at most n - 2 direction changes |
| Temporal.SameSignNoChanges | src/models/reading_detector.py:174 | deltas of one sign give no change |
| Temporal.ConstantGazeNoChanges | src/models/reading_detector.py:171-175 | a constant gaze has no direction changes |
| Temporal.StrictlyIncreasingGazeNoChanges | src/models/reading_detector.py:171-175 | a steadily advancing gaze has no direction changes |
| Temporal.PauseCountsTwice | src/models/reading_detector.py:174 | a zero delta between two positive ones counts as two changes |
| Temporal.BlinkStartsAt | src/models/reading_detector.py:177-181 | sample i is at or above 0.2 and sample i + 1 below: a step of 1 in the `avg_ear < 0.2` indicator |
| Temporal.BlinkCount | src/models/reading_detector.py:177-181 | `np.sum(np.diff(blinks) == 1)`: the number of such steps over adjacent pairs |
| Temporal.StartingClosedAddsNothing | src/models/reading_detector.py:177-182 | a window starting below 0.2 contributes no blink for its first sample |
| Temporal.BlinkCountBound | src/models/reading_detector.py:177-182 | n samples hold at most n / 2 open-to-closed transitions |
| Temporal.TwoCrossingsTwoBlinks | src/models/reading_detector.py:177-182 | the sequence 0.35, 0.18, 0.35, 0.18, 0.35 crosses below 0.2 exactly twice |
| Temporal.TemporalFeaturesOf | src/models/reading_detector.py:157-187 | temporal features exist exactly when the history holds at least 30 records |
| Temporal.TemporalFeaturesBounds | src/models/reading_detector.py:157-187 | both variances ≥ 0, progression = net gaze-x change / (n - 1), direction changes ≤ n - 2, blink rate ≤ 2·(n / 2) |
| Temporal.ConstantGazeIsStable | src/models/reading_detector.py:168-175 | a gaze that never moves has zero stability, zero progression and no direction changes |
| Scoring.InputsOf | src/models/reading_detector.py:211-216 | the five scorer lookups of the merged dictionary: the temporal keys only when temporal features exist |
| Scoring.UncappedRuleScore | src/models/reading_detector.py:221-254 | the sum of the five ladders, each read with its `.get` default |
| Scoring.RuleScore | src/models/reading_detector.py:220-255 | `min(score, 1.0)` of the five-ladder sum |
| Scoring.BasicScore | src/models/reading_detector.py:257-270 | the eye-opening ladder plus the steep-pitch increment, capped at 1 |
| Scoring.DifficultyScore | src/models/reading_detector.py:210-218 | the rule-based score when temporal features exist, the basic score of the current features otherwise |
| Scoring.CalculateRuleBasedScore | src/models/reading_detector.py:220-255 | the accumulated score equals the capped sum of the five ladders and lies in [0, 1] |
| Scoring.CalculateBasicScore | src/models/reading_detector.py:257-270 | the accumulated score equals the capped eye/pitch ladder and lies in [0, 0.5] |
| Scoring.RuleScoreBounds | src/models/reading_detector.py:220-255 | the uncapped sum lies in [0, 1.1], the score in [0, 1], and the cap binds only above 1 |
| Scoring.CapReached | src/models/reading_detector.py:220-255 | the worst case of every ladder sums to 1.1 and scores 1 |
| Scoring.DefaultsContributeNothing | src/models/reading_detector.py:220-270 | blink 15, stability 0, changes 0, pitch 0 and ear 0.3 add nothing to either ladder |
| Scoring.BasicScoreBounds | src/models/reading_detector.py:257-270 | the basic score lies in [0, 0.5] |
| Scoring.DifficultyScoreInUnitRange | src/models/reading_detector.py:210-218 | every score lies in [0, 1] |
| Scoring.ModeSelection | src/models/reading_detector.py:210-216 | the rule-based ladder scores exactly when the history holds at least 30 records, the basic one otherwise |
| Scoring.CalmReaderScenario | src/models/reading_detector.py:157-255 | a full-enough window with a still gaze, two blinks, open eyes and a level head scores exactly 0.25 |
| Detector.NoFaceMarker | src/models/reading_detector.py:194-211 | the "error" key is present exactly for a missing face; "fps" is always present; blink_rate is present exactly when temporal features are |
| Detector.EyeKeys | src/models/reading_detector.py:71-85 | the six float eye keys |
| Detector.CenterKeys | src/models/reading_detector.py:78-79 | a two-element array per eye centre, only when the centres were computed |
| Detector.PoseKeys | src/models/reading_detector.py:198-204 | the four pose keys and the int frame rate |
| Detector.TemporalKeys | src/models/reading_detector.py:165-182 | the three float statistics and the two numpy integer counts, only when temporal features exist |
| Detector.DetectionFeatures.ToMap | src/models/reading_detector.py:194-211 | the no-face dictionary, or the merge of the eye, centre, pose and temporal keys |
| Detector.CurrentFeatures | src/models/reading_detector.py:197-204 | the current frame's record: eye features, the pose or its zero fallback, and the frame rate |
| Detector.ScoreFrame | src/models/reading_detector.py:213-216 | the frame's score is the ladder its temporal features select, in [0, 1] |
| Detector.ReadingDifficultyDetector.PushFeatures | src/models/reading_detector.py:206-208 | the record is pushed (appended, the oldest evicted beyond 300) and the counters are kept |
| Detector.ReadingDifficultyDetector.constructor | src/models/reading_detector.py:30-37 | the history is empty, the counters 0 and the last report time the clock |
| Detector.ReadingDifficultyDetector.UpdateFpsCounter | src/models/reading_detector.py:272-279 | one frame is counted; after a second or more the count is reported and restarted |
| Detector.ReadingDifficultyDetector.PredictReadingDifficulty | src/models/reading_detector.py:189-218 | no face: score 0, the marker with fps, history unchanged; a face: exactly one push, features = current + temporal of the new history, score from the ladder it selects, always in [0, 1], history within 300 |
| Detector.ReadingDifficultyDetector.Reset | src/models/reading_detector.py:281-283 | the history and frame counter are cleared; the reported rate and report time are kept |
| DataLogging.SanitizeValue | src/utils/data_logger.py:62-78 | every sanitised value is a primitive or a plain list |
| DataLogging.SanitizeValueProperties | src/utils/data_logger.py:64-78 | primitives are kept, arrays and listable iterables become their element lists, other objects and unlistable iterables become their string form or None when `str()` raises, and sanitising is idempotent |
| DataLogging.CountStoredAsDigits | src/utils/data_logger.py:75-76 | a numpy count is stored as its decimal string, which denotes the count again |
| DataLogging.SanitizedProperties | src/utils/data_logger.py:59-80 | the sanitised dictionary has exactly the input keys, each value sanitised to a sanitised kind, and sanitising twice is sanitising once |
| DataLogging.SanitizeFeatures | src/utils/data_logger.py:59-80 | the loop yields exactly the input keys, each mapped to its sanitised value |
| DataLogging.Sanitized | src/utils/data_logger.py:59-80 | the dictionary with the same keys, each value sanitised |
| DataLogging.Scores | src/utils/data_logger.py:104 | one score per detection, in order |
| DataLogging.Summarize | src/utils/data_logger.py:103-109 | the count of final detections; 0 and 0 when there are none; otherwise the mean, a maximum bounding and attained by the scores, and mean ≤ max |
| DataLogging.ConvertHistory | src/utils/data_logger.py:92-101 | one converted detection per history entry, in order, with missing keys defaulted and features sanitised |
| DataLogging.ConvertEntry | src/utils/data_logger.py:95-99 | one history entry converted: the clock, 0 and `{}` for missing keys, the features sanitised |
| DataLogging.FinalDetections | src/utils/data_logger.py:90-101 | the converted history when it is non-empty, the logged detections otherwise |
| DataLogging.Finalize | src/utils/data_logger.py:90-121 | the record keeps id and start time; the final detections are the converted history when it is non-empty, the logged ones otherwise; total = their number; duration = end − start |
| DataLogging.AppendDetectionProperties | src/utils/data_logger.py:44-57 | logging to an open id appends exactly one detection to it and changes no other session; an unknown id changes nothing; no session is opened or closed |
| DataLogging.AppendDetection | src/utils/data_logger.py:45-57 | the open sessions after a log: the record appended to that id's detections, or unchanged for an unknown id |
| DataLogging.ConvertDetections | src/utils/data_logger.py:92-101 | the conversion loop yields the converted history |
| DataLogging.DataLogger.constructor | src/utils/data_logger.py:25 | no session is open and none saved |
| DataLogging.DataLogger.StartSession | src/utils/data_logger.py:28-42 | exactly one session is opened under the fresh id, with no detections, the given or empty user info and version metadata; other sessions unchanged |
| DataLogging.DataLogger.LogDetection | src/utils/data_logger.py:44-57 | the open sessions become the old ones with (now, score, sanitised features) appended to that id; nothing saved |
| DataLogging.DataLogger.EndSession | src/utils/data_logger.py:82-131 | an unknown id is a no-op; otherwise the session is closed even if the write fails, and its finalized record is saved only when the write succeeds |
| DataLogging.SessionLifecycle | src/utils/data_logger.py:28-131 | a session logged with n scores and ended without a history saves n detections with those scores in order, their mean and their maximum |
| DataLogging.MaxOfUnique | src/utils/data_logger.py:106 | a bound attained by an element is the maximum |
| ReadingApp.StatusBand | main.py:196-201 | below 0.3 normal (green) with text "Normal Reading", from 0.3 below 0.7 slight (orange) with "Slight Difficulty", from 0.7 reading difficulty (red) with "Reading Difficulty": each band and each text iff its range, so they partition the scores |
| ReadingApp.StatusBandMonotone | main.py:196-201 | a higher score never shows a less severe band |
| ReadingApp.Mod3600 | main.py:273 | Python's float `% 3600` lies in [0, 3600) |
| ReadingApp.Mod60 | main.py:274 | Python's float `% 60` lies in [0, 60) |
| ReadingApp.SplitDuration | main.py:271-275 | minutes and seconds lie in [0, 60) and hours·3600 + minutes·60 + seconds = ⌊duration⌋ |
| ReadingApp.SplitDurationSums | main.py:272-274 | the floor arithmetic behind the split |
| ReadingApp.FloorShift | main.py:272-274 | adding a whole number k shifts the floor by k |
| ReadingApp.ToLoggerHistory | main.py:206-211 | the history handed to the logger has one entry per frame |
| ReadingApp.LoggedHistoryMatches | main.py:252-253 | the logger keeps the application's times and scores, in order, with sanitised features |
| ReadingApp.ReadingDifficultyApp.constructor | main.py:47-50 | not analysing, no session, empty history, no start time; the display starts (lines 115-146) at score 0, green normal reading, 0 samples, 00:00:00 |
| ReadingApp.ReadingDifficultyApp.ProcessFrame | main.py:189-217 | the score and features are the detector's prediction for the frame (the no-face marker and 0, or the merged current and temporal features and the selected ladder's score), the score is in [0, 1] and shown with its band, and the detector's frame-rate counter advances as in one prediction; exactly one (now, score, features) entry is appended and the sample count equals the history length; the detection is logged only when a session is current |
| ReadingApp.ReadingDifficultyApp.Record | main.py:193-215 | the display, history and logging steps of a scored frame |
| ReadingApp.ReadingDifficultyApp.StartDetection | main.py:232-246 | analysing on, a new session opened and current, history emptied, start time set, timer shown at 00:00:00 (unless the start time is 0, which the timer treats as unset) |
| ReadingApp.ReadingDifficultyApp.StopDetection | main.py:248-266 | analysing off; a current session is ended with the full history, and when saved its total equals the history length (an empty history included, since the session's logged detections keep step with the history); the session is forgotten; timer and sample display reset, shown score and status kept; history kept; samples = history length |
| ReadingApp.ReadingDifficultyApp.UpdateSessionTimer | main.py:268-278 | while analysing with a start time set, the display shows the split of the elapsed time; otherwise nothing changes |
| ReadingApp.ReadingDifficultyApp.ExportData | main.py:280-298 | an empty history exports nothing; otherwise the header and one (timestamp, score) row per entry, in history order |
| ReadingApp.ProcessSessionFrame | main.py:189-217 | one frame during an open session: the history grows by one entry carrying the frame's score, earlier entries kept, and the session's scores grow by that score with nothing else of the session changed |
| ReadingApp.RunFrames | main.py:189-217 | processing frames in an open session appends one history entry and one logged detection per frame, with the frames' scores, each in [0, 1], in order |
| ReadingApp.DetectionRun | main.py:189-266 | starting, processing n frames and stopping saves n detections whose scores, each in [0, 1], are the frames' scores in order, with their mean and maximum |

## Left out

- Landmark extraction (the face-mesh predictor and the conversion to pixel coordinates) is an input `Option<seq<Point>>`, because it is a pretrained model.
- The perspective pose solve (`solvePnP`, `Rodrigues`, `RQDecomp3x3`) is an input `Option<HeadPose>`. Only its all-zero fallback is modelled, because the solver is external numeric code.
- The Euclidean norm is an input function `norm`, because square roots are not modelled.
- Floating-point rounding is not modelled. All values are exact reals, and the sample variance is computed exactly with the n - 1 divisor that pandas uses.
- The zero fallbacks of the eye and pose blocks are Python ints (`0`). They are modelled as the real 0, because the scorer and the sanitiser treat both kinds alike.
- The `except` branch of the temporal statistics returns `{}`. It cannot fire on real-valued columns, so the model always computes the statistics for 30 or more records. The column and length guards (lines 167, 172, 179) always hold then, so they are not separate branches.
- `process_frame`'s exception path (`return frame, {}`) is not modelled, because no modelled step raises.
- Clock readings are one `now` per operation. The frame-rate counter and the history timestamp of one frame share it, and so do `datetime.now()` and `time.time()` in the logger and the application.
- ISO-8601 formatting of timestamps, `datetime.fromtimestamp` and the JSON layout are left out: times stay reals. The file write is the input `writeSucceeds`.
- The absent history (`None`) and the empty one (`[]`) behave the same in `end_session`, so the model's history parameter is always a sequence.
- The `02d` formatting of the timer, the `.2f` formatting of the score, the progress bar, the metrics panel, the buttons and the message boxes are left out, because they are display only.
- Rescheduling the timer with `root.after(1000, ...)` is left out. `UpdateSessionTimer` models one tick.
- The video feed thread (main.py:159-180) is left out, because it is camera I/O and threading. `DetectionRun` models a run of processed frames between start and stop.
- The CSV file write is left out, and so are the export file name and its timestamp. Only the row projection is modelled.
- `src/utils/video_processor.py` and `config/settings.py` are not part of this model, because they are camera I/O and JSON settings persistence.
- Detector construction and the application window setup are left out, except for the initial field values.
- The logger's console messages (src/utils/data_logger.py:26-132) are left out, because they are output only. They are the only report of an unknown session id or of a failed save; the model's no-op and unsaved outcomes carry no message.
