/** The session logger: a map from session id to the open session's record,
    into which detections are logged, and which is summarised, written to a
    session file and discarded when the session ends. The uuid, the clock and
    the outcome of writing the JSON file are inputs. */
module DataLogging {
  import opened Values
  import opened Stats

  // ---------------------------------------------------------------------
  // The value sanitiser

  /** The kinds copied through unchanged. */
  predicate IsPrimitive(v: Value)
  {
    v.VInt? || v.VFloat? || v.VStr? || v.VBool? || v.VNone?
  }

  /** The kinds a sanitised value can have: a primitive or a plain list. */
  predicate IsSanitizedKind(v: Value)
  {
    IsPrimitive(v) || v.VList?
  }

  /** One value of `_sanitize_features`: primitives are kept; a numpy array
      becomes its `tolist()`; any other non-string iterable becomes `list(v)`,
      or its string form if that raises; anything else becomes its string
      form; and if the string form itself raises, the value becomes None. */
  function SanitizeValue(v: Value): (r: Value)
    ensures IsSanitizedKind(r)
  {
    match v
    case VInt(_) => v
    case VFloat(_) => v
    case VStr(_) => v
    case VBool(_) => v
    case VNone => v
    case VList(items) => VList(items)
    case VArray(items) => VList(items)
    case VIterable(elements, text) =>
      if elements.Some? then VList(elements.value)
      else if text.Some? then VStr(text.value)
      else VNone
    case VObject(text) =>
      if text.Some? then VStr(text.value) else VNone
  }

  /** Sanitising keeps primitives as they are, turns every non-string
      iterable whose elements can be listed into the list of those elements,
      falls back to the string form for other objects and for iterables that
      cannot be listed (to None when the string form raises), and changes
      nothing the second time. */
  lemma SanitizeValueProperties(v: Value)
    ensures IsPrimitive(v) ==> SanitizeValue(v) == v
    ensures v.VList? || v.VArray? ==> SanitizeValue(v) == VList(v.items)
    ensures v.VIterable? && v.elements.Some? ==> SanitizeValue(v) == VList(v.elements.value)
    ensures v.VIterable? && v.elements.None? ==>
              SanitizeValue(v) == (if v.text.Some? then VStr(v.text.value) else VNone)
    ensures v.VObject? ==> SanitizeValue(v) == (if v.text.Some? then VStr(v.text.value) else VNone)
    ensures SanitizeValue(SanitizeValue(v)) == SanitizeValue(v)
  {
  }

  /** A numpy count is stored as its decimal digits, and those digits denote
      the count again. */
  lemma CountStoredAsDigits(n: nat)
    ensures SanitizeValue(VObject(Some(NatToDecimal(n)))) == VStr(NatToDecimal(n))
    ensures DecimalValue(SanitizeValue(VObject(Some(NatToDecimal(n)))).s) == n
  {
    DecimalRoundTrip(n);
  }

  /** The sanitised dictionary: the same keys, each value sanitised. */
  function Sanitized(features: map<string, Value>): (r: map<string, Value>)
  {
    map k | k in features :: SanitizeValue(features[k])
  }

  /** Sanitising a dictionary never raises and keeps exactly its key set; every
      value comes out of a sanitised kind, and sanitising twice is sanitising once. */
  lemma SanitizedProperties(features: map<string, Value>)
    ensures Sanitized(features).Keys == features.Keys
    ensures forall k :: k in features ==> Sanitized(features)[k] == SanitizeValue(features[k])
    ensures forall k :: k in features ==> IsSanitizedKind(Sanitized(features)[k])
    ensures Sanitized(Sanitized(features)) == Sanitized(features)
  {
    var once := Sanitized(features);
    forall k | k in once
      ensures Sanitized(once)[k] == once[k]
    {
      SanitizeValueProperties(features[k]);
    }
  }

  /** `_sanitize_features`: builds the sanitised dictionary key by key. */
  method SanitizeFeatures(features: map<string, Value>) returns (sanitized: map<string, Value>)
    ensures sanitized.Keys == features.Keys
    ensures forall k :: k in sanitized ==> sanitized[k] == SanitizeValue(features[k])
    ensures sanitized == Sanitized(features)
  {
    sanitized := map[];
    var remaining := features.Keys;
    while remaining != {}
      invariant remaining <= features.Keys
      invariant sanitized.Keys == features.Keys - remaining
      invariant forall k :: k in sanitized ==> sanitized[k] == SanitizeValue(features[k])
      decreases remaining
    {
      var key :| key in remaining;
      sanitized := sanitized[key := SanitizeValue(features[key])];
      remaining := remaining - {key};
    }
  }

  // ---------------------------------------------------------------------
  // Sessions and their summaries

  /** One logged detection: when, its score, and its sanitised features. */
  datatype DetectionRecord = DetectionRecord(timestamp: real, score: real, features: map<string, Value>)

  /** One entry of a caller-supplied detection history; each key may be missing. */
  datatype HistoryEntry = HistoryEntry(
    timestamp: Option<real>, score: Option<real>, features: Option<map<string, Value>>)

  /** An open session. */
  datatype Session = Session(
    sessionId: string, startTime: real, userInfo: map<string, Value>,
    detections: seq<DetectionRecord>, metadata: map<string, Value>)

  /** The summary statistics of a session's final detections. */
  datatype Summary = Summary(totalDetections: nat, avgScore: real, maxScore: real)

  /** The record written to a session file when the session ends. */
  datatype SessionRecord = SessionRecord(
    session: Session, endTime: real, duration: real, summary: Summary)

  const SessionMetadata: map<string, Value> := map["version" := VStr("1.0")]

  function Scores(detections: seq<DetectionRecord>): (s: seq<real>)
    ensures |s| == |detections|
    ensures forall i :: 0 <= i < |s| ==> s[i] == detections[i].score
  {
    seq(|detections|, i requires 0 <= i < |detections| => detections[i].score)
  }

  /** The summary of the final detections: their number, the mean score and
      the top score (both 0 when there are none). The mean never exceeds the
      maximum, and the maximum is the score of some detection. */
  function Summarize(detections: seq<DetectionRecord>): (s: Summary)
    ensures s.totalDetections == |detections|
    ensures |detections| == 0 ==> s.avgScore == 0.0 && s.maxScore == 0.0
    ensures |detections| > 0 ==>
              && s.avgScore == Mean(Scores(detections))
              && (forall i :: 0 <= i < |detections| ==> detections[i].score <= s.maxScore)
              && (exists i :: 0 <= i < |detections| && detections[i].score == s.maxScore)
              && s.avgScore <= s.maxScore
  {
    if |detections| == 0 then Summary(0, 0.0, 0.0)
    else
      var scores := Scores(detections);
      MeanAtMostMax(scores);
      Summary(|detections|, Mean(scores), MaxOf(scores))
  }

  /** One caller-supplied history entry as a logged detection: a missing time
      defaults to `now`, a missing score to 0 and missing features to the empty
      dictionary; the features are sanitised. */
  function ConvertEntry(e: HistoryEntry, now: real): DetectionRecord
  {
    DetectionRecord(e.timestamp.GetOr(now), e.score.GetOr(0.0), Sanitized(e.features.GetOr(map[])))
  }

  function ConvertHistory(history: seq<HistoryEntry>, now: real): (r: seq<DetectionRecord>)
    ensures |r| == |history|
    ensures forall i :: 0 <= i < |r| ==> r[i] == ConvertEntry(history[i], now)
  {
    seq(|history|, i requires 0 <= i < |history| => ConvertEntry(history[i], now))
  }

  /** The detections a session ends with: a non-empty supplied history
      supersedes the logged detections; an empty one keeps them. */
  function FinalDetections(logged: seq<DetectionRecord>, history: seq<HistoryEntry>, now: real)
    : seq<DetectionRecord>
  {
    if |history| > 0 then ConvertHistory(history, now) else logged
  }

  /** The record a session ends with. */
  function Finalize(s: Session, history: seq<HistoryEntry>, now: real): (r: SessionRecord)
    ensures r.session.sessionId == s.sessionId && r.session.startTime == s.startTime
    ensures r.session.detections == FinalDetections(s.detections, history, now)
    ensures r.summary.totalDetections == |r.session.detections|
    ensures r.duration == now - s.startTime
  {
    var detections := FinalDetections(s.detections, history, now);
    SessionRecord(s.(detections := detections), now, now - s.startTime, Summarize(detections))
  }

  /** The open sessions after logging `d` under `id`: unchanged when `id` is not
      open, otherwise `d` appended to that session and nothing else changed. */
  function AppendDetection(sessions: map<string, Session>, id: string, d: DetectionRecord)
    : (r: map<string, Session>)
  {
    if id in sessions then sessions[id := sessions[id].(detections := sessions[id].detections + [d])]
    else sessions
  }

  /** Logging changes only the session logged to, by exactly one detection at
      the end, and never opens or closes a session. */
  lemma AppendDetectionProperties(sessions: map<string, Session>, id: string, d: DetectionRecord)
    ensures AppendDetection(sessions, id, d).Keys == sessions.Keys
    ensures forall other :: other in sessions && other != id ==>
              AppendDetection(sessions, id, d)[other] == sessions[other]
    ensures id in sessions ==>
              var s, s' := sessions[id], AppendDetection(sessions, id, d)[id];
              && s'.detections == s.detections + [d]
              && |s'.detections| == |s.detections| + 1
              && s'.(detections := s.detections) == s
    ensures id !in sessions ==> AppendDetection(sessions, id, d) == sessions
  {
  }

  /** The conversion loop of `end_session`: each supplied entry, in order,
      becomes a logged detection with sanitised features. */
  method ConvertDetections(history: seq<HistoryEntry>, now: real) returns (converted: seq<DetectionRecord>)
    ensures converted == ConvertHistory(history, now)
  {
    converted := [];
    var i := 0;
    while i < |history|
      invariant 0 <= i <= |history|
      invariant |converted| == i
      invariant forall j :: 0 <= j < i ==> converted[j] == ConvertEntry(history[j], now)
    {
      var entry := history[i];
      var features := SanitizeFeatures(entry.features.GetOr(map[]));
      converted := converted + [DetectionRecord(entry.timestamp.GetOr(now), entry.score.GetOr(0.0), features)];
      i := i + 1;
    }
  }

  // ---------------------------------------------------------------------
  // The logger

  class DataLogger {
    /** The open sessions, by id. */
    var currentSessions: map<string, Session>
    /** The session files written so far, by session id. */
    var savedSessions: map<string, SessionRecord>

    constructor ()
      ensures currentSessions == map[] && savedSessions == map[]
    {
      currentSessions := map[];
      savedSessions := map[];
    }

    /** Opens a session under the id the uuid oracle supplied, started `now`,
        with no detections and the given (or else empty) user information. */
    method StartSession(userInfo: Option<map<string, Value>>, freshId: string, now: real)
      returns (sessionId: string)
      modifies this
      ensures sessionId == freshId
      ensures currentSessions ==
                old(currentSessions)[sessionId := Session(sessionId, now, userInfo.GetOr(map[]), [], SessionMetadata)]
      ensures savedSessions == old(savedSessions)
    {
      sessionId := freshId;
      var session := Session(sessionId, now, userInfo.GetOr(map[]), [], SessionMetadata);
      currentSessions := currentSessions[sessionId := session];
    }

    /** Appends a detection, stamped `now`, to an open session; an id that is
        not open changes nothing. */
    method LogDetection(sessionId: string, score: real, features: map<string, Value>, now: real)
      modifies this
      ensures currentSessions ==
                AppendDetection(old(currentSessions), sessionId, DetectionRecord(now, score, Sanitized(features)))
      ensures savedSessions == old(savedSessions)
    {
      if sessionId !in currentSessions {
        return;
      }
      var sanitized := SanitizeFeatures(features);
      var session := currentSessions[sessionId];
      var detection := DetectionRecord(now, score, sanitized);
      currentSessions := currentSessions[sessionId := session.(detections := session.detections + [detection])];
    }

    /** Ends an open session at `now`: a non-empty `history` supersedes the
        logged detections (converted and sanitised in order), the summary is
        computed, the record is written (when `writeSucceeds`) and the session
        is closed either way. An id that is not open changes nothing. */
    method EndSession(sessionId: string, history: seq<HistoryEntry>, now: real, writeSucceeds: bool)
      modifies this
      ensures sessionId !in old(currentSessions) ==>
                currentSessions == old(currentSessions) && savedSessions == old(savedSessions)
      ensures sessionId in old(currentSessions) ==>
                && currentSessions == old(currentSessions) - {sessionId}
                && savedSessions == if writeSucceeds
                                    then old(savedSessions)[sessionId := Finalize(old(currentSessions)[sessionId], history, now)]
                                    else old(savedSessions)
    {
      if sessionId !in currentSessions {
        return;
      }
      var session := currentSessions[sessionId];
      var detections := session.detections;

      if |history| > 0 {
        detections := ConvertDetections(history, now);
      }

      var summary := Summarize(detections);
      var record := SessionRecord(session.(detections := detections), now, now - session.startTime, summary);
      if writeSucceeds {
        savedSessions := savedSessions[sessionId := record];
      }
      currentSessions := currentSessions - {sessionId};
    }
  }

  /** A whole session: start, log each score in turn, end without a supplied
      history. The written summary counts every logged detection and reports
      their mean and maximum score. */
  method SessionLifecycle(freshId: string, scores: seq<real>, now: real)
    returns (record: SessionRecord)
    ensures record.summary.totalDetections == |scores|
    ensures Scores(record.session.detections) == scores
    ensures |scores| > 0 ==> record.summary.avgScore == Mean(scores) && record.summary.maxScore == MaxOf(scores)
    ensures |scores| == 0 ==> record.summary.avgScore == 0.0 && record.summary.maxScore == 0.0
  {
    var logger := new DataLogger();
    var id := logger.StartSession(None, freshId, now);
    var i := 0;
    while i < |scores|
      invariant 0 <= i <= |scores|
      invariant id in logger.currentSessions
      invariant logger.currentSessions[id].startTime == now
      invariant Scores(logger.currentSessions[id].detections) == scores[..i]
    {
      logger.LogDetection(id, scores[i], map[], now);
      assert scores[..i + 1] == scores[..i] + [scores[i]];
      i := i + 1;
    }
    assert scores[..i] == scores;
    logger.EndSession(id, [], now, true);
    record := logger.savedSessions[id];
    if |scores| > 0 {
      MaxOfUnique(scores, record.summary.maxScore);
    }
  }

  /** The bound that some element attains is the maximum. */
  lemma MaxOfUnique(xs: seq<real>, m: real)
    requires |xs| > 0
    requires forall i :: 0 <= i < |xs| ==> xs[i] <= m
    requires exists i :: 0 <= i < |xs| && xs[i] == m
    ensures m == MaxOf(xs)
  {
  }
}
