/** The scoring engine of the detector: two deterministic threshold ladders.
    The rule-based scorer (used once temporal features exist) adds the
    increments of five independent ladders and caps the total at 1; the basic
    scorer (used before that) looks only at the eye opening and the pitch. */
module Scoring {
  import opened Values
  import opened Features
  import opened Temporal

  /** The five features the scorers look up, each possibly missing from the
      feature dictionary (`features.get(key, default)`). */
  datatype ScoreInputs = ScoreInputs(
    blinkRate: Option<real>,
    gazeStabilityX: Option<real>,
    directionChanges: Option<real>,
    pitch: Option<real>,
    avgEar: Option<real>)

  /** The defaults the scorers use for missing keys. */
  const DefaultBlinkRate: real := 15.0
  const DefaultStability: real := 0.0
  const DefaultChanges: real := 0.0
  const DefaultPitch: real := 0.0

  /** The dictionary a frame's features form: the current frame's keys merged
      with the temporal ones, when there are any. */
  function InputsOf(current: FrameFeatures, temporal: Option<TemporalFeatures>): ScoreInputs
  {
    ScoreInputs(
      if temporal.Some? then Some(temporal.value.blinkRate as real) else None,
      if temporal.Some? then Some(temporal.value.gazeStabilityX) else None,
      if temporal.Some? then Some(temporal.value.directionChanges as real) else None,
      Some(current.pose.pitch),
      Some(current.eye.avgEar))
  }

  // The five ladders of the rule-based scorer.

  function BlinkIncrement(rate: real): real
  {
    if rate < 8.0 then 0.25 else if rate < 12.0 then 0.1 else if rate > 25.0 then 0.15 else 0.0
  }

  function StabilityIncrement(stability: real): real
  {
    if stability > 2000.0 then 0.3 else if stability > 1000.0 then 0.15 else 0.0
  }

  function ChangesIncrement(changes: real): real
  {
    if changes > 80.0 then 0.25 else if changes > 50.0 then 0.1 else 0.0
  }

  function PitchIncrement(pitch: real): real
  {
    if pitch < -15.0 then 0.15 else if pitch < -8.0 then 0.05 else 0.0
  }

  function EarIncrement(ear: real): real
  {
    if ear < 0.15 then 0.15 else if ear < 0.2 then 0.05 else 0.0
  }

  /** The rule-based score before the cap: the sum of the five increments. */
  function UncappedRuleScore(f: ScoreInputs): real
  {
    BlinkIncrement(f.blinkRate.GetOr(DefaultBlinkRate))
    + StabilityIncrement(f.gazeStabilityX.GetOr(DefaultStability))
    + ChangesIncrement(f.directionChanges.GetOr(DefaultChanges))
    + PitchIncrement(f.pitch.GetOr(DefaultPitch))
    + EarIncrement(f.avgEar.GetOr(DefaultEar))
  }

  function Min(a: real, b: real): real
  {
    if a <= b then a else b
  }

  /** The rule-based score: the capped sum of the five ladders. */
  function RuleScore(f: ScoreInputs): real
  {
    Min(UncappedRuleScore(f), 1.0)
  }

  /** The basic score: an eye-opening ladder plus a steep-pitch increment, capped at 1. */
  function BasicScore(f: ScoreInputs): real
  {
    var ear := f.avgEar.GetOr(DefaultEar);
    var earPart := if ear < 0.15 then 0.3 else if ear < 0.2 then 0.1 else 0.0;
    var pitchPart := if f.pitch.GetOr(DefaultPitch) < -15.0 then 0.2 else 0.0;
    Min(earPart + pitchPart, 1.0)
  }

  /** The score of a frame: rule-based when temporal features exist, basic otherwise. */
  function DifficultyScore(current: FrameFeatures, temporal: Option<TemporalFeatures>): real
  {
    if temporal.Some? then RuleScore(InputsOf(current, temporal))
    else BasicScore(InputsOf(current, None))
  }

  /** `_calculate_rule_based_score`: accumulates the ladder increments in a
      running score and caps it. */
  method CalculateRuleBasedScore(f: ScoreInputs) returns (score: real)
    ensures score == RuleScore(f)
    ensures 0.0 <= score <= 1.0
  {
    score := 0.0;

    var blinkRate := f.blinkRate.GetOr(DefaultBlinkRate);
    if blinkRate < 8.0 {
      score := score + 0.25;
    } else if blinkRate < 12.0 {
      score := score + 0.1;
    } else if blinkRate > 25.0 {
      score := score + 0.15;
    }

    var stability := f.gazeStabilityX.GetOr(DefaultStability);
    if stability > 2000.0 {
      score := score + 0.3;
    } else if stability > 1000.0 {
      score := score + 0.15;
    }

    var changes := f.directionChanges.GetOr(DefaultChanges);
    if changes > 80.0 {
      score := score + 0.25;
    } else if changes > 50.0 {
      score := score + 0.1;
    }

    var pitch := f.pitch.GetOr(DefaultPitch);
    if pitch < -15.0 {
      score := score + 0.15;
    } else if pitch < -8.0 {
      score := score + 0.05;
    }

    var ear := f.avgEar.GetOr(DefaultEar);
    if ear < 0.15 {
      score := score + 0.15;
    } else if ear < 0.2 {
      score := score + 0.05;
    }

    score := Min(score, 1.0);
  }

  /** `_calculate_basic_score`: the same accumulation over two ladders. */
  method CalculateBasicScore(f: ScoreInputs) returns (score: real)
    ensures score == BasicScore(f)
    ensures 0.0 <= score <= 0.5
  {
    score := 0.0;

    var ear := f.avgEar.GetOr(DefaultEar);
    if ear < 0.15 {
      score := score + 0.3;
    } else if ear < 0.2 {
      score := score + 0.1;
    }

    var pitch := f.pitch.GetOr(DefaultPitch);
    if pitch < -15.0 {
      score := score + 0.2;
    }

    score := Min(score, 1.0);
  }

  /** Each ladder contributes between 0 and its own top increment, so the
      uncapped sum lies in [0, 1.1] and the score in [0, 1]. */
  lemma RuleScoreBounds(f: ScoreInputs)
    ensures 0.0 <= UncappedRuleScore(f) <= 1.1
    ensures 0.0 <= RuleScore(f) <= 1.0
    ensures UncappedRuleScore(f) <= 1.0 ==> RuleScore(f) == UncappedRuleScore(f)
  {
  }

  /** The cap matters: the worst case of every ladder at once sums to 1.1 and
      is scored 1. */
  lemma CapReached()
    ensures var worst := ScoreInputs(Some(0.0), Some(3000.0), Some(100.0), Some(-20.0), Some(0.1));
            UncappedRuleScore(worst) == 1.1 && RuleScore(worst) == 1.0
  {
  }

  /** The missing-key defaults (blink rate 15, stability 0, changes 0, pitch 0,
      eye-aspect ratio 0.3) contribute nothing to either score. */
  lemma DefaultsContributeNothing()
    ensures RuleScore(ScoreInputs(None, None, None, None, None)) == 0.0
    ensures BasicScore(ScoreInputs(None, None, None, None, None)) == 0.0
  {
  }

  /** The basic score lies in [0, 0.5]: its cap never binds. */
  lemma BasicScoreBounds(f: ScoreInputs)
    ensures 0.0 <= BasicScore(f) <= 0.5
  {
  }

  /** Every score the detector produces lies in [0, 1], in either mode. */
  lemma DifficultyScoreInUnitRange(current: FrameFeatures, temporal: Option<TemporalFeatures>)
    ensures 0.0 <= DifficultyScore(current, temporal) <= 1.0
  {
    RuleScoreBounds(InputsOf(current, temporal));
    BasicScoreBounds(InputsOf(current, None));
  }

  /** Mode selection: the rule-based ladder is used exactly when the history
      holds at least 30 records. */
  lemma ModeSelection(history: seq<FrameFeatures>, current: FrameFeatures)
    ensures var t := TemporalFeaturesOf(history);
            && (|history| >= MinHistory ==> DifficultyScore(current, t) == RuleScore(InputsOf(current, t)))
            && (|history| < MinHistory ==> DifficultyScore(current, t) == BasicScore(InputsOf(current, None)))
  {
  }

  /** The end-to-end scenario of a calm reader: two blinks in the window (rate
      4), a gaze that holds still, open eyes and a level head score exactly
      0.25, all of it from the low blink rate. */
  lemma CalmReaderScenario(history: seq<FrameFeatures>, c: real)
    requires MinHistory <= |history| <= MaxHistory
    requires forall i :: 0 <= i < |history| ==> history[i].eye.gazeX == c
    requires BlinkCount(AvgEars(history)) == 2
    requires history[|history| - 1].eye.avgEar >= 0.2
    requires history[|history| - 1].pose.pitch >= -8.0
    ensures DifficultyScore(history[|history| - 1], TemporalFeaturesOf(history)) == 0.25
  {
    ConstantGazeIsStable(history, c);
    assert LastN(history, MaxHistory) == history;
  }
}
