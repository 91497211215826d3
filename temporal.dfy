/** The temporal aggregator of the detector: the bounded first-in first-out
    feature history and the statistics computed over its most recent window
    (gaze variance, reading progression, gaze direction changes, blink rate). */
module Temporal {
  import opened Values
  import opened Stats
  import opened Features

  /** The capacity of the feature history. */
  const MaxHistory: nat := 300

  /** The number of samples the history must hold before temporal features exist. */
  const MinHistory: nat := 30

  /** An averaged eye-aspect ratio below this counts as a closed eye. */
  const BlinkThreshold: real := 0.2

  /** The last min(|s|, n) elements of `s`, in order (Python's `s[-n:]` for n > 0). */
  function LastN<T>(s: seq<T>, n: nat): (r: seq<T>)
    ensures |r| == if |s| <= n then |s| else n
    ensures r == s[|s| - |r|..]
  {
    if |s| <= n then s else s[|s| - n..]
  }

  /** One append to the history: add `f` at the end and, when the history then
      exceeds its capacity, drop the oldest record. */
  function Push<T>(history: seq<T>, f: T): seq<T>
  {
    var appended := history + [f];
    if |appended| > MaxHistory then appended[1..] else appended
  }

  /** A push onto a history within capacity keeps it within capacity, puts `f`
      last, and leaves exactly the last 300 records of the extended history. */
  lemma PushKeepsLastWindow<T>(history: seq<T>, f: T)
    requires |history| <= MaxHistory
    ensures Push(history, f) == LastN(history + [f], MaxHistory)
    ensures |Push(history, f)| <= MaxHistory
    ensures Push(history, f)[|Push(history, f)| - 1] == f
    ensures |history| < MaxHistory ==> |Push(history, f)| == |history| + 1
    ensures |history| == MaxHistory ==> Push(history, f) == history[1..] + [f]
  {
  }

  /** The history after pushing every element of `xs`, in order. */
  function PushAll<T>(history: seq<T>, xs: seq<T>): seq<T>
    decreases |xs|
  {
    if xs == [] then history else Push(PushAll(history, xs[..|xs| - 1]), xs[|xs| - 1])
  }

  /** Cutting to the last n before or after one append gives the same window. */
  lemma LastNAppend<T>(s: seq<T>, x: T, n: nat)
    requires n > 0
    ensures LastN(LastN(s, n) + [x], n) == LastN(s + [x], n)
  {
    var t := s + [x];
    if |s| > n {
      assert LastN(s, n) + [x] == s[|s| - n..] + [x];
      assert (s[|s| - n..] + [x])[1..] == t[|t| - n..];
    }
  }

  /** FIFO order: any run of pushes onto a history within capacity leaves
      exactly the last 300 records of the history followed by the pushed ones. */
  lemma {:induction false} PushAllKeepsLastWindow<T>(history: seq<T>, xs: seq<T>)
    requires |history| <= MaxHistory
    ensures PushAll(history, xs) == LastN(history + xs, MaxHistory)
    decreases |xs|
  {
    if xs == [] {
      assert history + xs == history;
    } else {
      var init, last := xs[..|xs| - 1], xs[|xs| - 1];
      PushAllKeepsLastWindow(history, init);
      var before := PushAll(history, init);
      assert |before| <= MaxHistory;
      PushKeepsLastWindow(before, last);
      LastNAppend(history + init, last, MaxHistory);
      assert history + init + [last] == history + xs;
    }
  }

  /** Pushing 301 records onto an empty history keeps the last 300 in order:
      the first one pushed is gone. */
  lemma PushingOneTooMany<T>(xs: seq<T>)
    requires |xs| == MaxHistory + 1
    ensures PushAll([], xs) == xs[1..]
    ensures |PushAll([], xs)| == MaxHistory
  {
    PushAllKeepsLastWindow([], xs);
    assert [] + xs == xs;
  }

  /** The gaze-x, gaze-y and averaged eye-aspect-ratio columns of a window. */
  function GazeXs(w: seq<FrameFeatures>): (xs: seq<real>)
    ensures |xs| == |w|
  {
    seq(|w|, i requires 0 <= i < |w| => w[i].eye.gazeX)
  }

  function GazeYs(w: seq<FrameFeatures>): (ys: seq<real>)
    ensures |ys| == |w|
  {
    seq(|w|, i requires 0 <= i < |w| => w[i].eye.gazeY)
  }

  function AvgEars(w: seq<FrameFeatures>): (es: seq<real>)
    ensures |es| == |w|
  {
    seq(|w|, i requires 0 <= i < |w| => w[i].eye.avgEar)
  }

  /** numpy's `sign`: -1, 0 or 1. */
  function Sign(x: real): int
  {
    if x > 0.0 then 1 else if x < 0.0 then -1 else 0
  }

  /** The number of adjacent pairs of `d` whose signs differ. */
  function SignChanges(d: seq<real>): nat
  {
    if |d| < 2 then 0
    else (if Sign(d[0]) != Sign(d[1]) then 1 else 0) + SignChanges(d[1..])
  }

  /** The number of gaze direction changes: sign changes between consecutive
      frame-to-frame gaze-x deltas (a zero delta beside a non-zero one counts). */
  function DirectionChanges(gaze: seq<real>): nat
  {
    SignChanges(Deltas(gaze))
  }

  /** There is at most one change per adjacent pair of deltas. */
  lemma {:induction false} SignChangesBound(d: seq<real>)
    requires |d| >= 1
    ensures SignChanges(d) <= |d| - 1
  {
    if |d| >= 2 {
      SignChangesBound(d[1..]);
    }
  }

  /** So a window of n >= 2 gaze samples has at most n - 2 direction changes. */
  lemma DirectionChangesBound(gaze: seq<real>)
    requires |gaze| >= 2
    ensures DirectionChanges(gaze) <= |gaze| - 2
  {
    SignChangesBound(Deltas(gaze));
  }

  /** Deltas that all have one sign produce no change. */
  lemma {:induction false} SameSignNoChanges(d: seq<real>, s: int)
    requires forall i :: 0 <= i < |d| ==> Sign(d[i]) == s
    ensures SignChanges(d) == 0
  {
    if |d| >= 2 {
      assert forall i :: 0 <= i < |d[1..]| ==> d[1..][i] == d[i + 1];
      SameSignNoChanges(d[1..], s);
    }
  }

  /** A gaze that holds still has no direction changes. */
  lemma ConstantGazeNoChanges(gaze: seq<real>, c: real)
    requires forall i :: 0 <= i < |gaze| ==> gaze[i] == c
    ensures DirectionChanges(gaze) == 0
  {
    SameSignNoChanges(Deltas(gaze), 0);
  }

  /** A gaze that moves steadily in one direction (strictly increasing, as in
      reading along a line) has no direction changes either. */
  lemma StrictlyIncreasingGazeNoChanges(gaze: seq<real>)
    requires forall i :: 0 <= i < |gaze| - 1 ==> gaze[i] < gaze[i + 1]
    ensures DirectionChanges(gaze) == 0
  {
    SameSignNoChanges(Deltas(gaze), 1);
  }

  /** One pause in a steady movement is two direction changes: a zero delta
      next to a non-zero one counts. */
  lemma PauseCountsTwice()
    ensures DirectionChanges([0.0, 1.0, 1.0, 2.0]) == 2
  {
    assert Deltas([0.0, 1.0, 1.0, 2.0]) == [1.0, 0.0, 1.0];
  }

  /** Sample i starts a blink: open (at or above the threshold) and then closed. */
  predicate BlinkStartsAt(ears: seq<real>, i: nat)
    requires i + 1 < |ears|
  {
    ears[i] >= BlinkThreshold && ears[i + 1] < BlinkThreshold
  }

  /** The number of open-to-closed transitions between consecutive samples. */
  function BlinkCount(ears: seq<real>): nat
  {
    if |ears| < 2 then 0
    else (if BlinkStartsAt(ears, 0) then 1 else 0) + BlinkCount(ears[1..])
  }

  /** A window that starts closed contributes no blink for its first sample. */
  lemma StartingClosedAddsNothing(ears: seq<real>)
    requires |ears| >= 1 && ears[0] < BlinkThreshold
    ensures BlinkCount(ears) == BlinkCount(ears[1..])
  {
  }

  /** Two transitions cannot start at adjacent samples, so a window of n
      samples holds at most n / 2 blinks. */
  lemma {:induction false} BlinkCountBound(ears: seq<real>)
    ensures BlinkCount(ears) <= |ears| / 2
    decreases |ears|
  {
    if |ears| >= 2 {
      var rest := ears[1..];
      BlinkCountBound(rest);
      if BlinkStartsAt(ears, 0) {
        StartingClosedAddsNothing(rest);
        BlinkCountBound(rest[1..]);
      }
    }
  }

  /** Two open-to-closed crossings count as two blinks. */
  lemma TwoCrossingsTwoBlinks()
    ensures BlinkCount([0.35, 0.18, 0.35, 0.18, 0.35]) == 2
  {
    var e := [0.35, 0.18, 0.35, 0.18, 0.35];
    assert e[1..][1..][1..][1..] == [0.35];
  }

  /** The temporal block of the features. */
  datatype TemporalFeatures = TemporalFeatures(
    gazeStabilityX: real, gazeStabilityY: real,
    readingProgression: real,
    directionChanges: nat,
    blinkRate: nat)

  /** The temporal features of a history: absent while it holds fewer than 30
      records, otherwise computed over its last (at most) 300 records. The
      blink rate is twice the blink count, the detector's scaling convention. */
  function TemporalFeaturesOf(history: seq<FrameFeatures>): (t: Option<TemporalFeatures>)
    ensures t.Some? <==> |history| >= MinHistory
  {
    if |history| < MinHistory then None
    else
      var w := LastN(history, MaxHistory);
      var gx := GazeXs(w);
      Some(TemporalFeatures(
        SampleVariance(gx), SampleVariance(GazeYs(w)),
        Mean(Deltas(gx)),
        DirectionChanges(gx),
        2 * BlinkCount(AvgEars(w))))
  }

  /** What the temporal features promise about a history of n >= 30 records
      within capacity: variances are non-negative, the reading progression is
      the net gaze-x movement over n - 1 steps, there are at most n - 2
      direction changes and at most n / 2 blinks. */
  lemma TemporalFeaturesBounds(history: seq<FrameFeatures>)
    requires MinHistory <= |history| <= MaxHistory
    ensures var t := TemporalFeaturesOf(history).value;
            var gx := GazeXs(history);
            && t.gazeStabilityX >= 0.0 && t.gazeStabilityY >= 0.0
            && t.readingProgression == (gx[|gx| - 1] - gx[0]) / ((|gx| - 1) as real)
            && t.directionChanges <= |history| - 2
            && t.blinkRate <= 2 * (|history| / 2)
  {
    assert LastN(history, MaxHistory) == history;
    VarianceNonNegative(GazeXs(history));
    VarianceNonNegative(GazeYs(history));
    MeanDeltaIsNetChange(GazeXs(history));
    DirectionChangesBound(GazeXs(history));
    BlinkCountBound(AvgEars(history));
  }

  /** A window whose gaze-x never moves has zero gaze-x variance and no
      direction changes. */
  lemma ConstantGazeIsStable(history: seq<FrameFeatures>, c: real)
    requires |history| >= MinHistory
    requires forall i :: 0 <= i < |history| ==> history[i].eye.gazeX == c
    ensures TemporalFeaturesOf(history).value.gazeStabilityX == 0.0
    ensures TemporalFeaturesOf(history).value.directionChanges == 0
    ensures TemporalFeaturesOf(history).value.readingProgression == 0.0
  {
    var w := LastN(history, MaxHistory);
    var gx := GazeXs(w);
    assert forall i :: 0 <= i < |gx| ==> gx[i] == history[|history| - |w| + i].eye.gazeX;
    VarianceOfConstant(gx, c);
    ConstantGazeNoChanges(gx, c);
    MeanDeltaIsNetChange(gx);
  }
}
