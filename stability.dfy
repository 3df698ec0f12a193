/**
 * `StabilityCalculator` of the backend: a bounded history of pen positions,
 * jitter as the combined population standard deviation of their x and y
 * coordinates, and a 0-100 score with a stable / warning / unstable level.
 * The thresholds are the defaults of the backend settings (window 30, low
 * threshold 5, high threshold 15).
 */
module Stability {
  import opened Wrappers
  import opened Numeric
  import opened Geometry
  import opened Statistics
  import opened Rolling
  import Jitter

  const DefaultWindowSize: nat := 30
  const JitterThresholdLow: real := 5.0
  const JitterThresholdHigh: real := 15.0

  /**
   * `window_size or settings.stability_window_size`: a missing or zero window
   * falls back to the default, so the history is never unbounded or empty.
   */
  function WindowSize(requested: Option<int>): (w: nat)
    requires requested.None? || requested.value >= 0
    ensures 0 < w
    ensures requested.Some? && requested.value > 0 ==> w == requested.value
  {
    if requested.None? || requested.value == 0 then DefaultWindowSize else requested.value
  }

  /** A sum of non-negative values is non-negative. */
  lemma {:induction false} SumNonNegative(s: seq<real>)
    requires forall i :: 0 <= i < |s| ==> 0.0 <= s[i]
    ensures 0.0 <= Sum(s)
  {
    if |s| > 0 {
      SumNonNegative(s[..|s| - 1]);
    }
  }

  /** The squared deviations of the values from `m`. */
  function SquaredDeviations(s: seq<real>, m: real): (d: seq<real>)
    ensures |d| == |s|
    ensures forall i :: 0 <= i < |s| ==> d[i] == Sq(s[i] - m) && 0.0 <= d[i]
  {
    seq(|s|, i requires 0 <= i < |s| => SquarePositive(s[i] - m); Sq(s[i] - m))
  }

  /** `np.std(values) ** 2`: the population variance, the mean squared deviation from the mean. */
  function Variance(s: seq<real>): (v: real)
    requires |s| > 0
    ensures 0.0 <= v
  {
    var d := SquaredDeviations(s, Mean(s));
    SumNonNegative(d);
    Mean(d)
  }

  /** Values that are all equal have no variance. */
  lemma VarianceOfConstant(s: seq<real>, c: real)
    requires |s| > 0
    requires forall i :: 0 <= i < |s| ==> s[i] == c
    ensures Variance(s) == 0.0
  {
    MeanOfConstant(s, c);
    var d := SquaredDeviations(s, c);
    forall i | 0 <= i < |d|
      ensures d[i] == 0.0
    {
      assert s[i] - c == 0.0;
    }
    MeanOfConstant(d, 0.0);
  }

  function PixelXs(ps: seq<Pixel>): (xs: seq<real>)
    ensures |xs| == |ps| && forall i :: 0 <= i < |ps| ==> xs[i] == ps[i].x as real
  {
    seq(|ps|, i requires 0 <= i < |ps| => ps[i].x as real)
  }

  function PixelYs(ps: seq<Pixel>): (ys: seq<real>)
    ensures |ys| == |ps| && forall i :: 0 <= i < |ps| ==> ys[i] == ps[i].y as real
  {
    seq(|ps|, i requires 0 <= i < |ps| => ps[i].y as real)
  }

  /**
   * `calculate_jitter()`: 0 for fewer than two positions, otherwise
   * `sqrt(std_x ** 2 + std_y ** 2)`.
   */
  function StdJitter(ps: seq<Pixel>, sqrt: real -> real): (j: real)
    requires IsSqrt(sqrt)
    ensures 0.0 <= j
    ensures |ps| < 2 ==> j == 0.0
  {
    if |ps| < 2 then 0.0
    else
      var stdX := sqrt(Variance(PixelXs(ps)));
      var stdY := sqrt(Variance(PixelYs(ps)));
      SquarePositive(stdX);
      SquarePositive(stdY);
      sqrt(Sq(stdX) + Sq(stdY))
  }

  /** Squaring the standard deviations gives back the variances: jitter is the root of their sum. */
  lemma StdJitterIsRootOfVariance(ps: seq<Pixel>, sqrt: real -> real)
    requires IsSqrt(sqrt) && |ps| >= 2
    ensures StdJitter(ps, sqrt) == sqrt(Variance(PixelXs(ps)) + Variance(PixelYs(ps)))
  {
    var vx, vy := Variance(PixelXs(ps)), Variance(PixelYs(ps));
    assert Sq(sqrt(vx)) == vx && Sq(sqrt(vy)) == vy;
  }

  /** A pen that has not moved has no jitter. */
  lemma StillPenHasNoJitter(ps: seq<Pixel>, sqrt: real -> real)
    requires IsSqrt(sqrt)
    requires forall i :: 0 <= i < |ps| ==> ps[i] == ps[0]
    ensures StdJitter(ps, sqrt) == 0.0
  {
    if |ps| >= 2 {
      VarianceOfConstant(PixelXs(ps), ps[0].x as real);
      VarianceOfConstant(PixelYs(ps), ps[0].y as real);
      StdJitterIsRootOfVariance(ps, sqrt);
      SqrtZeroIff(sqrt, 0.0);
    }
  }

  /** The level for a jitter value: inclusive at the low threshold, and from the high threshold on. */
  function StabilityLevelOf(jitter: real): (level: Jitter.StabilityLevel)
    ensures level == Jitter.Stable <==> jitter <= JitterThresholdLow
    ensures level == Jitter.Unstable <==> jitter >= JitterThresholdHigh
    ensures level == Jitter.Warning <==> JitterThresholdLow < jitter < JitterThresholdHigh
  {
    if jitter <= JitterThresholdLow then Jitter.Stable
    else if jitter >= JitterThresholdHigh then Jitter.Unstable
    else Jitter.Warning
  }

  /** The warning branch's `int(100 - ratio * 50)` for jitter between the thresholds. */
  function WarningScore(jitter: real): (score: int)
    requires JitterThresholdLow < jitter < JitterThresholdHigh
    ensures 50 <= score <= 100
  {
    var ratio := (jitter - JitterThresholdLow) / (JitterThresholdHigh - JitterThresholdLow);
    var raw := 100.0 - ratio * 50.0;
    assert 50.0 < raw < 100.0;
    Trunc(raw)
  }

  /**
   * `calculate_stability_score()` as written: in the unstable branch the
   * score is `max(0, int(100 - (jitter - high) * 5))`, measured from the
   * high threshold and starting again at 100 there.
   */
  function ScoreAsWritten(jitter: real): (result: (int, Jitter.StabilityLevel))
    ensures 0 <= result.0 <= 100
    ensures result.1 == StabilityLevelOf(jitter)
  {
    if jitter <= JitterThresholdLow then (100, Jitter.Stable)
    else if jitter >= JitterThresholdHigh then
      (Max(0, Trunc(100.0 - (jitter - JitterThresholdHigh) * 5.0)), Jitter.Unstable)
    else (WarningScore(jitter), Jitter.Warning)
  }

  /**
   * As written, the score jumps back up at the high threshold: a jitter of
   * 14.9 scores 50 ("warning"), a larger jitter of 15 scores 100 ("unstable").
   */
  lemma ScoreAsWrittenRisesAtHighThreshold()
    ensures ScoreAsWritten(14.9).0 == 50
    ensures ScoreAsWritten(15.0) == (100, Jitter.Unstable)
  {
    assert 100.0 - (14.9 - JitterThresholdLow) / (JitterThresholdHigh - JitterThresholdLow) * 50.0 == 50.5;
    assert Trunc(50.5) == 50;
    assert Trunc(100.0) == 100;
  }

  /**
   * The corrected unstable branch, measured from the low threshold:
   * `max(0, int(100 - (jitter - low) * 5))`, which is 50 at the high
   * threshold, where the warning branch ends, and 0 from a jitter of 25.
   */
  function UnstableScore(jitter: real): (score: int)
    requires JitterThresholdHigh <= jitter
    ensures 0 <= score <= 50
    ensures 25.0 <= jitter ==> score == 0
  {
    var raw := 100.0 - (jitter - JitterThresholdLow) * 5.0;
    TruncMonotone(raw, 50.0);
    TruncOfInt(50);
    TruncOfInt(0);
    if raw <= 0.0 then
      TruncMonotone(raw, 0.0);
      Max(0, Trunc(raw))
    else Max(0, Trunc(raw))
  }

  /** The corrected `calculate_stability_score()`. */
  function Score(jitter: real): (result: (int, Jitter.StabilityLevel))
    ensures 0 <= result.0 <= 100
    ensures result.1 == StabilityLevelOf(jitter)
    ensures jitter <= JitterThresholdLow ==> result.0 == 100
    ensures JitterThresholdLow < jitter < JitterThresholdHigh ==> 50 <= result.0 <= 100
    ensures JitterThresholdHigh <= jitter ==> result.0 <= 50
    ensures 25.0 <= jitter ==> result.0 == 0
  {
    if jitter <= JitterThresholdLow then (100, Jitter.Stable)
    else if jitter >= JitterThresholdHigh then (UnstableScore(jitter), Jitter.Unstable)
    else (WarningScore(jitter), Jitter.Warning)
  }

  /** The corrected score never rises as the jitter grows. */
  lemma ScoreMonotone(a: real, b: real)
    requires a <= b
    ensures Score(b).0 <= Score(a).0
  {
    if JitterThresholdLow < a < JitterThresholdHigh && JitterThresholdLow < b < JitterThresholdHigh {
      var ra := (a - JitterThresholdLow) / (JitterThresholdHigh - JitterThresholdLow);
      var rb := (b - JitterThresholdLow) / (JitterThresholdHigh - JitterThresholdLow);
      assert ra <= rb;
      TruncMonotone(100.0 - rb * 50.0, 100.0 - ra * 50.0);
    } else if JitterThresholdHigh <= a {
      TruncMonotone(100.0 - (b - JitterThresholdLow) * 5.0, 100.0 - (a - JitterThresholdLow) * 5.0);
    }
  }

  /** `get_stability_data()` without the rounding of the jitter for display. */
  datatype StabilityData = StabilityData(score: int, level: Jitter.StabilityLevel, jitter: real)

  class StabilityCalculator {
    const windowSize: nat
    const sqrt: real -> real
    var positions: seq<Pixel>

    constructor(requested: Option<int>, sqrt: real -> real)
      requires requested.None? || requested.value >= 0
      ensures windowSize == WindowSize(requested) && positions == [] && this.sqrt == sqrt
    {
      windowSize := WindowSize(requested);
      this.sqrt := sqrt;
      positions := [];
    }

    /** `add_position(x, y)`: append to the bounded history, dropping the oldest when full. */
    method AddPosition(x: int, y: int)
      requires 0 < windowSize
      modifies this
      ensures positions == PushBounded(old(positions), Pixel(x, y), windowSize)
      ensures |positions| <= windowSize && positions[|positions| - 1] == Pixel(x, y)
    {
      PushBoundedNewest(positions, Pixel(x, y), windowSize);
      positions := PushBounded(positions, Pixel(x, y), windowSize);
    }

    /** `calculate_jitter()`: 0 for fewer than two positions, otherwise the root of the summed variances. */
    function CalculateJitter(): (j: real)
      requires IsSqrt(sqrt)
      reads this
      ensures 0.0 <= j
      ensures |positions| < 2 ==> j == 0.0
      ensures |positions| >= 2 ==> j == sqrt(Variance(PixelXs(positions)) + Variance(PixelYs(positions)))
    {
      if |positions| >= 2 then
        StdJitterIsRootOfVariance(positions, sqrt);
        StdJitter(positions, sqrt)
      else StdJitter(positions, sqrt)
    }

    /** `calculate_stability_score()`, with the unstable branch corrected. */
    function CalculateStabilityScore(): (r: (int, Jitter.StabilityLevel))
      requires IsSqrt(sqrt)
      reads this
      ensures r == Score(CalculateJitter())
      ensures 0 <= r.0 <= 100 && r.1 == StabilityLevelOf(CalculateJitter())
      ensures |positions| < 2 ==> r == (100, Jitter.Stable)
    {
      Score(CalculateJitter())
    }

    /** `get_stability_data()`. */
    function GetStabilityData(): (data: StabilityData)
      requires IsSqrt(sqrt)
      reads this
      ensures data.jitter == CalculateJitter()
      ensures (data.score, data.level) == Score(data.jitter)
      ensures data.level == StabilityLevelOf(data.jitter) && 0 <= data.score <= 100
      ensures |positions| < 2 ==> data == StabilityData(100, Jitter.Stable, 0.0)
    {
      var (score, level) := CalculateStabilityScore();
      StabilityData(score, level, CalculateJitter())
    }

    /** `reset()`: empty the history. */
    method Reset()
      modifies this
      ensures positions == []
    {
      positions := [];
    }
  }
}
