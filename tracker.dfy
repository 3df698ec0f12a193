/**
 * `JitterTracker`, `HoldMetrics` and `FollowMetrics` of the A/B game: a
 * tick-driven accumulator of jitter and lateral jitter over bounded and
 * unbounded histories.
 *
 * `TrackerState` holds every field of a tracker and `Step` is what one
 * `update` does to them; the class `JitterTracker` performs the same update in
 * place and is proved to agree with `Step`.
 */
module Tracker {
  import opened Wrappers
  import opened Numeric
  import opened Geometry
  import opened Statistics
  import opened Rolling
  import opened Smoothing
  import opened Jitter

  const PositionsCapacity: nat := 300
  const RollingCapacity: nat := 30

  /**
   * The fields of a `JitterTracker`. The source also keeps the mean and 95th
   * percentile of each rolling window in fields that it recomputes after
   * every append; here they are the functions `AvgJitter` and the like, which
   * always hold the same values.
   */
  datatype TrackerState = TrackerState(
    positions: seq<Point>,
    jitterValues: seq<real>,
    lateralJitterValues: seq<real>,
    rollingJitter: seq<real>,
    rollingLateralJitter: seq<real>,
    currentJitter: real,
    currentLateralJitter: real,
    framesTotal: nat,
    framesMarkerFound: nat)
  {
    function AvgJitter(): real { WindowMean(rollingJitter) }
    function AvgLateralJitter(): real { WindowMean(rollingLateralJitter) }
    function P95Jitter(): real { Percentile(rollingJitter, 95.0) }
    function P95LateralJitter(): real { Percentile(rollingLateralJitter, 95.0) }
  }
  /** The state `reset` leaves behind. */
  function InitialTracker(): TrackerState {
    TrackerState([], [], [], [], [], 0.0, 0.0, 0, 0)
  }

  /** The newest value of a history, 0.0 while it is empty. */
  function Newest(history: seq<real>): real {
    if |history| == 0 then 0.0 else history[|history| - 1]
  }

  /** The last `min(|history|, 30)` values of `history`. */
  function LastWindow(history: seq<real>): (w: seq<real>)
    ensures |w| == Min(|history|, RollingCapacity)
  {
    history[|history| - Min(|history|, RollingCapacity)..]
  }

  /** `window` holds the last `min(|history|, 30)` values of `history`. */
  predicate IsRollingWindow(window: seq<real>, history: seq<real>) {
    |window| == Min(|history|, RollingCapacity) && window == history[|history| - |window|..]
  }

  /**
   * Buffer bounds and warm-up: at most 300 positions, and jitter recorded
   * only from the tenth stored position on, once per stored position.
   */
  predicate CountsInvariant(s: TrackerState) {
    && |s.positions| == Min(s.framesMarkerFound, PositionsCapacity)
    && |s.jitterValues| == Max(0, s.framesMarkerFound - (SmoothingWindow - 1))
    && |s.lateralJitterValues| == |s.jitterValues|
    && s.framesMarkerFound <= s.framesTotal
  }

  /**
   * Both histories grow together, lateral jitter is never above total jitter,
   * and the rolling windows are the last 30 values of the histories.
   */
  predicate HistoryInvariant(s: TrackerState) {
    && |s.lateralJitterValues| == |s.jitterValues|
    && (forall i :: 0 <= i < |s.jitterValues| ==> 0.0 <= s.lateralJitterValues[i] <= s.jitterValues[i])
    && IsRollingWindow(s.rollingJitter, s.jitterValues)
    && IsRollingWindow(s.rollingLateralJitter, s.lateralJitterValues)
  }

  /** The current values are the newest of the histories. */
  predicate MetricsInvariant(s: TrackerState) {
    && s.currentJitter == Newest(s.jitterValues)
    && s.currentLateralJitter == Newest(s.lateralJitterValues)
  }

  /** What every reachable tracker state satisfies. */
  predicate TrackerInvariant(s: TrackerState) {
    CountsInvariant(s) && HistoryInvariant(s) && MetricsInvariant(s)
  }

  /**
   * Records one jitter value and its lateral part: each becomes the current
   * value and joins its history and its rolling window.
   */
  function Record(s: TrackerState, jitter: real, lateral: real): TrackerState {
    s.(
      currentJitter := jitter,
      jitterValues := s.jitterValues + [jitter],
      rollingJitter := PushBounded(s.rollingJitter, jitter, RollingCapacity),
      currentLateralJitter := lateral,
      lateralJitterValues := s.lateralJitterValues + [lateral],
      rollingLateralJitter := PushBounded(s.rollingLateralJitter, lateral, RollingCapacity))
  }

  /** A present marker is counted and stored in the bounded position buffer. */
  function StoreMarker(s: TrackerState, p: Point): TrackerState {
    s.(framesMarkerFound := s.framesMarkerFound + 1, positions := PushBounded(s.positions, p, PositionsCapacity))
  }

  /**
   * The jitter of the newest marker `p` against the mean of the last ten
   * stored positions, and its lateral part.
   */
  function Measure(ps: seq<Point>, p: Point, sqrt: real -> real): (m: (real, real))
    requires IsSqrt(sqrt) && SmoothingWindow <= |ps|
    ensures 0.0 <= m.1 <= m.0
  {
    var smoothed := Centroid(ps[|ps| - SmoothingWindow..]);
    (RecentJitter(ps, p, SmoothingWindow, sqrt), LateralJitter(ps, p, smoothed, sqrt))
  }

  /**
   * What happens once marker `p` is stored: 0.0 and nothing recorded before
   * ten positions are stored, otherwise its measurement is recorded and
   * returned.
   */
  function Observe(s: TrackerState, p: Point, sqrt: real -> real): (TrackerState, real)
    requires IsSqrt(sqrt)
  {
    if |s.positions| < SmoothingWindow then (s, 0.0)
    else
      var m := Measure(s.positions, p, sqrt);
      (Record(s, m.0, m.1), m.0)
  }

  /** Every `update` counts the frame first. */
  function CountFrame(s: TrackerState): TrackerState {
    s.(framesTotal := s.framesTotal + 1)
  }

  /**
   * One `JitterTracker.update(position)`: the new state and the returned
   * jitter. Every call counts a frame; a missing marker returns the previous
   * jitter; a present one is stored and observed.
   */
  function Step(s: TrackerState, position: Option<Point>, sqrt: real -> real): (r: (TrackerState, real))
    requires IsSqrt(sqrt)
    ensures r.0.framesTotal == s.framesTotal + 1
    ensures r.0.framesMarkerFound == s.framesMarkerFound + (if position.Some? then 1 else 0)
  {
    var counted := CountFrame(s);
    match position
    case None => (counted, s.currentJitter)
    case Some(p) => Observe(StoreMarker(counted, p), p, sqrt)
  }

  lemma InitialTrackerInvariant()
    ensures TrackerInvariant(InitialTracker())
  {
  }

  /** Pushing a new value keeps a rolling window the tail of its growing history. */
  lemma {:induction false} RollingWindowPush(window: seq<real>, history: seq<real>, x: real)
    requires IsRollingWindow(window, history)
    ensures IsRollingWindow(PushBounded(window, x, RollingCapacity), history + [x])
  {
    var r := PushBounded(window, x, RollingCapacity);
    var h := history + [x];
    assert r == (window + [x])[|window| + 1 - |r|..];
    assert |r| == Min(|h|, RollingCapacity);
    forall i | 0 <= i < |r|
      ensures r[i] == h[|h| - |r| + i]
    {
      var k := |window| + 1 - |r| + i;
      if k < |window| {
        assert r[i] == window[k] == history[|history| - |window| + k];
      }
    }
  }

  /** Appending a pair whose lateral part is within its jitter keeps every pair so. */
  lemma {:induction false} LateralWithinPush(jitters: seq<real>, laterals: seq<real>, jitter: real, lateral: real)
    requires |laterals| == |jitters| && 0.0 <= lateral <= jitter
    requires forall i :: 0 <= i < |jitters| ==> 0.0 <= laterals[i] <= jitters[i]
    ensures forall i :: 0 <= i < |jitters| + 1 ==> 0.0 <= (laterals + [lateral])[i] <= (jitters + [jitter])[i]
  {
    forall i | 0 <= i < |jitters| + 1
      ensures 0.0 <= (laterals + [lateral])[i] <= (jitters + [jitter])[i]
    {
      if i < |jitters| {
        assert (laterals + [lateral])[i] == laterals[i];
        assert (jitters + [jitter])[i] == jitters[i];
      }
    }
  }

  /** Recording a lateral part within the jitter keeps the histories in step with each other and with their windows. */
  lemma RecordKeepsHistories(s: TrackerState, jitter: real, lateral: real)
    requires HistoryInvariant(s) && 0.0 <= lateral <= jitter
    ensures HistoryInvariant(Record(s, jitter, lateral))
  {
    RollingWindowPush(s.rollingJitter, s.jitterValues, jitter);
    RollingWindowPush(s.rollingLateralJitter, s.lateralJitterValues, lateral);
    LateralWithinPush(s.jitterValues, s.lateralJitterValues, jitter, lateral);
  }

  /** After recording, the current, mean and percentile values are those of the new histories and windows. */
  lemma RecordSetsMetrics(s: TrackerState, jitter: real, lateral: real)
    ensures MetricsInvariant(Record(s, jitter, lateral))
  {
  }

  /** Every step keeps the counters and buffer lengths consistent. */
  lemma StepKeepsCounts(s: TrackerState, position: Option<Point>, sqrt: real -> real)
    requires IsSqrt(sqrt) && CountsInvariant(s)
    ensures CountsInvariant(Step(s, position, sqrt).0)
  {
  }

  /** `update` keeps the invariant. */
  lemma StepKeepsInvariant(s: TrackerState, position: Option<Point>, sqrt: real -> real)
    requires IsSqrt(sqrt) && TrackerInvariant(s)
    ensures TrackerInvariant(Step(s, position, sqrt).0)
  {
    StepKeepsCounts(s, position, sqrt);
    if position.Some? {
      var p := position.value;
      var ps := PushBounded(s.positions, p, PositionsCapacity);
      if SmoothingWindow <= |ps| {
        var stored := StoreMarker(CountFrame(s), p);
        var m := Measure(ps, p, sqrt);
        RecordKeepsHistories(stored, m.0, m.1);
        RecordSetsMetrics(stored, m.0, m.1);
      }
    }
  }

  /** A frame with a marker counts the frame, then stores and observes the marker. */
  lemma StepWithMarker(s: TrackerState, p: Point, sqrt: real -> real)
    requires IsSqrt(sqrt)
    ensures Step(s, Some(p), sqrt) == Observe(StoreMarker(CountFrame(s), p), p, sqrt)
  {
  }

  /** A frame without a marker only counts the frame and returns the previous jitter. */
  lemma StepWithoutMarker(s: TrackerState, sqrt: real -> real)
    requires IsSqrt(sqrt)
    ensures Step(s, None, sqrt).0 == CountFrame(s)
    ensures Step(s, None, sqrt).1 == s.currentJitter
  {
  }

  /**
   * Warm-up: until the tenth marker is stored, `update` returns 0.0 and
   * records no jitter.
   */
  lemma StepDuringWarmUp(s: TrackerState, p: Point, sqrt: real -> real)
    requires IsSqrt(sqrt) && TrackerInvariant(s)
    requires s.framesMarkerFound + 1 < SmoothingWindow
    ensures Step(s, Some(p), sqrt).1 == 0.0
    ensures Step(s, Some(p), sqrt).0.jitterValues == s.jitterValues == []
    ensures Step(s, Some(p), sqrt).0.positions == s.positions + [p]
  {
  }

  /**
   * From the tenth marker on, `update` returns the distance from the marker
   * to the mean of the last ten stored positions and records it, with its
   * lateral part, in both histories.
   */
  lemma StepAfterWarmUp(s: TrackerState, p: Point, sqrt: real -> real)
    requires IsSqrt(sqrt) && TrackerInvariant(s)
    requires SmoothingWindow <= s.framesMarkerFound + 1
    ensures var t := Step(s, Some(p), sqrt).0;
      var ps := PushBounded(s.positions, p, PositionsCapacity);
      && t.jitterValues == s.jitterValues + [Step(s, Some(p), sqrt).1]
      && |t.lateralJitterValues| == |t.jitterValues|
      && Step(s, Some(p), sqrt).1 == RecentJitter(ps, p, SmoothingWindow, sqrt)
      && t.currentLateralJitter <= t.currentJitter
  {
    PushBoundedNewest(s.positions, p, PositionsCapacity);
  }

  /** The jitter `update` returns is never negative. */
  lemma StepJitterNonNegative(s: TrackerState, position: Option<Point>, sqrt: real -> real)
    requires IsSqrt(sqrt) && TrackerInvariant(s)
    ensures 0.0 <= Step(s, position, sqrt).1
  {
    if s.framesMarkerFound > 0 && |s.jitterValues| > 0 {
      assert 0.0 <= s.lateralJitterValues[|s.jitterValues| - 1] <= s.jitterValues[|s.jitterValues| - 1];
    }
  }

  /** The running 95th percentile and mean are non-negative and bounded by any bound on the recorded jitter. */
  lemma RollingMetricsWithinHistory(s: TrackerState, hi: real)
    requires TrackerInvariant(s)
    requires forall i :: 0 <= i < |s.jitterValues| ==> s.jitterValues[i] <= hi
    ensures 0.0 <= s.P95Jitter() && 0.0 <= s.AvgJitter()
    ensures |s.jitterValues| > 0 ==> s.P95Jitter() <= hi && s.AvgJitter() <= hi
  {
    var w := s.rollingJitter;
    if |w| > 0 {
      forall i | 0 <= i < |w|
        ensures 0.0 <= w[i] <= hi
      {
        assert w[i] == s.jitterValues[|s.jitterValues| - |w| + i];
      }
      PercentileWithin(w, 95.0, 0.0, hi);
      MeanBounds(w, 0.0, hi);
    }
  }

  class JitterTracker {
    const sqrt: real -> real
    var positions: seq<Point>
    var jitterValues: seq<real>
    var lateralJitterValues: seq<real>
    var rollingJitter: seq<real>
    var rollingLateralJitter: seq<real>
    var currentJitter: real
    var currentLateralJitter: real
    var framesTotal: nat
    var framesMarkerFound: nat

    /** All fields as one value. */
    ghost function State(): TrackerState
      reads this
    {
      TrackerState(positions, jitterValues, lateralJitterValues, rollingJitter, rollingLateralJitter,
        currentJitter, currentLateralJitter,
        framesTotal, framesMarkerFound)
    }

    ghost predicate Valid()
      reads this
    {
      IsSqrt(sqrt) && TrackerInvariant(State())
    }

    constructor(sqrt: real -> real)
      requires IsSqrt(sqrt)
      ensures Valid() && this.sqrt == sqrt
      ensures State() == InitialTracker()
    {
      this.sqrt := sqrt;
      positions, jitterValues, lateralJitterValues := [], [], [];
      rollingJitter, rollingLateralJitter := [], [];
      currentJitter, currentLateralJitter := 0.0, 0.0;
      framesTotal, framesMarkerFound := 0, 0;
    }

    /** `reset`: empty buffers, zero metrics and counters. */
    method Reset()
      requires IsSqrt(sqrt)
      modifies this
      ensures Valid()
      ensures State() == InitialTracker()
    {
      ClearHistory();
      ClearRolling();
      ResetMetrics();
    }

    /** Empties the position buffer and the full jitter histories. */
    method ClearHistory()
      modifies this
      ensures State() == old(State()).(positions := [], jitterValues := [], lateralJitterValues := [])
    {
      positions, jitterValues, lateralJitterValues := [], [], [];
    }

    /** Empties both rolling windows. */
    method ClearRolling()
      modifies this
      ensures State() == old(State()).(rollingJitter := [], rollingLateralJitter := [])
    {
      rollingJitter, rollingLateralJitter := [], [];
    }

    /** Zeroes the current metrics and the counters. */
    method ResetMetrics()
      modifies this
      ensures State() == old(State()).(currentJitter := 0.0, currentLateralJitter := 0.0,
                                       framesTotal := 0, framesMarkerFound := 0)
    {
      currentJitter, currentLateralJitter := 0.0, 0.0;
      framesTotal, framesMarkerFound := 0, 0;
    }

    /** `update(position)`, in place. */
    method Update(position: Option<Point>) returns (jitter: real)
      requires Valid()
      modifies this
      ensures Valid()
      ensures (State(), jitter) == Step(old(State()), position, sqrt)
    {
      ghost var s0 := State();
      framesTotal := framesTotal + 1;
      assert State() == CountFrame(s0);
      if position.None? {
        jitter := currentJitter;
      } else {
        StorePosition(position.value);
        jitter := ObservePosition(position.value);
        StepWithMarker(s0, position.value, sqrt);
      }
      StepKeepsInvariant(s0, position, sqrt);
    }

    /** Counts and stores a present marker. */
    method StorePosition(p: Point)
      modifies this
      ensures State() == StoreMarker(old(State()), p)
    {
      framesMarkerFound := framesMarkerFound + 1;
      positions := PushBounded(positions, p, PositionsCapacity);
    }

    /** Measures and records the newest stored marker once ten are stored. */
    method ObservePosition(p: Point) returns (jitter: real)
      requires IsSqrt(sqrt)
      modifies this
      ensures (State(), jitter) == Observe(old(State()), p, sqrt)
    {
      if |positions| < SmoothingWindow {
        return 0.0;
      }
      var m := Measure(positions, p, sqrt);
      jitter := m.0;
      RecordValues(m.0, m.1);
    }

    /**
     * The recording half of `update`: each value becomes current and joins
     * its history and rolling window, whose mean and 95th percentile are
     * recomputed.
     */
    method RecordValues(jitter: real, lateral: real)
      modifies this
      ensures State() == Record(old(State()), jitter, lateral)
    {
      currentJitter := jitter;
      jitterValues := jitterValues + [jitter];
      rollingJitter := PushBounded(rollingJitter, jitter, RollingCapacity);
      currentLateralJitter := lateral;
      lateralJitterValues := lateralJitterValues + [lateral];
      rollingLateralJitter := PushBounded(rollingLateralJitter, lateral, RollingCapacity);
    }

    /** `avg_jitter`: the mean of the last 30 jitter values of the session, 0.0 before the first. */
    function AvgJitter(): (a: real)
      reads this
      ensures Valid() ==> a == WindowMean(LastWindow(jitterValues))
    {
      WindowMean(rollingJitter)
    }

    /** `avg_lateral_jitter`: the mean of the last 30 lateral jitter values, 0.0 before the first. */
    function AvgLateralJitter(): (a: real)
      reads this
      ensures Valid() ==> a == WindowMean(LastWindow(lateralJitterValues))
    {
      WindowMean(rollingLateralJitter)
    }

    /** `p95_jitter`: the 95th percentile of the last 30 jitter values, 0.0 before the first. */
    function P95Jitter(): (p: real)
      reads this
      ensures Valid() ==> p == Percentile(LastWindow(jitterValues), 95.0)
    {
      Percentile(rollingJitter, 95.0)
    }

    /** `p95_lateral_jitter`: the 95th percentile of the last 30 lateral jitter values, 0.0 before the first. */
    function P95LateralJitter(): (p: real)
      reads this
      ensures Valid() ==> p == Percentile(LastWindow(lateralJitterValues), 95.0)
    {
      Percentile(rollingLateralJitter, 95.0)
    }

    /** `get_jitter_score`: the score of the whole session's jitter history. */
    function JitterScore(): (score: real)
      reads this
      ensures 0.0 <= score <= 100.0
      ensures |jitterValues| == 0 ==> score == 100.0
      ensures |jitterValues| > 0 && Percentile(jitterValues, 95.0) <= JitterStableThreshold ==> score == 100.0
      ensures |jitterValues| > 0 && JitterMaxThreshold <= Percentile(jitterValues, 95.0) ==> score == 0.0
    {
      HistoryScore(jitterValues, JitterStableThreshold, JitterMaxThreshold)
    }

    /** `get_lateral_jitter_score`: the score of the whole session's lateral jitter history. */
    function LateralJitterScore(): (score: real)
      reads this
      ensures 0.0 <= score <= 100.0
      ensures |lateralJitterValues| == 0 ==> score == 100.0
      ensures |lateralJitterValues| > 0 && Percentile(lateralJitterValues, 95.0) <= LateralStableThreshold ==> score == 100.0
      ensures |lateralJitterValues| > 0 && LateralMaxThreshold <= Percentile(lateralJitterValues, 95.0) ==> score == 0.0
    {
      HistoryScore(lateralJitterValues, LateralStableThreshold, LateralMaxThreshold)
    }

    /** `get_stability_level`, on the current jitter: stable before any jitter is recorded. */
    function StabilityLevel(): (l: StabilityLevel)
      reads this
      ensures l == Stable <==> currentJitter <= JitterStableThreshold
      ensures l == Unstable <==> JitterWarningThreshold < currentJitter
      ensures Valid() && |jitterValues| == 0 ==> l == Stable
    {
      Level(currentJitter, JitterStableThreshold, JitterWarningThreshold)
    }

    /** `get_lateral_stability_level`, on the current lateral jitter: stable before any is recorded. */
    function LateralStabilityLevel(): (l: StabilityLevel)
      reads this
      ensures l == Stable <==> currentLateralJitter <= LateralStableThreshold
      ensures l == Unstable <==> LateralWarningThreshold < currentLateralJitter
      ensures Valid() && |lateralJitterValues| == 0 ==> l == Stable
    {
      Level(currentLateralJitter, LateralStableThreshold, LateralWarningThreshold)
    }

    /** `get_summary`, without the presentation rounding. */
    function Summary(): (r: TrackerSummary)
      reads this
      ensures r.framesTotal == framesTotal && r.framesMarkerFound == framesMarkerFound
      ensures 0.0 <= r.jitterScore <= 100.0 && 0.0 <= r.lateralJitterScore <= 100.0
      ensures r.jitterScore == JitterScore() && r.lateralJitterScore == LateralJitterScore()
      ensures Valid() ==> r.avgJitter == WindowMean(LastWindow(jitterValues)) && r.p95Jitter == Percentile(LastWindow(jitterValues), 95.0)
      ensures Valid() ==> (
        && r.avgLateralJitter == WindowMean(LastWindow(lateralJitterValues))
        && r.p95LateralJitter == Percentile(LastWindow(lateralJitterValues), 95.0))
      ensures |jitterValues| == 0 ==> r.maxJitter == 0.0
      ensures |jitterValues| > 0 ==> r.maxJitter in jitterValues && forall i :: 0 <= i < |jitterValues| ==> jitterValues[i] <= r.maxJitter
      ensures |lateralJitterValues| == 0 ==> r.maxLateralJitter == 0.0
      ensures |lateralJitterValues| > 0 ==> (
        && r.maxLateralJitter in lateralJitterValues
        && forall i :: 0 <= i < |lateralJitterValues| ==> lateralJitterValues[i] <= r.maxLateralJitter)
    {
      TrackerSummary(AvgJitter(), P95Jitter(), MaxOrZero(jitterValues), JitterScore(),
        AvgLateralJitter(), P95LateralJitter(), MaxOrZero(lateralJitterValues), LateralJitterScore(),
        framesTotal, framesMarkerFound)
    }
  }

  datatype TrackerSummary = TrackerSummary(
    avgJitter: real, p95Jitter: real, maxJitter: real, jitterScore: real,
    avgLateralJitter: real, p95LateralJitter: real, maxLateralJitter: real, lateralJitterScore: real,
    framesTotal: nat, framesMarkerFound: nat)

  /** The lateral stability level never reads worse than the total one would on the same thresholds. */
  lemma LateralLevelNoWorse(t: TrackerState, stable: real, warning: real)
    requires TrackerInvariant(t) && stable <= warning
    ensures Level(t.currentJitter, stable, warning) == Stable ==> Level(t.currentLateralJitter, stable, warning) == Stable
    ensures Level(t.currentLateralJitter, stable, warning) == Unstable ==> Level(t.currentJitter, stable, warning) == Unstable
  {
    if |t.jitterValues| > 0 {
      assert 0.0 <= t.lateralJitterValues[|t.jitterValues| - 1] <= t.jitterValues[|t.jitterValues| - 1];
    }
  }

  /** HOLD mode's metrics: a tracker plus its own frame counter. */
  class HoldMetrics {
    var tracker: JitterTracker
    var framesTotal: nat

    ghost predicate Valid()
      reads this, tracker
    {
      tracker.Valid() && framesTotal == tracker.framesTotal
    }

    constructor(sqrt: real -> real)
      requires IsSqrt(sqrt)
      ensures Valid() && fresh(tracker) && tracker.sqrt == sqrt
      ensures tracker.State() == InitialTracker() && framesTotal == 0
    {
      tracker := new JitterTracker(sqrt);
      framesTotal := 0;
    }

    /** `reset`. */
    method Reset()
      requires IsSqrt(tracker.sqrt)
      modifies this, tracker
      ensures Valid() && tracker == old(tracker)
      ensures tracker.State() == InitialTracker() && framesTotal == 0
    {
      tracker.Reset();
      framesTotal := 0;
    }

    /** `update(position)`: count the frame and feed the tracker. */
    method Update(position: Option<Point>)
      requires Valid()
      modifies this, tracker
      ensures Valid() && tracker == old(tracker)
      ensures framesTotal == old(framesTotal) + 1
      ensures tracker.State() == Step(old(tracker.State()), position, tracker.sqrt).0
    {
      framesTotal := framesTotal + 1;
      var _ := tracker.Update(position);
    }

    /** `get_stability_score`: the jitter score truncated to an integer. */
    function StabilityScore(): (score: int)
      reads this, tracker
      ensures 0 <= score <= 100 && score == Trunc(tracker.JitterScore())
      ensures |tracker.jitterValues| == 0 ==> score == 100
      ensures |tracker.jitterValues| > 0 && Percentile(tracker.jitterValues, 95.0) <= JitterStableThreshold ==> score == 100
      ensures |tracker.jitterValues| > 0 && JitterMaxThreshold <= Percentile(tracker.jitterValues, 95.0) ==> score == 0
    {
      TruncMonotone(0.0, tracker.JitterScore());
      TruncMonotone(tracker.JitterScore(), 100.0);
      TruncOfInt(0);
      TruncOfInt(100);
      Trunc(tracker.JitterScore())
    }

    /** `get_summary`: the tremor score is the jitter score. */
    function Summary(): (r: HoldSummary)
      reads this, tracker
      ensures r.tremorScore == tracker.JitterScore() && 0.0 <= r.tremorScore <= 100.0
      ensures r.framesTotal == framesTotal && r.framesMarkerFound == tracker.framesMarkerFound
      ensures r.avgJitter == tracker.AvgJitter() && r.p95Jitter == tracker.P95Jitter()
      ensures tracker.Valid() ==> (
        && r.avgJitter == WindowMean(LastWindow(tracker.jitterValues))
        && r.p95Jitter == Percentile(LastWindow(tracker.jitterValues), 95.0))
    {
      HoldSummary(tracker.JitterScore(), tracker.AvgJitter(), tracker.P95Jitter(), framesTotal, tracker.framesMarkerFound)
    }
  }

  datatype HoldSummary = HoldSummary(tremorScore: real, avgJitter: real, p95Jitter: real, framesTotal: nat, framesMarkerFound: nat)

  datatype FeedbackStatus = Good | Warn | Poor

  /** FOLLOW mode's metrics: a tracker, the stored positions and the latest beat count. */
  class FollowMetrics {
    var tracker: JitterTracker
    var positions: seq<Point>
    var framesTotal: nat
    var lastBeatCount: int

    ghost predicate Valid()
      reads this, tracker
    {
      tracker.Valid() && framesTotal == tracker.framesTotal && |positions| == tracker.framesMarkerFound
    }

    constructor(sqrt: real -> real)
      requires IsSqrt(sqrt)
      ensures Valid() && fresh(tracker) && tracker.sqrt == sqrt
      ensures tracker.State() == InitialTracker() && positions == [] && framesTotal == 0 && lastBeatCount == 0
    {
      tracker := new JitterTracker(sqrt);
      positions := [];
      framesTotal := 0;
      lastBeatCount := 0;
    }

    /** `reset`. */
    method Reset()
      requires IsSqrt(tracker.sqrt)
      modifies this, tracker
      ensures Valid() && tracker == old(tracker)
      ensures tracker.State() == InitialTracker() && positions == [] && framesTotal == 0 && lastBeatCount == 0
    {
      tracker.Reset();
      positions := [];
      framesTotal := 0;
      lastBeatCount := 0;
    }

    /**
     * `update(position, beat_count)`: count the frame and feed the tracker;
     * a present marker is also stored, with the beat count it came with.
     */
    method Update(position: Option<Point>, beatCount: int)
      requires Valid()
      modifies this, tracker
      ensures Valid() && tracker == old(tracker)
      ensures framesTotal == old(framesTotal) + 1
      ensures tracker.State() == Step(old(tracker.State()), position, tracker.sqrt).0
      ensures position.None? ==> positions == old(positions) && lastBeatCount == old(lastBeatCount)
      ensures position.Some? ==> positions == old(positions) + [position.value] && lastBeatCount == beatCount
    {
      framesTotal := framesTotal + 1;
      var _ := tracker.Update(position);
      if position.Some? {
        positions := positions + [position.value];
        lastBeatCount := beatCount;
      }
    }

    /** `get_combined_score`: the lateral jitter score alone. */
    function CombinedScore(): (score: real)
      reads this, tracker
      ensures score == tracker.LateralJitterScore() && 0.0 <= score <= 100.0
    {
      tracker.LateralJitterScore()
    }

    /** `get_feedback_status`: inclusive thresholds 3 and 8 on the current lateral jitter. */
    function Feedback(): (status: FeedbackStatus)
      reads this, tracker
      ensures status == Good <==> tracker.currentLateralJitter <= LateralStableThreshold
      ensures status == Warn <==> LateralStableThreshold < tracker.currentLateralJitter <= LateralWarningThreshold
      ensures status == Poor <==> LateralWarningThreshold < tracker.currentLateralJitter
    {
      match tracker.LateralStabilityLevel()
      case Stable => Good
      case Warning => Warn
      case Unstable => Poor
    }

    /** `get_summary`: the tremor score is the combined (lateral) score. */
    function Summary(): (r: FollowSummary)
      reads this, tracker
      ensures r.tremorScore == CombinedScore()
      ensures r.beatsTotal == lastBeatCount && r.framesTotal == framesTotal
      ensures r.framesMarkerFound == tracker.framesMarkerFound
      ensures Valid() ==> r.framesMarkerFound == |positions|
      ensures r.avgLateralJitter == tracker.AvgLateralJitter() && r.p95LateralJitter == tracker.P95LateralJitter()
      ensures r.avgJitterTotal == tracker.AvgJitter()
      ensures tracker.Valid() ==> (
        && r.avgLateralJitter == WindowMean(LastWindow(tracker.lateralJitterValues))
        && r.p95LateralJitter == Percentile(LastWindow(tracker.lateralJitterValues), 95.0)
        && r.avgJitterTotal == WindowMean(LastWindow(tracker.jitterValues)))
      ensures |tracker.lateralJitterValues| == 0 ==> r.maxLateralJitter == 0.0
      ensures |tracker.lateralJitterValues| > 0 ==> (
        && r.maxLateralJitter in tracker.lateralJitterValues
        && forall i :: 0 <= i < |tracker.lateralJitterValues| ==> tracker.lateralJitterValues[i] <= r.maxLateralJitter)
    {
      FollowSummary(CombinedScore(), tracker.AvgLateralJitter(), tracker.P95LateralJitter(),
        MaxOrZero(tracker.lateralJitterValues), tracker.AvgJitter(), lastBeatCount, framesTotal, tracker.framesMarkerFound)
    }
  }

  datatype FollowSummary = FollowSummary(
    tremorScore: real, avgLateralJitter: real, p95LateralJitter: real, maxLateralJitter: real,
    avgJitterTotal: real, beatsTotal: int, framesTotal: nat, framesMarkerFound: nat)
}
