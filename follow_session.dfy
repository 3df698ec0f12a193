/**
 * The FOLLOW session manager (`CompVis/follow_session.py`): a timed session
 * in which the player traces a moving target. Every frame with a marker
 * extends the travelled path, feeds the velocity -> acceleration -> jerk
 * chain, records the jitter of the marker against the mean of the last ten
 * positions and the distance to the target, and trims the one-second rolling
 * window. Stopping the session computes the wobble ratio of the path and the
 * movement quality score.
 *
 * Wall-clock time is the parameter `now`; the frame interval `dt` is a
 * parameter as in the source.
 */
module FollowSession {
  import opened Wrappers
  import opened Numeric
  import opened Geometry
  import opened Statistics
  import opened Rolling
  import opened Smoothing
  import opened Timing

  const DefaultDuration: real := 20.0
  const JitterRef: real := 6.0
  const JerkRef: real := 80.0
  const WobbleRef: real := 0.4
  /** Frames averaged by the smoother. */
  const SmoothingWindow: nat := 10
  const RollingSeconds: real := 1.0
  /** `maxlen` of the position, timestamp, velocity, acceleration and target-error deques. */
  const TrailCapacity: nat := 600
  /** `maxlen` of the jitter and jerk windows. */
  const WindowCapacity: nat := 30
  /** The term added to the path length in the wobble ratio's denominator. */
  const WobbleEpsilon: real := 0.000001

  /** `duration or 20.0`: a missing or zero duration falls back to 20 seconds. */
  function DurationOrDefault(duration: Option<real>): (d: real)
    ensures duration.Some? && duration.value != 0.0 ==> d == duration.value
    ensures duration.None? || duration.value == 0.0 ==> d == DefaultDuration
  {
    match duration
    case Some(v) => if v != 0.0 then v else DefaultDuration
    case None => DefaultDuration
  }

  /** Every field of a `FollowSessionManager` except the constant `duration`. */
  datatype FollowState = FollowState(
    startTime: Option<real>,
    isActive: bool,
    positions: seq<Point>,
    timestamps: seq<real>,
    velocities: seq<Point>,
    accelerations: seq<Point>,
    jitterValues: seq<real>,
    jerkValues: seq<real>,
    totalPathLength: real,
    firstPosition: Option<Point>,
    targetErrors: seq<real>,
    framesTotal: nat,
    framesMarkerFound: nat,
    currentJitter: real,
    currentJerk: real,
    wobbleRatio: real,
    avgTargetError: real,
    p95TargetError: real,
    movementQualityScore: real)
  {
    /**
     * `avg_jitter`, `p95_jitter`, `avg_jerk` and `p95_jerk`: the source
     * recomputes them after every frame with a marker, while their windows
     * are non-empty, and the windows only change on such frames and are
     * cleared only together with the fields, so they are always these
     * functions of the windows.
     */
    function AvgJitter(): real { WindowMean(jitterValues) }
    function P95Jitter(): real { Percentile(jitterValues, 95.0) }
    function AvgJerk(): real { WindowMean(jerkValues) }
    function P95Jerk(): real { Percentile(jerkValues, 95.0) }
  }

  /** The state after `__init__`: never started. */
  function InitialFollow(): FollowState {
    FollowState(None, false, [], [], [], [], [], [], 0.0, None, [], 0, 0, 0.0, 0.0, 0.0, 0.0, 0.0, 0.0)
  }

  /** The state after `start_session` at time `now`. */
  function Started(now: real): FollowState {
    FollowState(Some(now), true, [], [], [], [], [], [], 0.0, None, [], 0, 0, 0.0, 0.0, 0.0, 0.0, 0.0, 0.0)
  }

  /** `get_elapsed_time` of a session. */
  function Elapsed(s: FollowState, now: real): real {
    ElapsedSince(s.startTime, now)
  }

  /** The finite difference `(newer - older) / dt` of two positions or two velocities. */
  function Rate(newer: Point, older: Point, dt: real): Point
    requires dt != 0.0
  {
    Point((newer.x - older.x) / dt, (newer.y - older.y) / dt)
  }

  /** `sqrt(vx*vx + vy*vy)`. */
  function Magnitude(v: Point, sqrt: real -> real): (m: real)
    requires IsSqrt(sqrt)
    ensures 0.0 <= m && Sq(m) == Sq(v.x) + Sq(v.y)
  {
    SquarePositive(v.x);
    SquarePositive(v.y);
    sqrt(Sq(v.x) + Sq(v.y))
  }

  /** The length of the polyline through `ps`: the sum of the distances between neighbours. */
  function PathLength(ps: seq<Point>, sqrt: real -> real): (length: real)
    requires IsSqrt(sqrt)
    ensures 0.0 <= length
  {
    if |ps| < 2 then 0.0
    else PathLength(ps[..|ps| - 1], sqrt) + Distance(ps[|ps| - 1], ps[|ps| - 2], sqrt)
  }

  /** Appending a point adds its distance from the previous last point. */
  lemma PathLengthAppend(ps: seq<Point>, p: Point, sqrt: real -> real)
    requires IsSqrt(sqrt) && |ps| > 0
    ensures PathLength(ps + [p], sqrt) == PathLength(ps, sqrt) + Distance(p, ps[|ps| - 1], sqrt)
  {
    assert (ps + [p])[..|ps|] == ps;
  }

  /** Dropping points from the front never lengthens the path. */
  lemma {:induction false} PathLengthSuffix(ps: seq<Point>, k: nat, sqrt: real -> real)
    requires IsSqrt(sqrt) && k <= |ps|
    ensures PathLength(ps[k..], sqrt) <= PathLength(ps, sqrt)
  {
    if |ps| - k >= 2 {
      var front := ps[..|ps| - 1];
      assert ps[k..][..|ps| - k - 1] == front[k..];
      assert ps[k..][|ps| - k - 1] == ps[|ps| - 1] && ps[k..][|ps| - k - 2] == ps[|ps| - 2];
      PathLengthSuffix(front, k, sqrt);
    }
  }

  /** The path length after a bounded append grows by at most the new segment. */
  lemma PathLengthPush(ps: seq<Point>, p: Point, sqrt: real -> real)
    requires IsSqrt(sqrt)
    ensures PathLength(PushBounded(ps, p, TrailCapacity), sqrt)
      <= PathLength(ps, sqrt) + (if |ps| > 0 then Distance(p, ps[|ps| - 1], sqrt) else 0.0)
  {
    var pushed := PushBounded(ps, p, TrailCapacity);
    PushBoundedIsSuffix(ps, p, TrailCapacity);
    PathLengthSuffix(ps + [p], |ps| + 1 - |pushed|, sqrt);
    if |ps| > 0 {
      PathLengthAppend(ps, p, sqrt);
    }
  }

  /**
   * `_compute_final_metrics`' smoothed trail: position `i` replaced by the
   * mean of positions `max(0, i - 10)` to `i`.
   */
  function SmoothedTrail(ps: seq<Point>): (trail: seq<Point>)
    ensures |trail| == |ps|
    ensures forall i :: 0 <= i < |ps| ==> trail[i] == Centroid(TrailWindow(ps, i))
  {
    seq(|ps|, i requires 0 <= i < |ps| => Centroid(TrailWindow(ps, i)))
  }

  /** The positions averaged for position `i` of the smoothed trail. */
  function TrailWindow(ps: seq<Point>, i: nat): (w: seq<Point>)
    requires i < |ps|
    ensures 0 < |w|
  {
    ps[Max(0, i - SmoothingWindow)..i + 1]
  }

  /** Smoothing a whole non-empty window averages all of it. */
  lemma SmoothWholeWindow(window: seq<Point>)
    requires |window| > 0
    ensures SmoothPositions(window, |window|) == Some(Centroid(window))
  {
  }

  /** Smoothing the window of position `i` gives position `i` of the smoothed trail. */
  lemma SmoothTrailAt(ps: seq<Point>, i: nat)
    requires i < |ps|
    ensures SmoothPositions(TrailWindow(ps, i), |TrailWindow(ps, i)|) == Some(SmoothedTrail(ps)[i])
  {
    SmoothWholeWindow(TrailWindow(ps, i));
  }

  /** A trail that stands still has a smoothed path of length zero. */
  lemma StillTrailHasNoSmoothPath(ps: seq<Point>, q: Point, sqrt: real -> real)
    requires IsSqrt(sqrt)
    requires forall i :: 0 <= i < |ps| ==> ps[i] == q
    ensures PathLength(SmoothedTrail(ps), sqrt) == 0.0
  {
    var trail := SmoothedTrail(ps);
    forall i | 0 <= i < |trail|
      ensures trail[i] == q
    {
      var w := TrailWindow(ps, i);
      forall k | 0 <= k < |w|
        ensures w[k] == q
      {
        assert w[k] == ps[Max(0, i - SmoothingWindow) + k];
      }
      CentroidOfConstant(w, q);
    }
    StillPathHasNoLength(trail, q, sqrt);
  }

  /** A polyline through one point only has length zero. */
  lemma {:induction false} StillPathHasNoLength(ps: seq<Point>, q: Point, sqrt: real -> real)
    requires IsSqrt(sqrt)
    requires forall i :: 0 <= i < |ps| ==> ps[i] == q
    ensures PathLength(ps, sqrt) == 0.0
  {
    if |ps| >= 2 {
      StillPathHasNoLength(ps[..|ps| - 1], q, sqrt);
    }
  }

  /**
   * The wobble ratio `(path - smooth) / (path + 1e-6)`: the share of the
   * travelled path that smoothing removes. It is below 1 for every
   * non-negative smoothed length, and non-negative when smoothing does not
   * lengthen the path.
   */
  function Wobble(path: real, smooth: real): (w: real)
    requires 0.0 < path
    ensures 0.0 <= smooth ==> w < 1.0
    ensures smooth <= path ==> 0.0 <= w
    ensures smooth == 0.0 ==> w == path / (path + WobbleEpsilon)
  {
    (path - smooth) / (path + WobbleEpsilon)
  }

  /** `min(value / reference, 2.0)`: a metric relative to its reference, capped at 2. */
  function Norm(value: real, reference: real): (n: real)
    requires 0.0 < reference
    ensures n <= 2.0
    ensures value <= 2.0 * reference ==> n == value / reference
    ensures 2.0 * reference <= value ==> n == 2.0
  {
    if value / reference <= 2.0 then value / reference else 2.0
  }

  /** A larger metric is never normalised lower. */
  lemma NormMonotone(a: real, b: real, reference: real)
    requires 0.0 < reference && a <= b
    ensures Norm(a, reference) <= Norm(b, reference)
  {
    DivMonotone(a, b, reference);
  }

  /** `0.45 * jitter_norm + 0.45 * jerk_norm + 0.10 * wobble_norm`. */
  function Badness(p95Jitter: real, p95Jerk: real, wobble: real): (b: real)
    ensures b <= 2.0
  {
    0.45 * Norm(p95Jitter, JitterRef) + 0.45 * Norm(p95Jerk, JerkRef) + 0.10 * Norm(wobble, WobbleRef)
  }

  /**
   * `_compute_movement_quality_score`: `100 * (1 - badness / 2)` clamped to
   * [0, 100].
   */
  function QualityScore(p95Jitter: real, p95Jerk: real, wobble: real): (score: real)
    ensures 0.0 <= score <= 100.0
    ensures Badness(p95Jitter, p95Jerk, wobble) <= 0.0 ==> score == 100.0
    ensures 0.0 <= Badness(p95Jitter, p95Jerk, wobble) ==> score == 100.0 - 50.0 * Badness(p95Jitter, p95Jerk, wobble)
  {
    100.0 * MaxReal(0.0, MinReal(1.0, 1.0 - Badness(p95Jitter, p95Jerk, wobble) / 2.0))
  }

  /** More jitter, more jerk or more wobble never raises the score. */
  lemma QualityScoreMonotone(j1: real, k1: real, w1: real, j2: real, k2: real, w2: real)
    requires j1 <= j2 && k1 <= k2 && w1 <= w2
    ensures QualityScore(j2, k2, w2) <= QualityScore(j1, k1, w1)
  {
    NormMonotone(j1, j2, JitterRef);
    NormMonotone(k1, k2, JerkRef);
    NormMonotone(w1, w2, WobbleRef);
  }

  /** A still hand on a straight path scores 100. */
  lemma PerfectQualityScore()
    ensures QualityScore(0.0, 0.0, 0.0) == 100.0
  {
    assert Badness(0.0, 0.0, 0.0) == 0.0;
  }

  /** Every metric at twice its reference or more scores 0. */
  lemma WorstQualityScore(p95Jitter: real, p95Jerk: real, wobble: real)
    requires 2.0 * JitterRef <= p95Jitter && 2.0 * JerkRef <= p95Jerk && 2.0 * WobbleRef <= wobble
    ensures QualityScore(p95Jitter, p95Jerk, wobble) == 0.0
  {
    assert Badness(p95Jitter, p95Jerk, wobble) == 2.0;
  }

  // The stages of an active `update` with a marker `p`, in the source's order.

  /** The marker is counted, remembered as the first position if none is, and stored with its timestamp. */
  function StoreMarker(s: FollowState, p: Point, now: real): FollowState {
    s.(framesMarkerFound := s.framesMarkerFound + 1,
       firstPosition := if s.firstPosition.None? then Some(p) else s.firstPosition,
       positions := PushBounded(s.positions, p, TrailCapacity),
       timestamps := PushBounded(s.timestamps, now, TrailCapacity))
  }

  /** The segment from the previous stored position to `p`, 0.0 when `p` is the only one. */
  function Segment(ps: seq<Point>, p: Point, sqrt: real -> real): (length: real)
    requires IsSqrt(sqrt)
    ensures 0.0 <= length
  {
    if |ps| > 1 then Distance(p, ps[|ps| - 2], sqrt) else 0.0
  }

  /** The path length grows by the new segment. */
  function ExtendPath(s: FollowState, p: Point, sqrt: real -> real): FollowState
    requires IsSqrt(sqrt)
  {
    s.(totalPathLength := s.totalPathLength + Segment(s.positions, p, sqrt))
  }

  /** With two stored positions, their difference over `dt` joins the velocities. */
  function AddVelocity(s: FollowState, p: Point, dt: real): FollowState
    requires dt != 0.0
  {
    s.(velocities := if |s.positions| >= 2
                     then PushBounded(s.velocities, Rate(p, s.positions[|s.positions| - 2], dt), TrailCapacity)
                     else s.velocities)
  }

  /** The difference of the last two vectors over `dt`. */
  function LatestRate(vs: seq<Point>, dt: real): Point
    requires dt != 0.0 && |vs| >= 2
  {
    Rate(vs[|vs| - 1], vs[|vs| - 2], dt)
  }

  /** With two velocities, the difference of the last two over `dt` joins the accelerations. */
  function AddAcceleration(s: FollowState, dt: real): FollowState
    requires dt != 0.0
  {
    s.(accelerations := if |s.velocities| >= 2
                        then PushBounded(s.accelerations, LatestRate(s.velocities, dt), TrailCapacity)
                        else s.accelerations)
  }

  /** The jerk magnitude of the last two accelerations. */
  function NewestJerk(accs: seq<Point>, dt: real, sqrt: real -> real): (j: real)
    requires IsSqrt(sqrt) && dt != 0.0 && |accs| >= 2
    ensures 0.0 <= j
  {
    Magnitude(LatestRate(accs, dt), sqrt)
  }

  /** With two accelerations, the jerk magnitude becomes the current jerk and joins the jerk window. */
  function AddJerk(s: FollowState, dt: real, sqrt: real -> real): FollowState
    requires IsSqrt(sqrt) && dt != 0.0
  {
    var ready := |s.accelerations| >= 2;
    s.(currentJerk := if ready then NewestJerk(s.accelerations, dt, sqrt) else s.currentJerk,
       jerkValues := if ready then PushBounded(s.jerkValues, NewestJerk(s.accelerations, dt, sqrt), WindowCapacity)
                     else s.jerkValues)
  }

  /** With ten stored positions, the marker's jitter becomes the current jitter and joins the jitter window. */
  function AddJitter(s: FollowState, p: Point, sqrt: real -> real): FollowState
    requires IsSqrt(sqrt)
  {
    var ready := SmoothingWindow <= |s.positions|;
    s.(currentJitter := if ready then RecentJitter(s.positions, p, SmoothingWindow, sqrt) else s.currentJitter,
       jitterValues := if ready then PushBounded(s.jitterValues, RecentJitter(s.positions, p, SmoothingWindow, sqrt), WindowCapacity)
                       else s.jitterValues)
  }

  /** With a target, the marker's distance to it joins the target errors. */
  function AddTargetError(s: FollowState, p: Point, target: Option<Point>, sqrt: real -> real): FollowState
    requires IsSqrt(sqrt)
  {
    s.(targetErrors := if target.Some? then PushBounded(s.targetErrors, Distance(p, target.value, sqrt), TrailCapacity)
                       else s.targetErrors)
  }

  /**
   * `_update_rolling_metrics`' trimming loop at time `now`: timestamps before
   * `now - 1.0` are dropped, oldest first, while there are more timestamps
   * than jitter values, each with a position while positions outnumber the
   * jitter values. (The averages it then refreshes are the functions of the
   * windows in `FollowState`.)
   */
  function TrimRolling(s: FollowState, now: real): FollowState {
    var kept := |s.jitterValues|;
    var dropped := ExpiredCount(s.timestamps, kept, now - RollingSeconds);
    s.(timestamps := s.timestamps[dropped..],
       positions := s.positions[DroppedPositions(|s.positions|, dropped, kept)..])
  }

  /** Path, velocity, acceleration and jerk for a stored marker. */
  function Derive(s: FollowState, p: Point, dt: real, sqrt: real -> real): FollowState
    requires IsSqrt(sqrt) && dt != 0.0
  {
    AddJerk(AddAcceleration(AddVelocity(ExtendPath(s, p, sqrt), p, dt), dt), dt, sqrt)
  }

  /** Jitter and target error for a stored marker. */
  function Measure(s: FollowState, p: Point, target: Option<Point>, sqrt: real -> real): FollowState
    requires IsSqrt(sqrt)
  {
    AddTargetError(AddJitter(s, p, sqrt), p, target, sqrt)
  }

  /** Everything an active `update` does with a present marker. */
  function FollowMarker(s: FollowState, p: Point, target: Option<Point>, now: real, dt: real,
                        sqrt: real -> real): FollowState
    requires IsSqrt(sqrt) && dt != 0.0
  {
    TrimRolling(Measure(Derive(StoreMarker(s, p, now), p, dt, sqrt), p, target, sqrt), now)
  }

  /** Every active `update` counts the frame first. */
  function CountFrame(s: FollowState): FollowState {
    s.(framesTotal := s.framesTotal + 1)
  }

  /** The body of an active `update` before the duration check. */
  function FollowTick(s: FollowState, marker: Option<Point>, target: Option<Point>, now: real, dt: real,
                      sqrt: real -> real): FollowState
    requires IsSqrt(sqrt) && dt != 0.0
  {
    var counted := CountFrame(s);
    if marker.None? then counted else FollowMarker(counted, marker.value, target, now, dt, sqrt)
  }

  /**
   * `_compute_final_metrics`: the wobble ratio of the stored trail when it
   * has two positions and the path has length, the target-error statistics
   * when there are target errors, and the movement quality score.
   */
  function Finalize(s: FollowState, sqrt: real -> real): FollowState
    requires IsSqrt(sqrt)
  {
    var wobble := if |s.positions| >= 2 && s.totalPathLength > 0.0
                  then Wobble(s.totalPathLength, PathLength(SmoothedTrail(s.positions), sqrt))
                  else s.wobbleRatio;
    var errors := |s.targetErrors| > 0;
    s.(wobbleRatio := wobble,
       avgTargetError := if errors then Mean(s.targetErrors) else s.avgTargetError,
       p95TargetError := if errors then Percentile(s.targetErrors, 95.0) else s.p95TargetError,
       movementQualityScore := QualityScore(s.P95Jitter(), s.P95Jerk(), wobble))
  }

  /** `stop_session`: inactive, with the final metrics computed. */
  function Stop(s: FollowState, sqrt: real -> real): FollowState
    requires IsSqrt(sqrt)
  {
    Finalize(s.(isActive := false), sqrt)
  }

  /** The duration check at the end of an active `update`. */
  function AutoStop(s: FollowState, duration: real, now: real, sqrt: real -> real): FollowState
    requires IsSqrt(sqrt)
  {
    if Elapsed(s, now) >= duration then Stop(s, sqrt) else s
  }

  /**
   * `update(marker_pos, target_pos, dt)` at time `now`: nothing when
   * inactive; otherwise count the frame, run every stage for a present
   * marker, and stop once the duration is reached.
   */
  function FollowStep(s: FollowState, marker: Option<Point>, target: Option<Point>, duration: real,
                      now: real, dt: real, sqrt: real -> real): FollowState
    requires IsSqrt(sqrt) && dt != 0.0
  {
    if !s.isActive then s
    else AutoStop(FollowTick(s, marker, target, now, dt, sqrt), duration, now, sqrt)
  }

  /**
   * What every reachable state satisfies: found <= total; positions and
   * timestamps in step; every deque within its `maxlen`; jitter, jerk and
   * target errors non-negative; a path at least as long as the polyline
   * through the stored positions; a wobble ratio below 1; a score in
   * [0, 100]; and no stored position before a first one.
   */
  predicate FollowInvariant(s: FollowState, sqrt: real -> real)
    requires IsSqrt(sqrt)
  {
    && s.framesMarkerFound <= s.framesTotal
    && |s.positions| == |s.timestamps| <= TrailCapacity
    && |s.velocities| <= TrailCapacity && |s.accelerations| <= TrailCapacity
    && |s.targetErrors| <= TrailCapacity
    && |s.jitterValues| <= WindowCapacity && |s.jerkValues| <= WindowCapacity
    && 0.0 <= s.currentJitter && 0.0 <= s.currentJerk
    && (forall i :: 0 <= i < |s.jitterValues| ==> 0.0 <= s.jitterValues[i])
    && (forall i :: 0 <= i < |s.jerkValues| ==> 0.0 <= s.jerkValues[i])
    && (forall i :: 0 <= i < |s.targetErrors| ==> 0.0 <= s.targetErrors[i])
    && PathLength(s.positions, sqrt) <= s.totalPathLength
    && s.wobbleRatio < 1.0
    && 0.0 <= s.movementQualityScore <= 100.0
    && (s.firstPosition.None? ==> s.positions == [])
  }

  lemma InitialFollowInvariant(now: real, sqrt: real -> real)
    requires IsSqrt(sqrt)
    ensures FollowInvariant(InitialFollow(), sqrt) && FollowInvariant(Started(now), sqrt)
    ensures Started(now).P95Jitter() == Started(now).P95Jerk() == 0.0
    ensures Elapsed(Started(now), now) == 0.0
  {
  }

  /** Storing a marker in a frame already counted keeps the invariant, and the path bound needs the new segment. */
  lemma StoreAndExtendKeepsInvariant(s: FollowState, p: Point, now: real, sqrt: real -> real)
    requires IsSqrt(sqrt) && FollowInvariant(s, sqrt) && s.framesMarkerFound < s.framesTotal
    ensures FollowInvariant(ExtendPath(StoreMarker(s, p, now), p, sqrt), sqrt)
  {
    var stored := StoreMarker(s, p, now);
    PathLengthPush(s.positions, p, sqrt);
    if |s.positions| > 0 {
      PushBoundedIsSuffix(s.positions, p, TrailCapacity);
      assert stored.positions[|stored.positions| - 2] == s.positions[|s.positions| - 1];
    }
  }

  /** The velocity, acceleration and jerk stages keep the invariant. */
  lemma DeriveRestKeepsInvariant(s: FollowState, p: Point, dt: real, sqrt: real -> real)
    requires IsSqrt(sqrt) && dt != 0.0 && FollowInvariant(s, sqrt)
    ensures FollowInvariant(AddJerk(AddAcceleration(AddVelocity(s, p, dt), dt), dt, sqrt), sqrt)
  {
    var a := AddAcceleration(AddVelocity(s, p, dt), dt);
    if |a.accelerations| >= 2 {
      PushBoundedNonNegative(s.jerkValues, NewestJerk(a.accelerations, dt, sqrt), WindowCapacity);
    }
  }

  /** Jitter and target error keep the invariant. */
  lemma MeasureKeepsInvariant(s: FollowState, p: Point, target: Option<Point>, sqrt: real -> real)
    requires IsSqrt(sqrt) && FollowInvariant(s, sqrt)
    ensures FollowInvariant(Measure(s, p, target, sqrt), sqrt)
  {
    if SmoothingWindow <= |s.positions| {
      PushBoundedNonNegative(s.jitterValues, RecentJitter(s.positions, p, SmoothingWindow, sqrt), WindowCapacity);
    }
    if target.Some? {
      PushBoundedNonNegative(s.targetErrors, Distance(p, target.value, sqrt), TrailCapacity);
    }
  }

  /** Trimming keeps the invariant: positions stay in step with timestamps and the path bound holds for the shorter trail. */
  lemma TrimRollingKeepsInvariant(s: FollowState, now: real, sqrt: real -> real)
    requires IsSqrt(sqrt) && FollowInvariant(s, sqrt)
    ensures FollowInvariant(TrimRolling(s, now), sqrt)
  {
    var kept := |s.jitterValues|;
    var dropped := ExpiredCount(s.timestamps, kept, now - RollingSeconds);
    TrimKeepsPairs(s.timestamps, |s.positions|, kept, now - RollingSeconds);
    PathLengthSuffix(s.positions, DroppedPositions(|s.positions|, dropped, kept), sqrt);
  }

  /** Everything an active `update` does with a marker keeps the invariant. */
  lemma FollowMarkerKeepsInvariant(s: FollowState, p: Point, target: Option<Point>, now: real, dt: real,
                                   sqrt: real -> real)
    requires IsSqrt(sqrt) && dt != 0.0 && FollowInvariant(s, sqrt) && s.framesMarkerFound < s.framesTotal
    ensures FollowInvariant(FollowMarker(s, p, target, now, dt, sqrt), sqrt)
  {
    var extended := ExtendPath(StoreMarker(s, p, now), p, sqrt);
    StoreAndExtendKeepsInvariant(s, p, now, sqrt);
    DeriveRestKeepsInvariant(extended, p, dt, sqrt);
    var derived := Derive(StoreMarker(s, p, now), p, dt, sqrt);
    MeasureKeepsInvariant(derived, p, target, sqrt);
    TrimRollingKeepsInvariant(Measure(derived, p, target, sqrt), now, sqrt);
  }

  /** Computing the final metrics keeps the invariant. */
  lemma FinalizeKeepsInvariant(s: FollowState, sqrt: real -> real)
    requires IsSqrt(sqrt) && FollowInvariant(s, sqrt)
    ensures FollowInvariant(Finalize(s, sqrt), sqrt)
  {
  }

  /** The body of an active `update` keeps the invariant. */
  lemma FollowTickKeepsInvariant(s: FollowState, marker: Option<Point>, target: Option<Point>, now: real, dt: real,
                                 sqrt: real -> real)
    requires IsSqrt(sqrt) && dt != 0.0 && FollowInvariant(s, sqrt)
    ensures FollowInvariant(FollowTick(s, marker, target, now, dt, sqrt), sqrt)
  {
    if marker.Some? {
      TickWithMarker(s, marker.value, target, now, dt, sqrt);
      FollowMarkerKeepsInvariant(CountFrame(s), marker.value, target, now, dt, sqrt);
    }
  }

  /** The duration check keeps the invariant. */
  lemma AutoStopKeepsInvariant(s: FollowState, duration: real, now: real, sqrt: real -> real)
    requires IsSqrt(sqrt) && FollowInvariant(s, sqrt)
    ensures FollowInvariant(AutoStop(s, duration, now, sqrt), sqrt)
  {
    FinalizeKeepsInvariant(s.(isActive := false), sqrt);
  }

  /** `update` keeps the invariant. */
  lemma FollowStepKeepsInvariant(s: FollowState, marker: Option<Point>, target: Option<Point>, duration: real,
                                 now: real, dt: real, sqrt: real -> real)
    requires IsSqrt(sqrt) && dt != 0.0 && FollowInvariant(s, sqrt)
    ensures FollowInvariant(FollowStep(s, marker, target, duration, now, dt, sqrt), sqrt)
  {
    if s.isActive {
      FollowTickKeepsInvariant(s, marker, target, now, dt, sqrt);
      AutoStopKeepsInvariant(FollowTick(s, marker, target, now, dt, sqrt), duration, now, sqrt);
    }
  }

  /** `update` on an inactive session changes nothing. */
  lemma InactiveUpdateIsNoOp(s: FollowState, marker: Option<Point>, target: Option<Point>, duration: real,
                             now: real, dt: real, sqrt: real -> real)
    requires IsSqrt(sqrt) && dt != 0.0 && !s.isActive
    ensures FollowStep(s, marker, target, duration, now, dt, sqrt) == s
  {
  }

  /**
   * The duration check changes only the activity flag and the final metrics:
   * it stops the session, computing them, exactly when the elapsed time has
   * reached the duration.
   */
  lemma AutoStopKeepsHistory(s: FollowState, duration: real, now: real, sqrt: real -> real)
    requires IsSqrt(sqrt)
    ensures var t := AutoStop(s, duration, now, sqrt);
      && t.isActive == (s.isActive && Elapsed(s, now) < duration)
      && (Elapsed(s, now) >= duration ==> t == Stop(s, sqrt))
      && (Elapsed(s, now) < duration ==> t == s)
      && t.startTime == s.startTime && t.framesTotal == s.framesTotal && t.framesMarkerFound == s.framesMarkerFound
      && t.positions == s.positions && t.timestamps == s.timestamps && t.totalPathLength == s.totalPathLength
      && t.velocities == s.velocities && t.accelerations == s.accelerations
      && t.jitterValues == s.jitterValues && t.jerkValues == s.jerkValues && t.targetErrors == s.targetErrors
      && t.currentJitter == s.currentJitter && t.currentJerk == s.currentJerk
  {
  }

  /** An active frame with a marker runs every stage on the counted state. */
  lemma TickWithMarker(s: FollowState, p: Point, target: Option<Point>, now: real, dt: real, sqrt: real -> real)
    requires IsSqrt(sqrt) && dt != 0.0
    ensures FollowTick(s, Some(p), target, now, dt, sqrt)
      == FollowMarker(CountFrame(s), p, target, now, dt, sqrt)
  {
  }

  /** Every stage but the first leaves the counters, flags and clock alone. */
  lemma MarkerCounts(s: FollowState, p: Point, target: Option<Point>, now: real, dt: real, sqrt: real -> real)
    requires IsSqrt(sqrt) && dt != 0.0
    ensures var t := FollowMarker(s, p, target, now, dt, sqrt);
      && t.framesTotal == s.framesTotal && t.framesMarkerFound == s.framesMarkerFound + 1
      && t.isActive == s.isActive && t.startTime == s.startTime
      && t.firstPosition == (if s.firstPosition.None? then Some(p) else s.firstPosition)
  {
  }

  /**
   * Each active `update` counts the frame, and counts a marker exactly when
   * one is given; the first marker of a session is remembered.
   */
  lemma ActiveUpdateCounts(s: FollowState, marker: Option<Point>, target: Option<Point>, duration: real,
                           now: real, dt: real, sqrt: real -> real)
    requires IsSqrt(sqrt) && dt != 0.0 && s.isActive
    ensures var t := FollowStep(s, marker, target, duration, now, dt, sqrt);
      && t.framesTotal == s.framesTotal + 1
      && t.framesMarkerFound == s.framesMarkerFound + (if marker.Some? then 1 else 0)
      && (marker.Some? && s.firstPosition.None? ==> t.firstPosition == marker)
  {
    var ticked := FollowTick(s, marker, target, now, dt, sqrt);
    if marker.Some? {
      TickWithMarker(s, marker.value, target, now, dt, sqrt);
      MarkerCounts(CountFrame(s), marker.value, target, now, dt, sqrt);
    }
    AutoStopKeepsHistory(ticked, duration, now, sqrt);
  }

  /**
   * The `update` on which the elapsed time reaches the duration stops the
   * session and computes the final metrics; no earlier one does.
   */
  lemma UpdateStopsAtDuration(s: FollowState, marker: Option<Point>, target: Option<Point>, duration: real,
                              now: real, dt: real, sqrt: real -> real)
    requires IsSqrt(sqrt) && dt != 0.0 && s.isActive
    ensures var t := FollowStep(s, marker, target, duration, now, dt, sqrt);
      && (t.isActive <==> Elapsed(s, now) < duration)
      && (!t.isActive ==> t == Stop(FollowTick(s, marker, target, now, dt, sqrt), sqrt))
  {
    var ticked := FollowTick(s, marker, target, now, dt, sqrt);
    if marker.Some? {
      TickWithMarker(s, marker.value, target, now, dt, sqrt);
      MarkerCounts(CountFrame(s), marker.value, target, now, dt, sqrt);
    }
    assert ticked.startTime == s.startTime;
    AutoStopKeepsHistory(ticked, duration, now, sqrt);
  }

  /**
   * With a marker, the path grows by the distance from the previously stored
   * position (by nothing for the first one), and the stages after it leave
   * the path alone.
   */
  lemma MarkerExtendsPath(s: FollowState, p: Point, target: Option<Point>, now: real, dt: real, sqrt: real -> real)
    requires IsSqrt(sqrt) && dt != 0.0
    ensures FollowMarker(s, p, target, now, dt, sqrt).totalPathLength
      == s.totalPathLength + (if |s.positions| > 0 then Distance(p, s.positions[|s.positions| - 1], sqrt) else 0.0)
  {
    var stored := StoreMarker(s, p, now);
    if |s.positions| > 0 {
      PushBoundedIsSuffix(s.positions, p, TrailCapacity);
      assert stored.positions[|stored.positions| - 2] == s.positions[|s.positions| - 1];
    }
  }

  /** `total_path_length` never decreases, and grows by the new segment on a frame with a marker. */
  lemma PathNeverShrinks(s: FollowState, marker: Option<Point>, target: Option<Point>, duration: real,
                         now: real, dt: real, sqrt: real -> real)
    requires IsSqrt(sqrt) && dt != 0.0
    ensures var t := FollowStep(s, marker, target, duration, now, dt, sqrt);
      && s.totalPathLength <= t.totalPathLength
      && (s.isActive && marker.Some? && |s.positions| > 0 ==>
            t.totalPathLength == s.totalPathLength + Distance(marker.value, s.positions[|s.positions| - 1], sqrt))
      && (marker.None? ==> t.totalPathLength == s.totalPathLength)
  {
    if s.isActive {
      var ticked := FollowTick(s, marker, target, now, dt, sqrt);
      if marker.Some? {
        TickWithMarker(s, marker.value, target, now, dt, sqrt);
        MarkerExtendsPath(CountFrame(s), marker.value, target, now, dt, sqrt);
      }
      AutoStopKeepsHistory(ticked, duration, now, sqrt);
    }
  }

  /** A frame with a marker appends a velocity exactly when a previous position is stored. */
  lemma MarkerVelocity(s: FollowState, p: Point, target: Option<Point>, now: real, dt: real, sqrt: real -> real)
    requires IsSqrt(sqrt) && dt != 0.0
    ensures FollowMarker(s, p, target, now, dt, sqrt).velocities
      == (if |s.positions| > 0
          then PushBounded(s.velocities, Rate(p, s.positions[|s.positions| - 1], dt), TrailCapacity)
          else s.velocities)
  {
    var stored := StoreMarker(s, p, now);
    if |s.positions| > 0 {
      PushBoundedIsSuffix(s.positions, p, TrailCapacity);
      assert stored.positions[|stored.positions| - 2] == s.positions[|s.positions| - 1];
    }
  }

  /** Measuring and trimming leave the derivative chain alone. */
  lemma MarkerKeepsDerived(s: FollowState, p: Point, target: Option<Point>, now: real, dt: real, sqrt: real -> real)
    requires IsSqrt(sqrt) && dt != 0.0
    ensures var derived := Derive(StoreMarker(s, p, now), p, dt, sqrt);
      var t := FollowMarker(s, p, target, now, dt, sqrt);
      && t.velocities == derived.velocities && t.accelerations == derived.accelerations
      && t.currentJerk == derived.currentJerk && t.jerkValues == derived.jerkValues
  {
  }

  /** A frame with a marker appends an acceleration exactly when there are then two velocities. */
  lemma MarkerAcceleration(s: FollowState, p: Point, target: Option<Point>, now: real, dt: real, sqrt: real -> real)
    requires IsSqrt(sqrt) && dt != 0.0
    ensures |FollowMarker(s, p, target, now, dt, sqrt).velocities| < 2
      ==> FollowMarker(s, p, target, now, dt, sqrt).accelerations == s.accelerations
    ensures |FollowMarker(s, p, target, now, dt, sqrt).velocities| >= 2
      ==> FollowMarker(s, p, target, now, dt, sqrt).accelerations
          == PushBounded(s.accelerations, LatestRate(FollowMarker(s, p, target, now, dt, sqrt).velocities, dt), TrailCapacity)
  {
    var t := FollowMarker(s, p, target, now, dt, sqrt);
    var v := AddVelocity(ExtendPath(StoreMarker(s, p, now), p, sqrt), p, dt);
    var derived := Derive(StoreMarker(s, p, now), p, dt, sqrt);
    MarkerKeepsDerived(s, p, target, now, dt, sqrt);
    assert derived.velocities == v.velocities && derived.accelerations == AddAcceleration(v, dt).accelerations;
    assert t.velocities == v.velocities;
    assert v.accelerations == s.accelerations;
  }

  /**
   * A frame with a marker computes a jerk, which becomes the current jerk and
   * joins the jerk window, exactly when there are then two accelerations.
   */
  lemma MarkerJerk(s: FollowState, p: Point, target: Option<Point>, now: real, dt: real, sqrt: real -> real)
    requires IsSqrt(sqrt) && dt != 0.0
    ensures var t := FollowMarker(s, p, target, now, dt, sqrt);
      var accs := t.accelerations;
      && (|accs| >= 2 ==> t.currentJerk == NewestJerk(accs, dt, sqrt)
                          && t.jerkValues == PushBounded(s.jerkValues, t.currentJerk, WindowCapacity))
      && (|accs| < 2 ==> t.currentJerk == s.currentJerk && t.jerkValues == s.jerkValues)
  {
    var a := AddAcceleration(AddVelocity(ExtendPath(StoreMarker(s, p, now), p, sqrt), p, dt), dt);
    assert Derive(StoreMarker(s, p, now), p, dt, sqrt) == AddJerk(a, dt, sqrt);
    MarkerKeepsDerived(s, p, target, now, dt, sqrt);
  }

  /**
   * From the tenth stored position on, a frame with a marker records the
   * marker's distance to the mean of the last ten stored positions as the
   * current jitter and the newest window value; before that the jitter is
   * left alone.
   */
  lemma MarkerJitter(s: FollowState, p: Point, target: Option<Point>, now: real, dt: real, sqrt: real -> real)
    requires IsSqrt(sqrt) && dt != 0.0
    ensures var ps := PushBounded(s.positions, p, TrailCapacity);
      var t := FollowMarker(s, p, target, now, dt, sqrt);
      && (SmoothingWindow <= |ps| ==> t.currentJitter == RecentJitter(ps, p, SmoothingWindow, sqrt)
                                      && t.jitterValues == PushBounded(s.jitterValues, t.currentJitter, WindowCapacity))
      && (|ps| < SmoothingWindow ==> t.currentJitter == s.currentJitter && t.jitterValues == s.jitterValues)
  {
  }

  /** A frame with a marker and a target records the distance between them; without a target nothing. */
  lemma MarkerTargetError(s: FollowState, p: Point, target: Option<Point>, now: real, dt: real, sqrt: real -> real)
    requires IsSqrt(sqrt) && dt != 0.0
    ensures FollowMarker(s, p, target, now, dt, sqrt).targetErrors
      == (if target.Some? then PushBounded(s.targetErrors, Distance(p, target.value, sqrt), TrailCapacity)
          else s.targetErrors)
  {
  }

  /**
   * The trimming of a frame with a marker removes only timestamps before
   * `now - 1.0`, oldest first, and leaves at least as many timestamps as
   * jitter values (unless there were fewer to begin with).
   */
  lemma MarkerTrims(s: FollowState, p: Point, target: Option<Point>, now: real, dt: real, sqrt: real -> real)
    requires IsSqrt(sqrt) && dt != 0.0
    ensures var ts := PushBounded(s.timestamps, now, TrailCapacity);
      var t := FollowMarker(s, p, target, now, dt, sqrt);
      && |t.timestamps| <= |ts|
      && t.timestamps == ts[|ts| - |t.timestamps|..]
      && (forall i :: 0 <= i < |ts| - |t.timestamps| ==> ts[i] < now - RollingSeconds)
      && |t.timestamps| >= Min(|ts|, |t.jitterValues|)
  {
    var measured := Measure(Derive(StoreMarker(s, p, now), p, dt, sqrt), p, target, sqrt);
    assert measured.timestamps == PushBounded(s.timestamps, now, TrailCapacity);
    ExpiredAreOld(measured.timestamps, |measured.jitterValues|, now - RollingSeconds);
    ExpiredKeepsEnough(measured.timestamps, |measured.jitterValues|, now - RollingSeconds);
  }

  /**
   * Jitter is recorded by an active `update` with a marker only once ten
   * positions are stored after the append; then it is the marker's distance
   * to their mean.
   */
  lemma JitterOnlyAfterWarmUp(s: FollowState, p: Point, target: Option<Point>, duration: real,
                              now: real, dt: real, sqrt: real -> real)
    requires IsSqrt(sqrt) && dt != 0.0 && s.isActive
    ensures var ps := PushBounded(s.positions, p, TrailCapacity);
      var t := FollowStep(s, Some(p), target, duration, now, dt, sqrt);
      && (SmoothingWindow <= |ps| ==> t.currentJitter == RecentJitter(ps, p, SmoothingWindow, sqrt)
                                      && t.jitterValues == PushBounded(s.jitterValues, t.currentJitter, WindowCapacity))
      && (|ps| < SmoothingWindow ==> t.currentJitter == s.currentJitter && t.jitterValues == s.jitterValues)
  {
    var counted := CountFrame(s);
    TickWithMarker(s, p, target, now, dt, sqrt);
    MarkerJitter(counted, p, target, now, dt, sqrt);
    AutoStopKeepsHistory(FollowTick(s, Some(p), target, now, dt, sqrt), duration, now, sqrt);
  }

  /**
   * The final metrics: the wobble ratio is recomputed only with two stored
   * positions and a path of positive length (and is then below 1), the
   * target-error statistics only with target errors, and the score always,
   * from the rolling 95th percentiles and the wobble ratio.
   */
  lemma FinalizeMetrics(s: FollowState, sqrt: real -> real)
    requires IsSqrt(sqrt)
    ensures var t := Finalize(s, sqrt);
      && (|s.positions| >= 2 && s.totalPathLength > 0.0 ==>
            t.wobbleRatio == Wobble(s.totalPathLength, PathLength(SmoothedTrail(s.positions), sqrt)) < 1.0)
      && (|s.positions| < 2 || s.totalPathLength <= 0.0 ==> t.wobbleRatio == s.wobbleRatio)
      && (|s.targetErrors| > 0 ==> t.avgTargetError == Mean(s.targetErrors)
                                   && t.p95TargetError == Percentile(s.targetErrors, 95.0))
      && (|s.targetErrors| == 0 ==> t.avgTargetError == s.avgTargetError && t.p95TargetError == s.p95TargetError)
      && t.movementQualityScore == QualityScore(s.P95Jitter(), s.P95Jerk(), t.wobbleRatio)
      && 0.0 <= t.movementQualityScore <= 100.0
      && t.(wobbleRatio := s.wobbleRatio, avgTargetError := s.avgTargetError,
            p95TargetError := s.p95TargetError, movementQualityScore := s.movementQualityScore) == s
  {
  }

  /**
   * A trail that stood still over the stored positions, after a path of
   * positive length, is all wobble: the ratio is `path / (path + 1e-6)`.
   */
  lemma StillTrailIsAllWobble(s: FollowState, q: Point, sqrt: real -> real)
    requires IsSqrt(sqrt) && |s.positions| >= 2 && s.totalPathLength > 0.0
    requires forall i :: 0 <= i < |s.positions| ==> s.positions[i] == q
    ensures Finalize(s, sqrt).wobbleRatio == s.totalPathLength / (s.totalPathLength + WobbleEpsilon)
  {
    StillTrailHasNoSmoothPath(s.positions, q, sqrt);
  }

  /** The first loop of `_compute_final_metrics`: the smoothed trail, position by position. */
  method SmoothTrail(ps: seq<Point>) returns (smoothed: seq<Point>)
    ensures smoothed == SmoothedTrail(ps)
  {
    ghost var trail := SmoothedTrail(ps);
    smoothed := [];
    var i := 0;
    while i < |ps|
      invariant 0 <= i <= |ps|
      invariant smoothed == trail[..i]
    {
      var window := TrailWindow(ps, i);
      var centre := SmoothPositions(window, |window|);
      SmoothTrailAt(ps, i);
      if centre.Some? {
        assert trail[..i + 1] == trail[..i] + [trail[i]];
        smoothed := smoothed + [centre.value];
      }
      i := i + 1;
    }
    assert trail[..|ps|] == trail;
  }

  /** The second loop: the sum of the distances between neighbours. */
  method PolylineLength(ps: seq<Point>, sqrt: real -> real) returns (length: real)
    requires IsSqrt(sqrt)
    ensures length == PathLength(ps, sqrt)
  {
    length := 0.0;
    var k := 1;
    while k < |ps|
      invariant 1 <= k <= Max(1, |ps|)
      invariant length == PathLength(ps[..Min(k, |ps|)], sqrt)
    {
      assert ps[..k + 1][..k] == ps[..k];
      length := length + Distance(ps[k], ps[k - 1], sqrt);
      k := k + 1;
    }
    assert ps[..Min(k, |ps|)] == ps;
  }

  /** `get_final_metrics`, without the presentation rounding. */
  datatype FollowFinalMetrics = FollowFinalMetrics(
    durationS: real, avgJitter: real, p95Jitter: real, avgJerk: real, p95Jerk: real,
    wobbleRatio: real, movementQualityScore: real, avgTargetError: real, p95TargetError: real,
    framesTotal: nat, framesMarkerFound: nat)

  class FollowSessionManager {
    const sqrt: real -> real
    const duration: real
    var startTime: Option<real>
    var isActive: bool
    var positions: seq<Point>
    var timestamps: seq<real>
    var velocities: seq<Point>
    var accelerations: seq<Point>
    var jitterValues: seq<real>
    var jerkValues: seq<real>
    var totalPathLength: real
    var firstPosition: Option<Point>
    var targetErrors: seq<real>
    var framesTotal: nat
    var framesMarkerFound: nat
    var currentJitter: real
    var currentJerk: real
    var wobbleRatio: real
    var avgTargetError: real
    var p95TargetError: real
    var movementQualityScore: real

    /** All fields as one value. */
    function State(): FollowState
      reads this
    {
      FollowState(startTime, isActive, positions, timestamps, velocities, accelerations, jitterValues, jerkValues,
        totalPathLength, firstPosition, targetErrors, framesTotal, framesMarkerFound, currentJitter, currentJerk,
        wobbleRatio, avgTargetError, p95TargetError, movementQualityScore)
    }

    ghost predicate Valid()
      reads this
    {
      IsSqrt(sqrt) && FollowInvariant(State(), sqrt)
    }

    /** `__init__(duration)`. */
    constructor(sqrt: real -> real, duration: Option<real>)
      requires IsSqrt(sqrt)
      ensures Valid() && this.sqrt == sqrt && this.duration == DurationOrDefault(duration)
      ensures State() == InitialFollow()
    {
      this.sqrt := sqrt;
      this.duration := DurationOrDefault(duration);
      startTime, isActive := None, false;
      positions, timestamps, velocities, accelerations := [], [], [], [];
      jitterValues, jerkValues, targetErrors := [], [], [];
      totalPathLength, firstPosition := 0.0, None;
      framesTotal, framesMarkerFound := 0, 0;
      currentJitter, currentJerk, wobbleRatio := 0.0, 0.0, 0.0;
      avgTargetError, p95TargetError, movementQualityScore := 0.0, 0.0, 0.0;
    }

    /** `start_session` at time `now`: a fresh, active session. */
    method StartSession(now: real)
      requires IsSqrt(sqrt)
      modifies this
      ensures Valid()
      ensures State() == Started(now)
    {
      startTime, isActive := Some(now), true;
      ClearPositions();
      ClearMotion();
      ClearWindows();
      ResetCounters();
      ResetPath();
      ResetCurrentMetrics();
      ResetFinalMetrics();
      InitialFollowInvariant(now, sqrt);
    }

    method ClearPositions()
      modifies this
      ensures State() == old(State()).(positions := [], timestamps := [])
    {
      positions, timestamps := [], [];
    }

    method ClearMotion()
      modifies this
      ensures State() == old(State()).(velocities := [], accelerations := [])
    {
      velocities, accelerations := [], [];
    }

    method ClearWindows()
      modifies this
      ensures State() == old(State()).(jitterValues := [], jerkValues := [], targetErrors := [])
    {
      jitterValues, jerkValues, targetErrors := [], [], [];
    }

    method ResetCounters()
      modifies this
      ensures State() == old(State()).(framesTotal := 0, framesMarkerFound := 0)
    {
      framesTotal, framesMarkerFound := 0, 0;
    }

    method ResetPath()
      modifies this
      ensures State() == old(State()).(totalPathLength := 0.0, firstPosition := None)
    {
      totalPathLength, firstPosition := 0.0, None;
    }

    method ResetCurrentMetrics()
      modifies this
      ensures State() == old(State()).(currentJitter := 0.0, currentJerk := 0.0, wobbleRatio := 0.0)
    {
      currentJitter, currentJerk, wobbleRatio := 0.0, 0.0, 0.0;
    }

    method ResetFinalMetrics()
      modifies this
      ensures State() == old(State()).(avgTargetError := 0.0, p95TargetError := 0.0, movementQualityScore := 0.0)
    {
      avgTargetError, p95TargetError, movementQualityScore := 0.0, 0.0, 0.0;
    }

    /** `stop_session`: inactive, then the final metrics. */
    method StopSession()
      requires IsSqrt(sqrt)
      modifies this
      ensures State() == Stop(old(State()), sqrt)
    {
      isActive := false;
      ComputeFinalMetrics();
    }

    /** `update(marker_pos, target_pos, dt)` at time `now`, in place. */
    method Update(marker: Option<Point>, target: Option<Point>, now: real, dt: real)
      requires Valid() && dt != 0.0
      modifies this
      ensures Valid()
      ensures State() == FollowStep(old(State()), marker, target, duration, now, dt, sqrt)
    {
      ghost var s0 := State();
      if isActive {
        TickFrame(marker, target, now, dt);
        ghost var ticked := State();
        if ElapsedTime(now) >= duration {
          StopSession();
        }
        assert State() == AutoStop(ticked, duration, now, sqrt);
      }
      assert State() == FollowStep(s0, marker, target, duration, now, dt, sqrt);
      FollowStepKeepsInvariant(s0, marker, target, duration, now, dt, sqrt);
    }

    /** The body of an active `update` before the duration check. */
    method TickFrame(marker: Option<Point>, target: Option<Point>, now: real, dt: real)
      requires IsSqrt(sqrt) && dt != 0.0
      modifies this
      ensures State() == FollowTick(old(State()), marker, target, now, dt, sqrt)
    {
      ghost var s0 := State();
      framesTotal := framesTotal + 1;
      assert State() == CountFrame(s0);
      if marker.Some? {
        HandleMarker(marker.value, target, now, dt);
        TickWithMarker(s0, marker.value, target, now, dt, sqrt);
      }
    }

    /** What an active `update` does with a present marker, stage by stage. */
    method HandleMarker(p: Point, target: Option<Point>, now: real, dt: real)
      requires IsSqrt(sqrt) && dt != 0.0
      modifies this
      ensures State() == FollowMarker(old(State()), p, target, now, dt, sqrt)
    {
      ghost var s0 := State();
      StorePosition(p, now);
      AddSegment(p);
      ghost var extended := State();
      AppendVelocity(p, dt);
      AppendAcceleration(dt);
      AppendJerk(dt);
      assert State() == Derive(StoreMarker(s0, p, now), p, dt, sqrt);
      ghost var derived := State();
      AppendJitter(p);
      AppendTargetError(p, target);
      assert State() == Measure(derived, p, target, sqrt);
      UpdateRollingMetrics(now);
    }

    /** Counts the marker, remembers it if it is the first, and stores it with its timestamp. */
    method StorePosition(p: Point, now: real)
      modifies this
      ensures State() == StoreMarker(old(State()), p, now)
    {
      CountMarker(p);
      positions, timestamps := PushBounded(positions, p, TrailCapacity), PushBounded(timestamps, now, TrailCapacity);
    }

    /** Counts a present marker and remembers the first one of the session. */
    method CountMarker(p: Point)
      modifies this
      ensures State() == old(State()).(framesMarkerFound := old(framesMarkerFound) + 1,
                                       firstPosition := if old(firstPosition).None? then Some(p) else old(firstPosition))
    {
      framesMarkerFound := framesMarkerFound + 1;
      if firstPosition.None? {
        firstPosition := Some(p);
      }
    }

    /** Adds the segment from the previous stored position to the path length. */
    method AddSegment(p: Point)
      requires IsSqrt(sqrt)
      modifies this
      ensures State() == ExtendPath(old(State()), p, sqrt)
    {
      if |positions| > 1 {
        totalPathLength := totalPathLength + Distance(p, positions[|positions| - 2], sqrt);
      }
    }

    /** Appends the velocity once two positions are stored. */
    method AppendVelocity(p: Point, dt: real)
      requires dt != 0.0
      modifies this
      ensures State() == AddVelocity(old(State()), p, dt)
    {
      if |positions| >= 2 {
        velocities := PushBounded(velocities, Rate(p, positions[|positions| - 2], dt), TrailCapacity);
      }
    }

    /** Appends the acceleration once two velocities are stored. */
    method AppendAcceleration(dt: real)
      requires dt != 0.0
      modifies this
      ensures State() == AddAcceleration(old(State()), dt)
    {
      if |velocities| >= 2 {
        var acceleration := Rate(velocities[|velocities| - 1], velocities[|velocities| - 2], dt);
        accelerations := PushBounded(accelerations, acceleration, TrailCapacity);
      }
    }

    /** Records the jerk magnitude once two accelerations are stored. */
    method AppendJerk(dt: real)
      requires IsSqrt(sqrt) && dt != 0.0
      modifies this
      ensures State() == AddJerk(old(State()), dt, sqrt)
    {
      if |accelerations| >= 2 {
        var jerk := Magnitude(LatestRate(accelerations, dt), sqrt);
        currentJerk := jerk;
        jerkValues := PushBounded(jerkValues, jerk, WindowCapacity);
      }
    }

    /** Records the marker's jitter against the smoothed position once ten positions are stored. */
    method AppendJitter(p: Point)
      requires IsSqrt(sqrt)
      modifies this
      ensures State() == AddJitter(old(State()), p, sqrt)
    {
      if |positions| >= SmoothingWindow {
        var smoothed := SmoothPositions(positions, SmoothingWindow);
        RecentJitterIsSmoothed(positions, p, SmoothingWindow, sqrt);
        if smoothed.Some? {
          var jitter := Distance(p, smoothed.value, sqrt);
          currentJitter := jitter;
          jitterValues := PushBounded(jitterValues, jitter, WindowCapacity);
        }
      }
    }

    /** Records the distance to the target when there is one. */
    method AppendTargetError(p: Point, target: Option<Point>)
      requires IsSqrt(sqrt)
      modifies this
      ensures State() == AddTargetError(old(State()), p, target, sqrt)
    {
      if target.Some? {
        targetErrors := PushBounded(targetErrors, Distance(p, target.value, sqrt), TrailCapacity);
      }
    }

    /**
     * `_update_rolling_metrics(now)`: the trimming loop. The averages and
     * percentiles it refreshes are `AvgJitter` and the like.
     */
    method UpdateRollingMetrics(now: real)
      modifies this
      ensures State() == TrimRolling(old(State()), now)
    {
      timestamps, positions := TrimExpired(timestamps, positions, |jitterValues|, now - RollingSeconds);
    }

    /** `_compute_final_metrics`. */
    method ComputeFinalMetrics()
      requires IsSqrt(sqrt)
      modifies this
      ensures State() == Finalize(old(State()), sqrt)
    {
      ghost var s0 := State();
      ComputeWobbleRatio();
      ghost var s1 := State();
      if |targetErrors| > 0 {
        avgTargetError := Mean(targetErrors);
        p95TargetError := Percentile(targetErrors, 95.0);
      }
      assert State() == s1.(avgTargetError := Finalize(s0, sqrt).avgTargetError,
                            p95TargetError := Finalize(s0, sqrt).p95TargetError);
      ComputeMovementQualityScore();
    }

    /** The wobble ratio of `_compute_final_metrics`, with its two loops. */
    method ComputeWobbleRatio()
      requires IsSqrt(sqrt)
      modifies this
      ensures State() == old(State()).(wobbleRatio := Finalize(old(State()), sqrt).wobbleRatio)
    {
      if |positions| >= 2 && totalPathLength > 0.0 {
        var smoothed := SmoothTrail(positions);
        var smoothLength := PolylineLength(smoothed, sqrt);
        wobbleRatio := Wobble(totalPathLength, smoothLength);
      }
    }

    /** `_compute_movement_quality_score`. */
    method ComputeMovementQualityScore()
      modifies this
      ensures State() == old(State()).(movementQualityScore
        := QualityScore(old(State()).P95Jitter(), old(State()).P95Jerk(), wobbleRatio))
    {
      movementQualityScore := QualityScore(Percentile(jitterValues, 95.0), Percentile(jerkValues, 95.0), wobbleRatio);
    }

    /** `get_elapsed_time` at time `now`. */
    function ElapsedTime(now: real): (e: real)
      reads this
      ensures startTime.None? ==> e == 0.0
      ensures startTime.Some? ==> startTime.value + e == now
    {
      ElapsedSince(startTime, now)
    }

    /** `get_time_remaining` at time `now`. */
    function TimeRemaining(now: real): (r: real)
      reads this
      ensures 0.0 <= r && (!isActive ==> r == 0.0)
      ensures isActive && ElapsedTime(now) <= duration ==> r + ElapsedTime(now) == duration
    {
      Remaining(isActive, duration, ElapsedTime(now))
    }

    /** `get_final_metrics`. */
    function FinalMetrics(): (m: FollowFinalMetrics)
      requires Valid()
      reads this
      ensures 0.0 <= m.movementQualityScore <= 100.0 && m.wobbleRatio < 1.0
      ensures m.avgJitter == State().AvgJitter() && m.p95Jitter == State().P95Jitter()
      ensures m.avgJerk == State().AvgJerk() && m.p95Jerk == State().P95Jerk()
      ensures m.wobbleRatio == wobbleRatio && m.movementQualityScore == movementQualityScore
      ensures m.avgTargetError == avgTargetError && m.p95TargetError == p95TargetError
      ensures m.framesTotal == framesTotal && m.framesMarkerFound == framesMarkerFound && m.durationS == duration
    {
      var s := State();
      FollowFinalMetrics(duration, s.AvgJitter(), s.P95Jitter(), s.AvgJerk(), s.P95Jerk(), wobbleRatio,
        movementQualityScore, avgTargetError, p95TargetError, framesTotal, framesMarkerFound)
    }
  }
}
