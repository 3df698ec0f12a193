/**
 * The HOLD session manager (`CompVis/session.py`, and its copy
 * `backend/app/compvis/session.py` with two extra getters): a timed session
 * that counts frames, keeps the last 300 marker positions with their
 * timestamps, records the jitter of every marker from the tenth stored one on
 * in a 30-value rolling window, trims positions older than one second, and
 * derives the tremor score from that window.
 *
 * Wall-clock time is the parameter `now` of every operation that reads it.
 */
module HoldSession {
  import opened Wrappers
  import opened Numeric
  import opened Geometry
  import opened Statistics
  import opened Rolling
  import opened Smoothing
  import opened Jitter
  import opened Timing

  const PositionsCapacity: nat := 300
  const JitterCapacity: nat := 30
  const WarmUp: nat := 10
  /** Timestamps older than this many seconds before `now` are trimmed. */
  const RollingSeconds: real := 1.0

  /** Every field of a `SessionManager` except the constant `duration`. */
  datatype HoldState = HoldState(
    startTime: Option<real>,
    isActive: bool,
    positions: seq<Point>,
    timestamps: seq<real>,
    jitterValues: seq<real>,
    framesTotal: nat,
    framesMarkerFound: nat,
    framesInsideCircle: nat,
    currentJitter: real)
  {
    /**
     * `avg_jitter`, `p95_jitter` and `tremor_score`: the source stores them in
     * fields after every append to the jitter window and zeroes them when the
     * window is cleared, so they are always these functions of the window.
     */
    function AvgJitter(): real { WindowMean(jitterValues) }
    function P95Jitter(): real { Percentile(jitterValues, 95.0) }
    function TremorScore(): real { 0.7 * P95Jitter() + 0.3 * AvgJitter() }
  }

  /** The state after `__init__`: never started. */
  function InitialHold(): HoldState {
    HoldState(None, false, [], [], [], 0, 0, 0, 0.0)
  }

  /** The state after `start_session` at time `now`. */
  function Started(now: real): HoldState {
    HoldState(Some(now), true, [], [], [], 0, 0, 0, 0.0)
  }

  /** `get_elapsed_time` of a session. */
  function Elapsed(s: HoldState, now: real): real {
    ElapsedSince(s.startTime, now)
  }

  /** `get_stability_pct`: the share of frames with the marker inside the circle, in percent. */
  function StabilityPct(s: HoldState): (pct: real)
    requires s.framesInsideCircle <= s.framesTotal
    ensures s.framesTotal == 0 ==> pct == 0.0
    ensures 0.0 <= pct <= 100.0
    ensures pct == 100.0 <==> 0 < s.framesTotal == s.framesInsideCircle
  {
    if s.framesTotal == 0 then 0.0
    else
      var share := s.framesInsideCircle as real / s.framesTotal as real;
      DivUnit(s.framesInsideCircle as real, s.framesTotal as real);
      assert share == 1.0 ==> s.framesInsideCircle as real == s.framesTotal as real;
      share * 100.0
  }

  /** A present marker is counted and stored with its timestamp. */
  function StoreMarker(s: HoldState, p: Point, now: real): HoldState {
    s.(framesMarkerFound := s.framesMarkerFound + 1,
       positions := PushBounded(s.positions, p, PositionsCapacity),
       timestamps := PushBounded(s.timestamps, now, PositionsCapacity))
  }

  /** Whether the marker counts as inside: a circle is given and the marker is within its radius. */
  function InsideCircle(p: Point, center: Option<Point>, radius: real, sqrt: real -> real): bool
    requires IsSqrt(sqrt)
  {
    center.Some? && PointInCircle(p, center.value, radius, sqrt)
  }

  /**
   * Records the jitter `jitter` of the newest marker at time `now`: it becomes
   * the current jitter and joins the rolling window, and then the trimming
   * loop drops the timestamps before `now - 1.0` (with their positions) while
   * there are more timestamps than jitter values.
   */
  function RecordJitter(s: HoldState, jitter: real, now: real): HoldState {
    var window := PushBounded(s.jitterValues, jitter, JitterCapacity);
    var dropped := ExpiredCount(s.timestamps, |window|, now - RollingSeconds);
    s.(currentJitter := jitter,
       jitterValues := window,
       timestamps := s.timestamps[dropped..],
       positions := s.positions[DroppedPositions(|s.positions|, dropped, |window|)..])
  }

  /**
   * What happens once marker `p` is stored: with ten stored positions its
   * distance to the mean of the last ten is recorded.
   */
  function Observe(s: HoldState, p: Point, now: real, sqrt: real -> real): HoldState
    requires IsSqrt(sqrt)
  {
    if |s.positions| < WarmUp then s
    else RecordJitter(s, RecentJitter(s.positions, p, WarmUp, sqrt), now)
  }

  /** The session stops once the elapsed time reaches the duration. */
  function AutoStop(s: HoldState, duration: real, now: real): HoldState {
    s.(isActive := s.isActive && Elapsed(s, now) < duration)
  }

  /** A present marker is stored, and counted inside when a circle is given and it lies within. */
  function Admit(s: HoldState, p: Point, center: Option<Point>, radius: real, now: real, sqrt: real -> real): HoldState
    requires IsSqrt(sqrt)
  {
    var stored := StoreMarker(s, p, now);
    stored.(framesInsideCircle := stored.framesInsideCircle + if InsideCircle(p, center, radius, sqrt) then 1 else 0)
  }

  /** Every active `update` counts the frame first. */
  function CountFrame(s: HoldState): HoldState {
    s.(framesTotal := s.framesTotal + 1)
  }

  /** The body of an active `update`: count the frame, then admit and observe a present marker. */
  function Tick(s: HoldState, marker: Option<Point>, center: Option<Point>, radius: real, now: real, sqrt: real -> real): HoldState
    requires IsSqrt(sqrt)
  {
    var counted := CountFrame(s);
    match marker
    case None => counted
    case Some(p) => Observe(Admit(counted, p, center, radius, now, sqrt), p, now, sqrt)
  }

  /**
   * `update(marker_pos, circle_center, circle_radius)` at time `now`: nothing
   * when inactive; otherwise count the frame, store and observe a present
   * marker, and stop once the duration is reached.
   */
  function HoldStep(s: HoldState, marker: Option<Point>, center: Option<Point>, radius: real,
                    duration: real, now: real, sqrt: real -> real): (t: HoldState)
    requires IsSqrt(sqrt)
  {
    if !s.isActive then s
    else AutoStop(Tick(s, marker, center, radius, now, sqrt), duration, now)
  }

  /**
   * What every reachable state satisfies: inside <= found <= total, positions
   * and timestamps in step and bounded, the jitter window bounded, and every
   * jitter value (and the current one) non-negative.
   */
  predicate HoldInvariant(s: HoldState) {
    && s.framesInsideCircle <= s.framesMarkerFound <= s.framesTotal
    && |s.positions| == |s.timestamps| <= PositionsCapacity
    && |s.jitterValues| <= JitterCapacity
    && 0.0 <= s.currentJitter
    && (forall i :: 0 <= i < |s.jitterValues| ==> 0.0 <= s.jitterValues[i])
  }

  lemma InitialHoldInvariant(now: real)
    ensures HoldInvariant(InitialHold()) && HoldInvariant(Started(now))
    ensures InitialHold().AvgJitter() == InitialHold().P95Jitter() == InitialHold().TremorScore() == 0.0
    ensures Started(now).TremorScore() == 0.0 && Elapsed(Started(now), now) == 0.0
  {
  }

  /** Recording a non-negative jitter keeps the invariant. */
  lemma RecordJitterKeepsInvariant(s: HoldState, jitter: real, now: real)
    requires HoldInvariant(s) && 0.0 <= jitter
    ensures HoldInvariant(RecordJitter(s, jitter, now))
  {
    var window := PushBounded(s.jitterValues, jitter, JitterCapacity);
    TrimKeepsPairs(s.timestamps, |s.positions|, |window|, now - RollingSeconds);
    forall i | 0 <= i < |window|
      ensures 0.0 <= window[i]
    {
      var k := |s.jitterValues| + 1 - |window| + i;
      if k < |s.jitterValues| {
        assert window[i] == s.jitterValues[k];
      }
    }
  }

  /** Observing a stored marker keeps the invariant. */
  lemma ObserveKeepsInvariant(s: HoldState, p: Point, now: real, sqrt: real -> real)
    requires IsSqrt(sqrt) && HoldInvariant(s)
    ensures HoldInvariant(Observe(s, p, now, sqrt))
  {
    if |s.positions| >= WarmUp {
      RecordJitterKeepsInvariant(s, RecentJitter(s.positions, p, WarmUp, sqrt), now);
    }
  }

  /** Admitting a marker in a frame already counted keeps the invariant. */
  lemma AdmitKeepsInvariant(s: HoldState, p: Point, center: Option<Point>, radius: real, now: real, sqrt: real -> real)
    requires IsSqrt(sqrt) && HoldInvariant(s) && s.framesMarkerFound < s.framesTotal
    ensures HoldInvariant(Admit(s, p, center, radius, now, sqrt))
  {
  }

  /** The body of an active `update` keeps the invariant. */
  lemma TickKeepsInvariant(s: HoldState, marker: Option<Point>, center: Option<Point>, radius: real,
                           now: real, sqrt: real -> real)
    requires IsSqrt(sqrt) && HoldInvariant(s)
    ensures HoldInvariant(Tick(s, marker, center, radius, now, sqrt))
  {
    if marker.Some? {
      var admitted := Admit(CountFrame(s), marker.value, center, radius, now, sqrt);
      AdmitKeepsInvariant(CountFrame(s), marker.value, center, radius, now, sqrt);
      ObserveKeepsInvariant(admitted, marker.value, now, sqrt);
      TickObserves(s, marker.value, center, radius, now, sqrt);
    }
  }

  /** `update` keeps the invariant. */
  lemma HoldStepKeepsInvariant(s: HoldState, marker: Option<Point>, center: Option<Point>, radius: real,
                               duration: real, now: real, sqrt: real -> real)
    requires IsSqrt(sqrt) && HoldInvariant(s)
    ensures HoldInvariant(HoldStep(s, marker, center, radius, duration, now, sqrt))
  {
    if s.isActive {
      TickKeepsInvariant(s, marker, center, radius, now, sqrt);
    }
  }

  /** `update` on an inactive session changes nothing. */
  lemma InactiveUpdateIsNoOp(s: HoldState, marker: Option<Point>, center: Option<Point>, radius: real,
                             duration: real, now: real, sqrt: real -> real)
    requires IsSqrt(sqrt) && !s.isActive
    ensures HoldStep(s, marker, center, radius, duration, now, sqrt) == s
  {
  }

  /**
   * The counters of an active `update`: every frame counts, a marker counts
   * as found exactly when present, and as inside exactly when present with a
   * circle it lies in.
   */
  lemma ActiveUpdateCounts(s: HoldState, marker: Option<Point>, center: Option<Point>, radius: real,
                           duration: real, now: real, sqrt: real -> real)
    requires IsSqrt(sqrt) && s.isActive
    ensures var t := HoldStep(s, marker, center, radius, duration, now, sqrt);
      && t.framesTotal == s.framesTotal + 1
      && t.framesMarkerFound == s.framesMarkerFound + (if marker.Some? then 1 else 0)
      && t.framesInsideCircle == s.framesInsideCircle
           + (if marker.Some? && InsideCircle(marker.value, center, radius, sqrt) then 1 else 0)
  {
  }

  /** The update on which the elapsed time reaches the duration stops the session, and only that one does. */
  lemma UpdateStopsAtDuration(s: HoldState, marker: Option<Point>, center: Option<Point>, radius: real,
                              duration: real, now: real, sqrt: real -> real)
    requires IsSqrt(sqrt) && s.isActive
    ensures HoldStep(s, marker, center, radius, duration, now, sqrt).isActive <==> Elapsed(s, now) < duration
  {
  }

  /**
   * Warm-up: while fewer than ten positions are stored after the append, no
   * jitter is recorded and the window and current jitter stay as they were.
   */
  lemma NoJitterDuringWarmUp(s: HoldState, p: Point, center: Option<Point>, radius: real,
                             duration: real, now: real, sqrt: real -> real)
    requires IsSqrt(sqrt) && s.isActive && HoldInvariant(s)
    requires |PushBounded(s.positions, p, PositionsCapacity)| < WarmUp
    ensures var t := HoldStep(s, Some(p), center, radius, duration, now, sqrt);
      && t.jitterValues == s.jitterValues && t.currentJitter == s.currentJitter
      && t.positions == s.positions + [p] && t.timestamps == s.timestamps + [now]
  {
    PushBoundedNewest(s.positions, p, PositionsCapacity);
    PushBoundedNewest(s.timestamps, now, PositionsCapacity);
    var admitted := Admit(CountFrame(s), p, center, radius, now, sqrt);
    assert Observe(admitted, p, now, sqrt) == admitted;
    assert Tick(s, Some(p), center, radius, now, sqrt) == admitted;
  }

  /** An active frame with a marker admits it, then observes it. */
  lemma TickObserves(s: HoldState, p: Point, center: Option<Point>, radius: real, now: real, sqrt: real -> real)
    requires IsSqrt(sqrt)
    ensures var admitted := Admit(CountFrame(s), p, center, radius, now, sqrt);
      && Tick(s, Some(p), center, radius, now, sqrt) == Observe(admitted, p, now, sqrt)
      && admitted.positions == PushBounded(s.positions, p, PositionsCapacity)
      && admitted.timestamps == PushBounded(s.timestamps, now, PositionsCapacity)
      && admitted.jitterValues == s.jitterValues
  {
  }

  /** An active `update` is its body followed by the duration check. */
  lemma ActiveStepTicks(s: HoldState, marker: Option<Point>, center: Option<Point>, radius: real,
                        duration: real, now: real, sqrt: real -> real)
    requires IsSqrt(sqrt) && s.isActive
    ensures var t := HoldStep(s, marker, center, radius, duration, now, sqrt);
      var ticked := Tick(s, marker, center, radius, now, sqrt);
      && t.currentJitter == ticked.currentJitter && t.jitterValues == ticked.jitterValues
      && t.positions == ticked.positions && t.timestamps == ticked.timestamps
  {
  }

  /**
   * Observing with ten or more stored positions makes the marker's distance
   * to the mean of the last ten the current jitter and the newest window value.
   */
  lemma ObserveAfterWarmUp(s: HoldState, p: Point, now: real, sqrt: real -> real)
    requires IsSqrt(sqrt) && WarmUp <= |s.positions|
    ensures var t := Observe(s, p, now, sqrt);
      && t.currentJitter == RecentJitter(s.positions, p, WarmUp, sqrt)
      && t.jitterValues == PushBounded(s.jitterValues, t.currentJitter, JitterCapacity)
  {
  }

  /**
   * The trimming after a recorded jitter removes only timestamps before
   * `now - 1.0`, oldest first, and leaves at least as many timestamps as
   * jitter values (unless there were fewer to begin with).
   */
  lemma RecordJitterTrims(s: HoldState, jitter: real, now: real)
    ensures var t := RecordJitter(s, jitter, now);
      && |t.timestamps| <= |s.timestamps|
      && t.timestamps == s.timestamps[|s.timestamps| - |t.timestamps|..]
      && (forall i :: 0 <= i < |s.timestamps| - |t.timestamps| ==> s.timestamps[i] < now - RollingSeconds)
      && |t.timestamps| >= Min(|s.timestamps|, |t.jitterValues|)
  {
    var window := PushBounded(s.jitterValues, jitter, JitterCapacity);
    ExpiredAreOld(s.timestamps, |window|, now - RollingSeconds);
    ExpiredKeepsEnough(s.timestamps, |window|, now - RollingSeconds);
  }

  /** The same for observing with ten or more stored positions. */
  lemma ObserveTrims(s: HoldState, p: Point, now: real, sqrt: real -> real)
    requires IsSqrt(sqrt) && WarmUp <= |s.positions|
    ensures var t := Observe(s, p, now, sqrt);
      && |t.timestamps| <= |s.timestamps|
      && t.timestamps == s.timestamps[|s.timestamps| - |t.timestamps|..]
      && (forall i :: 0 <= i < |s.timestamps| - |t.timestamps| ==> s.timestamps[i] < now - RollingSeconds)
      && |t.timestamps| >= Min(|s.timestamps|, |t.jitterValues|)
  {
    var jitter := RecentJitter(s.positions, p, WarmUp, sqrt);
    assert Observe(s, p, now, sqrt) == RecordJitter(s, jitter, now);
    RecordJitterTrims(s, jitter, now);
  }

  /**
   * From the tenth stored position on, the marker's distance to the mean of
   * the last ten stored positions becomes the current jitter ...
   */
  lemma JitterAfterWarmUp(s: HoldState, p: Point, center: Option<Point>, radius: real,
                          duration: real, now: real, sqrt: real -> real)
    requires IsSqrt(sqrt) && s.isActive
    requires WarmUp <= |PushBounded(s.positions, p, PositionsCapacity)|
    ensures var ps := PushBounded(s.positions, p, PositionsCapacity);
      HoldStep(s, Some(p), center, radius, duration, now, sqrt).currentJitter
        == RecentJitter(ps, p, WarmUp, sqrt)
  {
    var admitted := Admit(CountFrame(s), p, center, radius, now, sqrt);
    TickObserves(s, p, center, radius, now, sqrt);
    ObserveAfterWarmUp(admitted, p, now, sqrt);
    ActiveStepTicks(s, Some(p), center, radius, duration, now, sqrt);
  }

  /** ... and the newest value of the rolling window. */
  lemma WindowAfterWarmUp(s: HoldState, p: Point, center: Option<Point>, radius: real,
                          duration: real, now: real, sqrt: real -> real)
    requires IsSqrt(sqrt) && s.isActive
    requires WarmUp <= |PushBounded(s.positions, p, PositionsCapacity)|
    ensures var t := HoldStep(s, Some(p), center, radius, duration, now, sqrt);
      t.jitterValues == PushBounded(s.jitterValues, t.currentJitter, JitterCapacity)
  {
    var admitted := Admit(CountFrame(s), p, center, radius, now, sqrt);
    TickObserves(s, p, center, radius, now, sqrt);
    ObserveAfterWarmUp(admitted, p, now, sqrt);
    ActiveStepTicks(s, Some(p), center, radius, duration, now, sqrt);
  }

  /** The trimming facts for the timestamps of an active `update` with a marker, from the tenth stored position on. */
  lemma TrimAfterWarmUp(s: HoldState, p: Point, center: Option<Point>, radius: real,
                        duration: real, now: real, sqrt: real -> real)
    requires IsSqrt(sqrt) && s.isActive
    requires WarmUp <= |PushBounded(s.positions, p, PositionsCapacity)|
    ensures var ts := PushBounded(s.timestamps, now, PositionsCapacity);
      var t := HoldStep(s, Some(p), center, radius, duration, now, sqrt);
      && |t.timestamps| <= |ts|
      && t.timestamps == ts[|ts| - |t.timestamps|..]
      && (forall i :: 0 <= i < |ts| - |t.timestamps| ==> ts[i] < now - RollingSeconds)
      && |t.timestamps| >= Min(|ts|, |t.jitterValues|)
  {
    var admitted := Admit(CountFrame(s), p, center, radius, now, sqrt);
    TickObserves(s, p, center, radius, now, sqrt);
    ObserveTrims(admitted, p, now, sqrt);
    ActiveStepTicks(s, Some(p), center, radius, duration, now, sqrt);
  }

  /** With every window value in [0, hi], the average, 95th percentile and tremor score are too. */
  lemma TremorScoreWithin(s: HoldState, hi: real)
    requires 0.0 <= hi
    requires forall i :: 0 <= i < |s.jitterValues| ==> 0.0 <= s.jitterValues[i] <= hi
    ensures 0.0 <= s.AvgJitter() <= hi && 0.0 <= s.P95Jitter() <= hi
    ensures 0.0 <= s.TremorScore() <= hi
  {
    if |s.jitterValues| > 0 {
      MeanBounds(s.jitterValues, 0.0, hi);
      PercentileWithin(s.jitterValues, 95.0, 0.0, hi);
    }
  }

  /** A window holding one value everywhere has that value as its tremor score. */
  lemma TremorScoreOfSteadyWindow(s: HoldState, c: real)
    requires |s.jitterValues| > 0
    requires forall i :: 0 <= i < |s.jitterValues| ==> s.jitterValues[i] == c
    ensures s.TremorScore() == c
  {
    MeanOfConstant(s.jitterValues, c);
    PercentileWithin(s.jitterValues, 95.0, c, c);
  }

  /** `get_stability_score` of the backend copy: 100 up to 5, 0 from 30, falling by 4 per unit between. */
  function StabilityScore(jitter: real): (score: int)
    ensures 0 <= score <= 100
    ensures jitter <= JitterStableThreshold ==> score == 100
    ensures JitterMaxThreshold <= jitter ==> score == 0
  {
    if jitter <= JitterStableThreshold then 100
    else if jitter >= JitterMaxThreshold then 0
    else
      var raw := 100.0 - (jitter - JitterStableThreshold) * 4.0;
      TruncMonotone(raw, 100.0);
      TruncOfInt(100);
      Max(0, Trunc(raw))
  }

  /** More jitter never scores higher. */
  lemma StabilityScoreMonotone(a: real, b: real)
    requires a <= b
    ensures StabilityScore(b) <= StabilityScore(a)
  {
    if JitterStableThreshold < a && b < JitterMaxThreshold {
      TruncMonotone(100.0 - (b - JitterStableThreshold) * 4.0, 100.0 - (a - JitterStableThreshold) * 4.0);
    }
  }

  /** `get_final_metrics`, without the presentation rounding. */
  datatype HoldFinalMetrics = HoldFinalMetrics(
    durationS: real, avgJitter: real, p95Jitter: real, tremorScore: real,
    insideCirclePct: real, framesTotal: nat, framesMarkerFound: nat)

  class SessionManager {
    const sqrt: real -> real
    const duration: real
    var startTime: Option<real>
    var isActive: bool
    var positions: seq<Point>
    var timestamps: seq<real>
    var jitterValues: seq<real>
    var framesTotal: nat
    var framesMarkerFound: nat
    var framesInsideCircle: nat
    var currentJitter: real

    /** All fields as one value. */
    function State(): HoldState
      reads this
    {
      HoldState(startTime, isActive, positions, timestamps, jitterValues,
        framesTotal, framesMarkerFound, framesInsideCircle, currentJitter)
    }

    ghost predicate Valid()
      reads this
    {
      IsSqrt(sqrt) && HoldInvariant(State())
    }

    constructor(sqrt: real -> real, duration: real)
      requires IsSqrt(sqrt)
      ensures Valid() && this.sqrt == sqrt && this.duration == duration
      ensures State() == InitialHold()
    {
      this.sqrt := sqrt;
      this.duration := duration;
      startTime, isActive := None, false;
      positions, timestamps, jitterValues := [], [], [];
      framesTotal, framesMarkerFound, framesInsideCircle := 0, 0, 0;
      currentJitter := 0.0;
    }

    /** `start_session` at time `now`: a fresh, active session. */
    method StartSession(now: real)
      requires IsSqrt(sqrt)
      modifies this
      ensures Valid()
      ensures State() == Started(now)
    {
      startTime, isActive := Some(now), true;
      positions, timestamps, jitterValues := [], [], [];
      framesTotal, framesMarkerFound, framesInsideCircle := 0, 0, 0;
      currentJitter := 0.0;
    }

    /** `stop_session`. */
    method StopSession()
      modifies this
      ensures State() == old(State()).(isActive := false)
    {
      isActive := false;
    }

    /** `update(marker_pos, circle_center, circle_radius)` at time `now`, in place. */
    method Update(marker: Option<Point>, center: Option<Point>, radius: real, now: real)
      requires Valid()
      modifies this
      ensures Valid()
      ensures State() == HoldStep(old(State()), marker, center, radius, duration, now, sqrt)
    {
      ghost var s0 := State();
      if isActive {
        TickFrame(marker, center, radius, now);
        if ElapsedTime(now) >= duration {
          StopSession();
        }
      }
      assert State() == HoldStep(s0, marker, center, radius, duration, now, sqrt);
      HoldStepKeepsInvariant(s0, marker, center, radius, duration, now, sqrt);
    }

    /** The body of an active `update`. */
    method TickFrame(marker: Option<Point>, center: Option<Point>, radius: real, now: real)
      requires IsSqrt(sqrt)
      modifies this
      ensures State() == Tick(old(State()), marker, center, radius, now, sqrt)
    {
      ghost var s0 := State();
      framesTotal := framesTotal + 1;
      assert State() == CountFrame(s0);
      if marker.Some? {
        AdmitMarker(marker.value, center, radius, now);
        ObservePosition(marker.value, now);
        TickObserves(s0, marker.value, center, radius, now, sqrt);
      }
    }

    /** Stores a present marker and counts it inside the circle when it is. */
    method AdmitMarker(p: Point, center: Option<Point>, radius: real, now: real)
      requires IsSqrt(sqrt)
      modifies this
      ensures State() == Admit(old(State()), p, center, radius, now, sqrt)
    {
      StorePosition(p, now);
      if InsideCircle(p, center, radius, sqrt) {
        framesInsideCircle := framesInsideCircle + 1;
      }
    }

    /** Counts a present marker and stores it with its timestamp. */
    method StorePosition(p: Point, now: real)
      modifies this
      ensures State() == StoreMarker(old(State()), p, now)
    {
      framesMarkerFound := framesMarkerFound + 1;
      positions := PushBounded(positions, p, PositionsCapacity);
      timestamps := PushBounded(timestamps, now, PositionsCapacity);
    }

    /** Measures and records the newest stored marker once ten are stored. */
    method ObservePosition(p: Point, now: real)
      requires IsSqrt(sqrt)
      modifies this
      ensures State() == Observe(old(State()), p, now, sqrt)
    {
      if |positions| < WarmUp {
        return;
      }
      var smoothed := SmoothPositions(positions, WarmUp);
      if smoothed.None? {
        return;
      }
      var jitter := Distance(p, smoothed.value, sqrt);
      currentJitter := jitter;
      jitterValues := PushBounded(jitterValues, jitter, JitterCapacity);
      timestamps, positions := TrimExpired(timestamps, positions, |jitterValues|, now - RollingSeconds);
    }

    /** `get_elapsed_time` at time `now`. */
    function ElapsedTime(now: real): (e: real)
      reads this
      ensures startTime.None? ==> e == 0.0
      ensures startTime.Some? ==> startTime.value + e == now
    {
      ElapsedSince(startTime, now)
    }

    /** `get_time_remaining` at time `now`. */
    function TimeRemaining(now: real): (r: real)
      reads this
      ensures 0.0 <= r && (!isActive ==> r == 0.0)
      ensures isActive && ElapsedTime(now) <= duration ==> r + ElapsedTime(now) == duration
    {
      Remaining(isActive, duration, ElapsedTime(now))
    }

    /** `get_stability_pct`. */
    function StabilityPctNow(): (pct: real)
      requires Valid()
      reads this
      ensures pct == StabilityPct(State()) && 0.0 <= pct <= 100.0
    {
      if framesTotal == 0 then 0.0 else StabilityPct(State())
    }

    /** `get_stability_level` of the backend copy: 5 and 15 are inclusive bounds on the current jitter. */
    function StabilityLevel(): (l: StabilityLevel)
      reads this
      ensures l == Stable <==> currentJitter <= JitterStableThreshold
      ensures l == Unstable <==> JitterWarningThreshold < currentJitter
    {
      Level(currentJitter, JitterStableThreshold, JitterWarningThreshold)
    }

    /** `get_stability_score` of the backend copy, on the current jitter. */
    function StabilityScoreNow(): (score: int)
      reads this
      ensures 0 <= score <= 100 && score == StabilityScore(currentJitter)
    {
      StabilityScore(currentJitter)
    }

    /** `get_final_metrics`. */
    function FinalMetrics(): (m: HoldFinalMetrics)
      requires Valid()
      reads this
      ensures m.tremorScore == State().TremorScore() && 0.0 <= m.insideCirclePct <= 100.0
      ensures m.avgJitter == State().AvgJitter() && m.p95Jitter == State().P95Jitter()
      ensures m.tremorScore == 0.7 * m.p95Jitter + 0.3 * m.avgJitter
      ensures m.insideCirclePct == StabilityPct(State()) == StabilityPctNow()
      ensures m.framesTotal == framesTotal && m.framesMarkerFound == framesMarkerFound && m.durationS == duration
    {
      var s := State();
      HoldFinalMetrics(duration, s.AvgJitter(), s.P95Jitter(), s.TremorScore(), StabilityPct(s),
        framesTotal, framesMarkerFound)
    }
  }
}
