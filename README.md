# SteadyScript metrics engine in Dafny

SteadyScript is a tremor-training system. A camera tracks a coloured pen
marker, and the program turns that stream of optional 2-D positions into
steadiness metrics. Those metrics are jitter, lateral jitter, jerk, wobble,
0–100 scores, stability levels and saved session statistics.

This project models the engine behind those numbers and proves properties of
it:

- **Geometry and statistics helpers** (`geometry.dfy`, `statistics.dfy`,
  `smoothing.dfy`, `numeric.dfy`):
  - distance, clamping, the inclusive point-in-rectangle and point-in-circle
    tests, and the point-to-line distance;
  - sorting and the interpolating percentile;
  - the moving-average smoother and `calculate_jitter`.

  The three copies of these helpers (game, desktop and backend) are the same
  code, so they are modelled once.
- **The A/B game's `JitterTracker`, `HoldMetrics` and `FollowMetrics`**
  (`jitter.dfy`, `tracker.dfy`). These are a tick-driven accumulator with
  bounded and unbounded histories, a warm-up, lateral (perpendicular) jitter
  and clamped linear scores.
- **The HOLD `SessionManager`** (`hold_session.dfy`), covering both copies.
  It has frame counters, the inside-circle count and the one-second trimming
  loop; the loop itself is in `rolling.dfy`.
- **The FOLLOW `FollowSessionManager`** (`follow_session.dfy`). It adds the
  velocity → acceleration → jerk chain, the path length, the wobble ratio of
  a smoothed trail and the movement quality score.
- **`TargetPath`** (`target_path.dfy`): the target dot travelling A → B → A
  with a speed ramp.
- **The calibration protocols**:
  - the two-click centre/edge protocol, desktop and backend variants
    (`calibration.dfy`);
  - the game's click-count protocol (`game2.dfy`);
  - the A/B point protocol of the FOLLOW application (`app_level2.dfy`).
- **The application state machines**:
  - the game's IDLE/RUNNING/COMPLETE loop with BPM clamping (`game2.dfy`);
  - the desktop application's MENU/CALIBRATE/READY/RUNNING/RESULT machine
    (`app_main.dfy`);
  - the FOLLOW application's machine (`app_level2.dfy`).
- **Small backend decisions**:
  - the standard-deviation stability calculator (`stability.dfy`);
  - feedback message selection (`feedback.dfy`);
  - session-history filtering, sorting, limiting and trend statistics
    (`session_history.dfy`).

Modelling conventions:

- **Numbers.** Coordinates and metrics are `real`.
- **Square root.** `math.sqrt` is a parameter `sqrt` constrained by
  `Geometry.IsSqrt`, which makes it the exact non-negative square root.
- **Wall clock.** `time.time()` is a parameter `now`.
- **Python's `int()` on a float** is `Numeric.Trunc`, which truncates toward
  zero.
- **Python's `% 1.0`** is the distance from the floor.
- **Classes that update fields in place** are modelled the same way in two
  steps:
  - First, a datatype value holds every field, and pure functions say what
    each operation does to it (`HoldSession.HoldStep`, `Tracker.Step`,
    `FollowSession.FollowStep`, `Game.KeyStep`, `AppMain.KeyStep`, …).
    The lemmas prove the properties about these functions.
  - Second, a Dafny `class` holds the same fields, and its methods are
    proved to change them exactly as those functions say. The loops
    (trimming, smoothing the trail, the path length, the insertion sort)
    are `while` loops with invariants.

## Model

| member | source | states |
|---|---|---|
| Numeric.Trunc | backend/app/compvis/session.py:150 | Python's `int()` truncates toward zero: the floor for non-negative arguments, and for negative ones the integer in `[r, r + 1)`, so never larger in magnitude than its argument |
| Numeric.TruncMonotone | backend/app/compvis/session.py:150 | truncation keeps the order of its arguments, so truncated scores stay monotone |
| Geometry.Distance | backend/app/compvis/game2.py:140-141 | the distance is non-negative, its square is the sum of the squared coordinate differences, and it is zero exactly when the points coincide |
| Geometry.DistanceSymmetric | backend/app/compvis/game2.py:140-141 | the distance from p to q equals the distance from q to p |
| Geometry.Clamp | backend/app/compvis/game2.py:144-145 | `max(lo, min(hi, v))` lies in [lo, hi] when lo ≤ hi; it is v inside the range, lo below it and hi above it |
| Geometry.PointInRectCorners | backend/app/compvis/game2.py:160-163 | all four corners at `size // 2` from the centre are inside the square, so the test is inclusive on every side |
| Geometry.PointInCircleSquared | backend/app/compvis/game2.py:166-167 | a point is inside exactly when the radius is non-negative and the squared distance is at most the squared radius, so the boundary counts as inside |
| Geometry.PointInZeroCircle | CompVis/utils.py:116-131 | a circle of radius 0 contains exactly its centre |
| Geometry.PointToLineDistance | backend/app/compvis/game2.py:170-183 | the distance to the line is non-negative, and when the two line points coincide it is the plain distance to `line_start` |
| Geometry.PointOnLineHasZeroDistance | backend/app/compvis/game2.py:170-183 | every point `a + t (b - a)` of the line through a and b is at distance 0 from it |
| Geometry.PointToLineAtMostDistanceToStart | backend/app/compvis/game2.py:170-183 | the distance to the line never exceeds the distance to `line_start`, which lies on the line |
| Statistics.Sort | backend/app/compvis/game2.py:151 | `sorted(values)` is ascending and a permutation of its input |
| Statistics.SortPermutationInvariant | CompVis/utils.py:105 | sorting depends only on the multiset of the values |
| Statistics.MeanBounds | CompVis/session.py:123 | a mean of values in [lo, hi] lies in [lo, hi] |
| Statistics.MeanOfConstant | CompVis/session.py:123 | the mean of equal values is that value |
| Statistics.Lerp | backend/app/compvis/game2.py:157 | interpolating with a fraction in [0, 1] stays between the two ends, and is the lower end at fraction 0 |
| Statistics.PercentileIndex | backend/app/compvis/game2.py:152 | for a percentile in [0, 100] the index `p / 100 * (n - 1)` lies in [0, n - 1], so both neighbours exist |
| Statistics.SortedPercentile | CompVis/utils.py:108-113 | the element at an integral index, or the interpolation of the two neighbours, lies between the least and greatest sorted element |
| Statistics.Percentile | backend/app/compvis/game2.py:148-157 | `compute_percentile` is 0.0 on no values, and otherwise lies between the least and the greatest sorted value |
| Statistics.SortedEnds | backend/app/compvis/game2.py:151 | the first and last sorted values are values of the input, and are its minimum and maximum |
| Statistics.PercentileBetweenMinAndMax | backend/app/compvis/utils.py:46-57 | some input value is at most the percentile, and some input value is at least it |
| Statistics.PercentileWithin | backend/app/compvis/utils.py:35-57 | any bounds on every value also bound the percentile |
| Statistics.PercentileZeroIsMin | CompVis/utils.py:105-110 | the 0th percentile is an input value no greater than any other: the minimum |
| Statistics.PercentileHundredIsMax | CompVis/utils.py:105-110 | the 100th percentile is an input value no smaller than any other: the maximum |
| Statistics.PercentilePermutationInvariant | CompVis/utils.py:102-113 | the percentile depends only on the multiset of values, not their order |
| Smoothing.Recent | CompVis/utils.py:80 | `positions[-window:] if len > window else positions` is a suffix of the positions and no longer than them, for every window including 0 and negative ones |
| Smoothing.RecentIsLastWindow | CompVis/utils.py:80 | for a positive window, the recent positions are exactly the last `min(window, n)` |
| Smoothing.RecentNonEmpty | CompVis/utils.py:80-83 | a non-negative window keeps a non-empty list non-empty and ending with the newest position |
| Smoothing.SmoothPositions | CompVis/utils.py:65-88 | `smooth_positions` is `None` exactly for an empty list (non-negative window), and otherwise the centroid of the recent positions |
| Smoothing.CentroidInBox | CompVis/utils.py:85-88 | the mean of the positions lies in every axis-aligned box that holds all of them |
| Smoothing.CentroidOfConstant | backend/app/compvis/utils.py:29-32 | the mean of copies of one point is that point |
| Smoothing.SmoothPositionsInBox | backend/app/compvis/utils.py:10-32 | the smoothed position lies in the bounding box of the positions |
| Smoothing.RecentJitter | CompVis/session.py:94-102 | the distance of the marker from the mean of the last `window` positions is non-negative |
| Smoothing.RecentJitterIsSmoothed | CompVis/session.py:96-102 | once `window` positions are stored, that jitter is the distance to `smooth_positions(positions, window)`, which is defined |
| Smoothing.CalculateJitter | backend/app/compvis/utils.py:78-100 | `calculate_jitter` is 0.0 for fewer than two positions, otherwise the non-negative distance from the newest position to the centroid of the recent ones |
| Smoothing.JitterOfStillMarker | backend/app/compvis/utils.py:92-100 | the jitter is 0 when every averaged position equals the newest one |
| Smoothing.JitterZeroIff | backend/app/compvis/utils.py:96-100 | the jitter is 0 exactly when the newest position sits on the smoothed one |
| Timing.ElapsedSince | CompVis/session.py:133-142 | `get_elapsed_time` is 0.0 before any start, and otherwise the time since the start |
| Timing.Remaining | CompVis/session.py:144-154 | `get_time_remaining` is never negative: 0 when inactive or overdue, otherwise the duration minus the elapsed time |
| Rolling.PushBounded | CompVis/session.py:27-31 | appending to a `deque(maxlen)` keeps `min(n + 1, maxlen)` values, which are the newest of the plain append |
| Rolling.PushBoundedNewest | CompVis/follow_session.py:42-45 | a bounded append never exceeds the bound, ends with the new value, and is the plain append while not full |
| Rolling.PushBoundedIsSuffix | backend/app/compvis/session.py:27-29 | a bounded append is a suffix of the plain append |
| Rolling.PushBoundedNonNegative | backend/app/compvis/session.py:94 | appending a non-negative jitter to non-negative values keeps every value non-negative |
| Rolling.ExpiredCount | CompVis/session.py:111-118 | the trimming loop drops at most all the timestamps |
| Rolling.ExpiredAreOld | CompVis/session.py:113-114 | every dropped timestamp is older than the cutoff `now - 1.0` |
| Rolling.ExpiredKeepsEnough | backend/app/compvis/session.py:96-104 | trimming never leaves fewer timestamps than jitter values, unless there were fewer already |
| Rolling.ExpiredStopsAtFresh | CompVis/follow_session.py:201-208 | when trimming stops with more timestamps than jitter values, the oldest remaining one is within the window |
| Rolling.ExpiredNoneWhenShort | CompVis/follow_session.py:201-202 | with no more timestamps than jitter values nothing is dropped |
| Rolling.TrimExpired | CompVis/follow_session.py:201-208 | the `while`/`popleft` loop drops exactly the expired timestamps from the front, and one position with each while positions outnumber jitter values |
| Rolling.TrimKeepsPairs | CompVis/session.py:113-116 | when positions and timestamps are in step, trimming drops as many of each |
| Jitter.MovementDirection | backend/app/compvis/game2.py:293-308 | there is no direction with fewer than five positions or when the newest and the fifth newest are less than 1.0 apart; otherwise the direction is a unit vector, and their offset is exactly their distance times it |
| Jitter.StraightMotionAlongX | backend/app/compvis/game2.py:293-308 | a marker that moved at least 1.0 straight along the x-axis over the last five positions has the direction (1, 0) |
| Jitter.LateralPythagoras | backend/app/compvis/game2.py:318-331 | removing the forward component of a deviation removes its square from the squared length |
| Jitter.LateralJitter | backend/app/compvis/game2.py:310-331 | lateral jitter lies between 0 and the total jitter; it is the total jitter when there is no movement direction, and otherwise its square is the squared deviation minus the square of its component along the direction |
| Jitter.LateralIgnoresForwardMotion | backend/app/compvis/game2.py:318-331 | a deviation purely along the movement direction has lateral jitter 0 |
| Jitter.LateralKeepsCrossMotion | backend/app/compvis/game2.py:318-331 | a deviation orthogonal to the movement direction counts in full |
| Jitter.LinearScore | backend/app/compvis/game2.py:377-384 | the score lies in [0, 100]: 100 up to the stable threshold, 0 from the maximum threshold |
| Jitter.LinearScoreMonotone | backend/app/compvis/game2.py:377-384 | a larger 95th percentile never scores higher |
| Jitter.HistoryScore | backend/app/compvis/game2.py:373-384 | the score of the full-session history lies in [0, 100]; it is 100 with no history or when its 95th percentile is at most the stable threshold, and 0 when that percentile reaches the maximum threshold |
| Jitter.StableHistoryScoresFull | backend/app/compvis/game2.py:385-396 | a history whose every value is within the stable threshold scores 100 |
| Jitter.WildHistoryScoresZero | backend/app/compvis/game2.py:373-384 | a history whose every value is at least the maximum threshold scores 0 |
| Jitter.Level | backend/app/compvis/game2.py:398-411 | stable exactly at or below the stable threshold, warning exactly above it and at or below the warning threshold, unstable above both |
| Jitter.LevelMonotone | backend/app/compvis/game2.py:406-411 | the level only worsens as jitter grows |
| Jitter.MaxOrZero | backend/app/compvis/game2.py:416 | `max(values) if values else 0` is 0 for no values, and otherwise a value at least as large as every other |
| Tracker.Measure | backend/app/compvis/game2.py:344-359 | the lateral part of a measured jitter lies between 0 and the jitter itself |
| Tracker.Step | backend/app/compvis/game2.py:333-371 | every `update` counts the frame, and counts a marker as found exactly when one is given |
| Tracker.InitialTrackerInvariant | backend/app/compvis/game2.py:278-291 | the state after `reset` satisfies the tracker invariant |
| Tracker.RecordKeepsHistories | backend/app/compvis/game2.py:350-359 | recording keeps both histories the same length, each lateral value within its jitter, and each rolling window the last 30 values of its history |
| Tracker.RecordSetsMetrics | backend/app/compvis/game2.py:351-369 | after recording, the current values are the newest of the histories |
| Tracker.StepKeepsCounts | backend/app/compvis/game2.py:279-342 | every `update` keeps at most 300 positions, and records jitter only from the tenth stored position on, once per stored position |
| Tracker.StepKeepsInvariant | backend/app/compvis/game2.py:333-371 | `update` keeps the whole tracker invariant |
| Tracker.StepWithMarker | backend/app/compvis/game2.py:334-339 | a frame with a marker counts the frame, stores the marker, then observes it |
| Tracker.StepWithoutMarker | backend/app/compvis/game2.py:334-336 | a frame without a marker only counts the frame, and returns the previous jitter |
| Tracker.StepDuringWarmUp | backend/app/compvis/game2.py:340-342 | before the tenth marker, `update` returns 0.0, records no jitter and appends the position |
| Tracker.StepAfterWarmUp | backend/app/compvis/game2.py:344-371 | from the tenth marker on, `update` returns the distance from the marker to the mean of the last ten positions, appends it to both histories, and keeps the lateral part within it |
| Tracker.StepJitterNonNegative | backend/app/compvis/game2.py:333-371 | the jitter `update` returns is never negative |
| Tracker.RollingMetricsWithinHistory | backend/app/compvis/game2.py:361-364 | the rolling mean and 95th percentile are non-negative and bounded by any bound on the recorded jitter |
| Tracker.LateralLevelNoWorse | backend/app/compvis/game2.py:398-411 | the lateral level is stable whenever the total level is, and the total level is unstable whenever the lateral one is |
| Tracker.JitterTracker.constructor | backend/app/compvis/game2.py:275-276 | a new tracker is in the reset state |
| Tracker.JitterTracker.Reset | backend/app/compvis/game2.py:278-291 | `reset` empties every buffer and zeroes every metric and counter |
| Tracker.JitterTracker.ClearHistory | backend/app/compvis/game2.py:279-281 | empties the position buffer and both full histories, and nothing else |
| Tracker.JitterTracker.ClearRolling | backend/app/compvis/game2.py:282-283 | empties both rolling windows, and nothing else |
| Tracker.JitterTracker.ResetMetrics | backend/app/compvis/game2.py:284-291 | zeroes the current metrics and the counters, and nothing else |
| Tracker.JitterTracker.Update | backend/app/compvis/game2.py:333-371 | the in-place `update` returns the jitter and leaves the fields as `Step` says, keeping the invariant |
| Tracker.JitterTracker.StorePosition | backend/app/compvis/game2.py:337-338 | counts the marker and appends it to the bounded buffer |
| Tracker.JitterTracker.ObservePosition | backend/app/compvis/game2.py:340-371 | returns 0.0 during warm-up, and afterwards measures and records the marker |
| Tracker.JitterTracker.RecordValues | backend/app/compvis/game2.py:350-369 | each value becomes current and joins its history and its rolling window |
| Tracker.JitterTracker.AvgJitter | backend/app/compvis/game2.py:361-364 | `avg_jitter` is the mean of the last 30 jitter values of the session, 0.0 before the first |
| Tracker.JitterTracker.AvgLateralJitter | backend/app/compvis/game2.py:366-369 | `avg_lateral_jitter` is the mean of the last 30 lateral jitter values, 0.0 before the first |
| Tracker.JitterTracker.P95Jitter | backend/app/compvis/game2.py:361-364 | `p95_jitter` is the 95th percentile of the last 30 jitter values, 0.0 before the first |
| Tracker.JitterTracker.P95LateralJitter | backend/app/compvis/game2.py:366-369 | `p95_lateral_jitter` is the 95th percentile of the last 30 lateral jitter values, 0.0 before the first |
| Tracker.JitterTracker.JitterScore | backend/app/compvis/game2.py:373-384 | `get_jitter_score` lies in [0, 100]: 100 with no history or a 95th percentile of the whole history at most 5, 0 when that percentile is at least 30 |
| Tracker.JitterTracker.LateralJitterScore | backend/app/compvis/game2.py:385-396 | `get_lateral_jitter_score` lies in [0, 100]: 100 with no lateral history or a 95th percentile of it at most 3, 0 when that percentile is at least 20 |
| Tracker.JitterTracker.StabilityLevel | backend/app/compvis/game2.py:406-411 | `get_stability_level`: stable exactly at or below 5, unstable exactly above 15, on the current jitter; stable before any jitter is recorded |
| Tracker.JitterTracker.LateralStabilityLevel | backend/app/compvis/game2.py:398-404 | `get_lateral_stability_level`: stable exactly at or below 3, unstable exactly above 8, on the current lateral jitter; stable before any is recorded |
| Tracker.JitterTracker.Summary | backend/app/compvis/game2.py:413-429 | both scores equal the history scores, in [0, 100]; avg and p95 (total and lateral) are the mean and 95th percentile of the last 30 values; each max is a greatest recorded value, 0.0 with none; the counters are echoed |
| Tracker.HoldMetrics.constructor | backend/app/compvis/game2.py:432-434 | a fresh tracker in the reset state, and no frames |
| Tracker.HoldMetrics.Reset | backend/app/compvis/game2.py:436-438 | resets the tracker and the frame counter |
| Tracker.HoldMetrics.Update | backend/app/compvis/game2.py:440-442 | counts the frame and feeds the tracker one `update` |
| Tracker.HoldMetrics.StabilityScore | backend/app/compvis/game2.py:444-445 | `int()` of the jitter score, in [0, 100]: 100 with no history or a stable p95, 0 at or past the maximum p95 |
| Tracker.HoldMetrics.Summary | backend/app/compvis/game2.py:447-456 | the tremor score is the jitter score, in [0, 100]; avg and p95 are the tracker's, the mean and 95th percentile of the last 30 values; the counters are echoed |
| Tracker.FollowMetrics.constructor | backend/app/compvis/game2.py:459-461 | a fresh tracker in the reset state, with no positions, frames or beats |
| Tracker.FollowMetrics.Reset | backend/app/compvis/game2.py:463-467 | resets the tracker, the positions and both counters |
| Tracker.FollowMetrics.Update | backend/app/compvis/game2.py:469-474 | counts the frame and feeds the tracker; a present marker is also stored with its beat count, and a missing one changes neither |
| Tracker.FollowMetrics.CombinedScore | backend/app/compvis/game2.py:477-479 | the combined score is the lateral jitter score, in [0, 100] |
| Tracker.FollowMetrics.Feedback | backend/app/compvis/game2.py:481-487 | good exactly at or below 3, warning exactly in (3, 8], poor exactly above 8, on the current lateral jitter |
| Tracker.FollowMetrics.Summary | backend/app/compvis/game2.py:489-501 | the tremor score is the combined score; lateral avg and p95 and the total avg are over the last 30 values; the lateral max is a greatest recorded value; the beats, frames and markers found (one per stored position) are echoed |
| HoldSession.StabilityPct | CompVis/session.py:156-165 | `get_stability_pct` is 0 with no frames and otherwise in [0, 100]; it is 100 exactly when every frame was inside |
| HoldSession.InitialHoldInvariant | CompVis/session.py:15-57 | the states after `__init__` and `start_session` satisfy the invariant, with zero metrics and no elapsed time |
| HoldSession.RecordJitterKeepsInvariant | CompVis/session.py:104-127 | recording a non-negative jitter keeps the invariant |
| HoldSession.ObserveKeepsInvariant | CompVis/session.py:93-127 | observing a stored marker keeps the invariant |
| HoldSession.AdmitKeepsInvariant | CompVis/session.py:81-91 | admitting a marker in a counted frame keeps inside ≤ found ≤ total and the other invariants |
| HoldSession.TickKeepsInvariant | CompVis/session.py:77-127 | the body of an active `update` keeps the invariant |
| HoldSession.HoldStepKeepsInvariant | CompVis/session.py:63-131 | `update` keeps the invariant: inside ≤ found ≤ total, positions and timestamps in step and within 300, the jitter window within 30, and jitter non-negative |
| HoldSession.InactiveUpdateIsNoOp | CompVis/session.py:74-75 | `update` on an inactive session changes nothing |
| HoldSession.ActiveUpdateCounts | CompVis/session.py:78-91 | an active `update` counts every frame; a marker counts as found exactly when present, and as inside exactly when present with a circle it lies in |
| HoldSession.UpdateStopsAtDuration | CompVis/session.py:129-131 | an active session stays active after `update` exactly when the elapsed time is below the duration |
| HoldSession.NoJitterDuringWarmUp | CompVis/session.py:94 | with fewer than ten stored positions no jitter is recorded, and the window and the current jitter are unchanged |
| HoldSession.TickObserves | CompVis/session.py:81-127 | an active frame with a marker admits it, then observes it |
| HoldSession.ActiveStepTicks | CompVis/session.py:77-131 | an active `update` is its body followed by the duration check |
| HoldSession.ObserveAfterWarmUp | CompVis/session.py:94-107 | with ten stored positions, the marker's distance to their mean becomes the current jitter and the newest window value |
| HoldSession.RecordJitterTrims | CompVis/session.py:109-118 | trimming removes only timestamps older than `now - 1.0`, oldest first, and leaves at least as many timestamps as jitter values |
| HoldSession.ObserveTrims | backend/app/compvis/session.py:96-104 | the same trimming facts for an observed marker after warm-up |
| HoldSession.JitterAfterWarmUp | backend/app/compvis/session.py:85-93 | from the tenth stored position on, the current jitter is the marker's distance to the mean of the last ten |
| HoldSession.WindowAfterWarmUp | backend/app/compvis/session.py:94 | that jitter is also the newest value of the rolling window |
| HoldSession.TrimAfterWarmUp | backend/app/compvis/session.py:96-104 | the trimming facts hold for the timestamps of an active `update` after warm-up |
| HoldSession.TremorScoreWithin | CompVis/session.py:121-127 | with every window value in [0, hi], the average, the 95th percentile and `0.7 * p95 + 0.3 * avg` lie in [0, hi] |
| HoldSession.TremorScoreOfSteadyWindow | backend/app/compvis/session.py:106-110 | a window holding one value has that value as its tremor score |
| HoldSession.StabilityScore | backend/app/compvis/session.py:143-150 | `get_stability_score` lies in [0, 100]: 100 up to jitter 5, and 0 from jitter 30 |
| HoldSession.StabilityScoreMonotone | backend/app/compvis/session.py:143-150 | more jitter never scores higher |
| HoldSession.SessionManager.constructor | CompVis/session.py:15-38 | a never-started session with the given duration |
| HoldSession.SessionManager.StartSession | CompVis/session.py:44-57 | an active session started at `now`, with every counter, buffer and metric cleared |
| HoldSession.SessionManager.StopSession | CompVis/session.py:59-61 | clears the active flag, and nothing else |
| HoldSession.SessionManager.Update | CompVis/session.py:63-131 | the in-place `update` leaves the fields as `HoldStep` says, and keeps the invariant |
| HoldSession.SessionManager.TickFrame | CompVis/session.py:77-127 | the body of an active `update` |
| HoldSession.SessionManager.AdmitMarker | CompVis/session.py:81-91 | stores a present marker, and counts it inside when it lies in the circle |
| HoldSession.SessionManager.StorePosition | CompVis/session.py:81-86 | counts the marker and stores it with its timestamp |
| HoldSession.SessionManager.ObservePosition | CompVis/session.py:93-127 | measures and records the marker once ten positions are stored, then trims |
| HoldSession.SessionManager.ElapsedTime | CompVis/session.py:133-142 | 0 before any start, otherwise the time since the start |
| HoldSession.SessionManager.TimeRemaining | CompVis/session.py:144-154 | never negative, 0 when inactive, otherwise the duration minus the elapsed time |
| HoldSession.SessionManager.StabilityPctNow | CompVis/session.py:156-165 | in [0, 100] for every reachable state |
| HoldSession.SessionManager.StabilityLevel | backend/app/compvis/session.py:134-141 | stable exactly at or below 5, unstable exactly above 15, on the current jitter |
| HoldSession.SessionManager.StabilityScoreNow | backend/app/compvis/session.py:143-150 | the score of the current jitter, in [0, 100] |
| HoldSession.SessionManager.FinalMetrics | CompVis/session.py:167-183 | reports the window's avg and p95 jitter, the tremor score `0.7*p95 + 0.3*avg`, the inside percentage `get_stability_pct()` in [0, 100], the counters and the duration |
| FollowSession.DurationOrDefault | CompVis/follow_session.py:29 | `duration or 20.0`: a missing or zero duration falls back to 20 seconds |
| FollowSession.Magnitude | CompVis/follow_session.py:162 | a vector's magnitude is non-negative, and its square is the sum of the squared components |
| FollowSession.PathLength | CompVis/follow_session.py:236-239 | the length of a polyline is non-negative |
| FollowSession.PathLengthAppend | CompVis/follow_session.py:236-239 | appending a point adds its distance from the previous last point |
| FollowSession.PathLengthSuffix | CompVis/follow_session.py:204-206 | dropping points from the front never lengthens the polyline |
| FollowSession.PathLengthPush | CompVis/follow_session.py:128-137 | after a bounded append, the polyline grows by at most the new segment |
| FollowSession.SmoothedTrail | CompVis/follow_session.py:229-234 | the smoothed trail has one point per position, each the mean of positions `max(0, i - 10)` to `i` |
| FollowSession.SmoothWholeWindow | CompVis/follow_session.py:232 | smoothing a window over its own length averages all of it |
| FollowSession.StillTrailHasNoSmoothPath | CompVis/follow_session.py:229-239 | a trail that stood still has a smoothed path of length 0 |
| FollowSession.StillPathHasNoLength | CompVis/follow_session.py:236-239 | a polyline through one point has length 0 |
| FollowSession.Wobble | CompVis/follow_session.py:241-242 | the wobble ratio is below 1 for every non-negative smoothed length, and non-negative when smoothing does not lengthen the path |
| FollowSession.Norm | CompVis/follow_session.py:255-257 | a normalised metric is its ratio to the reference, capped at 2.0 |
| FollowSession.NormMonotone | CompVis/follow_session.py:255-257 | a larger metric is never normalised lower |
| FollowSession.Badness | CompVis/follow_session.py:259 | the weighted badness is at most 2 |
| FollowSession.QualityScore | CompVis/follow_session.py:253-261 | the movement quality score lies in [0, 100]; it is 100 for non-positive badness and `100 - 50 * badness` for non-negative badness |
| FollowSession.QualityScoreMonotone | CompVis/follow_session.py:253-261 | more jitter, more jerk or more wobble never raises the score |
| FollowSession.PerfectQualityScore | CompVis/follow_session.py:259-260 | no jitter, no jerk and no wobble scores 100 |
| FollowSession.WorstQualityScore | CompVis/follow_session.py:255-260 | every metric at twice its reference or more scores 0 |
| FollowSession.Segment | CompVis/follow_session.py:132-137 | the new path segment is non-negative |
| FollowSession.NewestJerk | CompVis/follow_session.py:157-162 | the jerk magnitude is non-negative |
| FollowSession.InitialFollowInvariant | CompVis/follow_session.py:27-101 | the states after `__init__` and `start_session` satisfy the invariant, with zero percentiles and no elapsed time |
| FollowSession.StoreAndExtendKeepsInvariant | CompVis/follow_session.py:119-137 | storing a marker and extending the path keeps the invariant |
| FollowSession.DeriveRestKeepsInvariant | CompVis/follow_session.py:139-164 | the velocity, acceleration and jerk stages keep the invariant |
| FollowSession.MeasureKeepsInvariant | CompVis/follow_session.py:166-187 | the jitter and target-error stages keep the invariant |
| FollowSession.TrimRollingKeepsInvariant | CompVis/follow_session.py:196-208 | trimming keeps positions in step with timestamps and the path bound |
| FollowSession.FollowMarkerKeepsInvariant | CompVis/follow_session.py:119-190 | everything an active `update` does with a marker keeps the invariant |
| FollowSession.FinalizeKeepsInvariant | CompVis/follow_session.py:222-251 | computing the final metrics keeps the invariant |
| FollowSession.FollowTickKeepsInvariant | CompVis/follow_session.py:115-190 | the body of an active `update` keeps the invariant |
| FollowSession.AutoStopKeepsInvariant | CompVis/follow_session.py:192-194 | the duration check keeps the invariant |
| FollowSession.FollowStepKeepsInvariant | CompVis/follow_session.py:108-194 | `update` keeps the invariant: found ≤ total, deques within their `maxlen`, non-negative jitter, jerk and target errors, a path at least as long as the stored polyline, wobble below 1 and a score in [0, 100] |
| FollowSession.InactiveUpdateIsNoOp | CompVis/follow_session.py:112-113 | `update` on an inactive session changes nothing |
| FollowSession.AutoStopKeepsHistory | CompVis/follow_session.py:192-194 | the duration check changes only the active flag and the final metrics, and stops exactly when the elapsed time has reached the duration |
| FollowSession.TickWithMarker | CompVis/follow_session.py:119-190 | an active frame with a marker runs every stage on the counted state |
| FollowSession.MarkerCounts | CompVis/follow_session.py:126-190 | the stages after storing leave the counters, flags and clock alone |
| FollowSession.ActiveUpdateCounts | CompVis/follow_session.py:116-124 | each active `update` counts the frame, and counts a marker exactly when one is given; the first marker is remembered |
| FollowSession.UpdateStopsAtDuration | CompVis/follow_session.py:192-194 | the `update` on which the elapsed time reaches the duration stops the session and computes the final metrics, and no earlier one does |
| FollowSession.MarkerExtendsPath | CompVis/follow_session.py:131-137 | a marker grows the path by its distance from the previous stored position, and by nothing for the first one |
| FollowSession.PathNeverShrinks | CompVis/follow_session.py:137 | `total_path_length` never decreases, and grows by the new segment on a frame with a marker |
| FollowSession.MarkerVelocity | CompVis/follow_session.py:139-145 | a velocity is appended exactly when a previous position is stored |
| FollowSession.MarkerKeepsDerived | CompVis/follow_session.py:166-190 | measuring and trimming leave the derivative chain alone |
| FollowSession.MarkerAcceleration | CompVis/follow_session.py:147-154 | an acceleration is appended exactly when there are then two velocities |
| FollowSession.MarkerJerk | CompVis/follow_session.py:156-164 | a jerk is computed, becomes current and joins the window exactly when there are then two accelerations |
| FollowSession.MarkerJitter | CompVis/follow_session.py:166-179 | from the tenth stored position on, the marker's distance to the mean of the last ten is recorded; before that jitter is left alone |
| FollowSession.MarkerTargetError | CompVis/follow_session.py:183-187 | a target adds the marker's distance to it to the target errors; no target adds nothing |
| FollowSession.MarkerTrims | CompVis/follow_session.py:198-208 | trimming removes only timestamps older than `now - 1.0`, oldest first, and leaves at least as many timestamps as jitter values |
| FollowSession.JitterOnlyAfterWarmUp | CompVis/follow_session.py:167-179 | an active `update` records jitter only once ten positions are stored, and then it is the distance to their mean |
| FollowSession.FinalizeMetrics | CompVis/follow_session.py:222-251 | the wobble ratio is recomputed only with two positions and a positive path (and is then below 1), target statistics only with target errors, and the score always |
| FollowSession.StillTrailIsAllWobble | CompVis/follow_session.py:225-242 | a trail that stood still after a positive path has wobble `path / (path + 1e-6)` |
| FollowSession.SmoothTrail | CompVis/follow_session.py:229-234 | the first loop of `_compute_final_metrics` builds exactly the smoothed trail |
| FollowSession.PolylineLength | CompVis/follow_session.py:236-239 | the second loop sums exactly the polyline length |
| FollowSession.FollowSessionManager.constructor | CompVis/follow_session.py:27-72 | a never-started session whose duration falls back to 20 seconds |
| FollowSession.FollowSessionManager.StartSession | CompVis/follow_session.py:74-101 | an active session started at `now`, with every counter, deque, path and metric cleared |
| FollowSession.FollowSessionManager.ClearPositions | CompVis/follow_session.py:78-79 | empties positions and timestamps, and nothing else |
| FollowSession.FollowSessionManager.ClearMotion | CompVis/follow_session.py:80-81 | empties velocities and accelerations, and nothing else |
| FollowSession.FollowSessionManager.ClearWindows | CompVis/follow_session.py:82-84 | empties the jitter, jerk and target-error deques, and nothing else |
| FollowSession.FollowSessionManager.ResetCounters | CompVis/follow_session.py:86-87 | zeroes both frame counters, and nothing else |
| FollowSession.FollowSessionManager.ResetPath | CompVis/follow_session.py:89-90 | zeroes the path and forgets the first position |
| FollowSession.FollowSessionManager.ResetCurrentMetrics | CompVis/follow_session.py:92-98 | zeroes the current jitter, jerk and wobble |
| FollowSession.FollowSessionManager.ResetFinalMetrics | CompVis/follow_session.py:99-101 | zeroes the target-error statistics and the score |
| FollowSession.FollowSessionManager.StopSession | CompVis/follow_session.py:103-106 | inactive, with the final metrics computed |
| FollowSession.FollowSessionManager.Update | CompVis/follow_session.py:108-194 | the in-place `update` leaves the fields as `FollowStep` says, and keeps the invariant |
| FollowSession.FollowSessionManager.TickFrame | CompVis/follow_session.py:115-190 | the body of an active `update` |
| FollowSession.FollowSessionManager.HandleMarker | CompVis/follow_session.py:119-190 | every stage for a present marker, in order |
| FollowSession.FollowSessionManager.StorePosition | CompVis/follow_session.py:120-129 | counts the marker, remembers the first, and stores it with its timestamp |
| FollowSession.FollowSessionManager.CountMarker | CompVis/follow_session.py:120-124 | counts the marker and remembers the first one |
| FollowSession.FollowSessionManager.AddSegment | CompVis/follow_session.py:131-137 | adds the new segment to the path length |
| FollowSession.FollowSessionManager.AppendVelocity | CompVis/follow_session.py:139-145 | appends the velocity once two positions are stored |
| FollowSession.FollowSessionManager.AppendAcceleration | CompVis/follow_session.py:147-154 | appends the acceleration once two velocities are stored |
| FollowSession.FollowSessionManager.AppendJerk | CompVis/follow_session.py:156-164 | records the jerk once two accelerations are stored |
| FollowSession.FollowSessionManager.AppendJitter | CompVis/follow_session.py:166-179 | records the jitter once ten positions are stored |
| FollowSession.FollowSessionManager.AppendTargetError | CompVis/follow_session.py:183-187 | records the distance to a given target |
| FollowSession.FollowSessionManager.UpdateRollingMetrics | CompVis/follow_session.py:196-220 | the trimming loop, leaving the fields as `TrimRolling` says |
| FollowSession.FollowSessionManager.ComputeFinalMetrics | CompVis/follow_session.py:222-251 | leaves the fields as `Finalize` says |
| FollowSession.FollowSessionManager.ComputeWobbleRatio | CompVis/follow_session.py:224-242 | with its two loops, sets only the wobble ratio, to the value `Finalize` gives |
| FollowSession.FollowSessionManager.ComputeMovementQualityScore | CompVis/follow_session.py:253-261 | sets only the score |
| FollowSession.FollowSessionManager.ElapsedTime | CompVis/follow_session.py:263-267 | 0 before any start, otherwise the time since the start |
| FollowSession.FollowSessionManager.TimeRemaining | CompVis/follow_session.py:269-274 | never negative, 0 when inactive, otherwise the duration minus the elapsed time |
| FollowSession.FollowSessionManager.FinalMetrics | CompVis/follow_session.py:276-291 | reports the window's avg and p95 jitter and jerk, the stored wobble ratio (below 1), quality score (in [0, 100]) and target-error statistics, the counters and the duration |
| TargetPaths.SpeedMultiplierGrows | CompVis/target_path.py:93-95 | the speed multiplier starts at 1 and never decreases over time |
| TargetPaths.CycleFraction | CompVis/target_path.py:77 | `total_cycles % 1.0` lies in [0, 1) |
| TargetPaths.PositionRatio | CompVis/target_path.py:79-85 | the ratio lies in [0, 1]; it is 0 at the start of a cycle, 1 half way, and twice the fraction on the way out |
| TargetPaths.ScaledOffsetBetween | CompVis/target_path.py:88-89 | moving a fraction in [0, 1] of the way from a to b stays between them |
| TargetPaths.TruncBetween | CompVis/target_path.py:88-89 | truncating a real that lies between two integers gives an integer between them |
| TargetPaths.InterpolateBetween | CompVis/target_path.py:87-89 | each truncated coordinate lies between the two ends; it is the first end at ratio 0 and the second at ratio 1 |
| TargetPaths.UncalibratedIsCentre | CompVis/target_path.py:55-57 | until both points are set, the dot sits at `(width // 2, height // 2)` |
| TargetPaths.SamePointsStay | CompVis/target_path.py:59-65 | when A and B coincide, the dot stays on A at every time |
| TargetPaths.PositionBetween | CompVis/target_path.py:79-89 | every coordinate of the dot lies between those of A and B, even after truncation |
| TargetPaths.StartsAtA | CompVis/target_path.py:67-91 | at time 0 the dot is on A |
| TargetPaths.HalfCycleAtB | CompVis/target_path.py:80-89 | when the cycle fraction is exactly 0.5, the dot is on B |
| TargetPaths.TargetPath.constructor | CompVis/target_path.py:13-33 | stores the frame size; the path starts with no points, so it is not calibrated |
| TargetPaths.TargetPath.SetPoints | CompVis/target_path.py:35-42 | `set_points` sets exactly the two points, which makes `is_calibrated` true |
| TargetPaths.TargetPath.GetPosition | CompVis/target_path.py:44-91 | `get_position` is the frame centre until both points are set; afterwards it is A at time 0 and always a pixel between A and B on each axis |
| Calibration.RadiusOf | CompVis/calibration.py:42-50 | the radius from centre and edge is non-negative, and zero exactly when they coincide |
| Calibration.ClearedIsEmpty | CompVis/calibration.py:14-27 | the cleared state is incomplete, has radius 0 and is consistent |
| Calibration.UpdatesKeepConsistent | CompVis/calibration.py:29-50 | after `set_center`, `set_edge` or `set_radius`, a complete calibration has the centre-to-edge distance as its radius |
| Calibration.LonePointKeepsRadius | CompVis/calibration.py:29-40 | setting one point while the other is missing leaves the radius unchanged and the calibration incomplete |
| Calibration.WithRadiusIncomplete | backend/app/compvis/calibration.py:40-43 | `set_radius` stores the radius, keeps the centre, and leaves the calibration incomplete |
| Calibration.ClickWhenCompleteChangesNothing | backend/app/compvis/calibration.py:92-93 | once both points are set, a click changes nothing and reports "already_complete" |
| Calibration.TwoClicksCalibrate | CompVis/calibration.py:76-84 | from a cleared state the first click sets the centre, the second sets the edge with their distance as radius, and a third changes nothing |
| Calibration.SummaryReportsState | backend/app/compvis/calibration.py:55-61 | `to_dict` reports no centre exactly when none is set, the radius, and the completeness of the state |
| Calibration.CalibrationState.constructor | CompVis/calibration.py:14-17 | a new state is the cleared one |
| Calibration.CalibrationState.Reset | CompVis/calibration.py:23-27 | `reset` gives the cleared state |
| Calibration.CalibrationState.CalculateRadius | CompVis/calibration.py:42-50 | `_calculate_radius` is 0 unless both points are set, otherwise their distance |
| Calibration.CalibrationState.SetCenter | CompVis/calibration.py:29-34 | sets the centre, and recomputes the radius only when an edge is set |
| Calibration.CalibrationState.SetEdge | CompVis/calibration.py:36-40 | sets the edge, and recomputes the radius only when a centre is set |
| Calibration.CalibrationState.SetRadius | backend/app/compvis/calibration.py:40-43 | stores the radius and forgets the edge |
| Calibration.CalibrationState.ToDict | backend/app/compvis/calibration.py:55-61 | `to_dict` reports the centre and the radius, and is complete exactly when both centre and edge are set |
| Calibration.CalibrationHandler.constructor | CompVis/calibration.py:56-64 | the handler manages the state it is given |
| Calibration.CalibrationHandler.MouseClick | CompVis/calibration.py:76-84 | a left click sets the centre first, then the edge, and does nothing once both are set |
| Calibration.CalibrationHandler.HandleClick | backend/app/compvis/calibration.py:76-93 | the same update, with a report of "center_set", "edge_set" with the radius, or "already_complete" |
| Calibration.CalibrationHandler.Reset | CompVis/calibration.py:90-94 | clears the managed state |
| Game.ClampBpm | backend/app/compvis/game2.py:102-103 | `max(20, min(200, bpm))` lies in [20, 200], and keeps a BPM already in range |
| Game.Metronome.constructor | backend/app/compvis/game2.py:95-96 | the metronome stores the BPM it is given without clamping it |
| Game.Metronome.SetBpm | backend/app/compvis/game2.py:102-103 | `set_bpm` stores the clamped BPM |
| Game.Other | backend/app/compvis/game2.py:252-253 | switching always gives the other target |
| Game.TargetsMirrored | backend/app/compvis/game2.py:244-248 | both targets sit half way down the frame, mirrored about its middle, with A at x = 110 |
| Game.RowHasNoDeviation | backend/app/compvis/game2.py:259-260 | when the targets are apart, every point of their row has path deviation 0 |
| Game.ABTargets.constructor | backend/app/compvis/game2.py:244-250 | the targets are placed as above, with target A current |
| Game.ABTargets.SwitchTarget | backend/app/compvis/game2.py:252-253 | `switch_target` makes the other target current |
| Game.ABTargets.IsInTarget | backend/app/compvis/game2.py:255-257 | a position is in a target exactly when it is within `size // 2` of that target's centre on both axes, boundary included |
| Game.ABTargets.PathDeviation | backend/app/compvis/game2.py:259-260 | the deviation from the A-B line is non-negative, never more than the distance to target A, and is that distance when the targets coincide |
| Game.CountedClickKeepsCount | backend/app/compvis/game2.py:763-772 | clicks keep the click count in step with the centre, counting up to 2 |
| Game.ClicksCalibrate | backend/app/compvis/game2.py:763-772 | the first click sets the centre and keeps the default radius of 80; the second sets the radius to the distance between the clicks; later clicks change nothing |
| Game.CompleteIgnoresClicks | backend/app/compvis/game2.py:768-772 | with two clicks counted, clicking changes nothing |
| Game.GameCalibration.constructor | backend/app/compvis/game2.py:753-756 | no centre, radius 80, no clicks |
| Game.GameCalibration.Reset | backend/app/compvis/game2.py:758-761 | `reset` restores no centre, radius 80 and no clicks |
| Game.GameCalibration.HandleClick | backend/app/compvis/game2.py:763-772 | `handle_click` updates the state as `CountedClick` says |
| Game.GameCalibration.MouseClick | backend/app/compvis/game2.py:778-784 | a left click calibrates only in HOLD mode and only outside a running session |
| Game.KeyCode | backend/app/compvis/game2.py:929 | `waitKey & 0xFF` lies in [0, 256), and keeps codes already in that range |
| Game.InitialGameValid | backend/app/compvis/game2.py:836-844 | the loop's initial variables satisfy the invariant |
| Game.StepsKeepInvariant | backend/app/compvis/game2.py:870-986 | keys and the timer keep the BPM in [20, 200], and show results exactly when a session is complete |
| Game.QuitOnlyOnQ | backend/app/compvis/game2.py:931-933 | only 'q' and 'Q' leave the loop |
| Game.RunningIgnoresModeAndBpmKeys | backend/app/compvis/game2.py:935-974 | while a session runs, '1', '2' and the arrow keys change nothing |
| Game.ModeKeys | backend/app/compvis/game2.py:935-945 | outside a session, '1' and '2' pick the mode, go to IDLE and drop the results |
| Game.SpaceTransitions | backend/app/compvis/game2.py:947-966 | SPACE moves IDLE to RUNNING (resetting HOLD metrics, or starting the metronome for FOLLOW), RUNNING to IDLE, and COMPLETE to IDLE |
| Game.StartedMetronomeKeepsBpm | backend/app/compvis/game2.py:953-958 | the metronome started by SPACE keeps the chosen BPM, which is already in range |
| Game.BpmKeys | backend/app/compvis/game2.py:968-974 | outside a session the arrow keys move the BPM by 5 within [20, 200] |
| Game.UpperTIsDown | backend/app/compvis/game2.py:972-983 | key 84 is both 'T' and DOWN; the DOWN branch comes first, so 'T' lowers the BPM and only 't' toggles the trackbars |
| Game.NoKeyChangesNothing | backend/app/compvis/game2.py:929 | "no key" (low byte 255) changes nothing |
| Game.TimerCompletes | backend/app/compvis/game2.py:870-901 | a running session completes exactly when its duration has passed, and only then are results saved; a FOLLOW timeout stops the metronome and saves the BPM |
| Game.TimerIdle | backend/app/compvis/game2.py:870 | outside a running session the timer does nothing |
| Game.GameLoop.constructor | backend/app/compvis/game2.py:836-844 | the loop variables start as `InitialGame` |
| Game.GameLoop.PressSpace | backend/app/compvis/game2.py:947-966 | the SPACE branch, as `SpaceStep` says |
| Game.GameLoop.PressTrackbarKey | backend/app/compvis/game2.py:976-983 | the 't' branch toggles the trackbars |
| Game.GameLoop.HandleKey | backend/app/compvis/game2.py:929-986 | handling the raw `waitKey` result updates the variables as `KeyStep` says |
| Game.GameLoop.CheckTimer | backend/app/compvis/game2.py:870-901 | the timer check, as `TimerStep` says; it stops the metronome exactly when a running FOLLOW session times out |
| Stability.WindowSize | backend/app/core/stability.py:22 | `window_size or 30` is positive, and keeps a positive request |
| Stability.Variance | backend/app/core/stability.py:34-36 | the population variance is non-negative |
| Stability.VarianceOfConstant | backend/app/core/stability.py:34-36 | equal values have variance 0 |
| Stability.StdJitter | backend/app/core/stability.py:29-38 | `calculate_jitter` is non-negative, and 0 for fewer than two positions |
| Stability.StdJitterIsRootOfVariance | backend/app/core/stability.py:34-38 | otherwise it is the root of the sum of the x and y variances |
| Stability.StillPenHasNoJitter | backend/app/core/stability.py:29-38 | a pen that has not moved has jitter 0 |
| Stability.StabilityLevelOf | backend/app/core/stability.py:49-60 | stable exactly at or below 5, unstable exactly from 15, warning strictly between |
| Stability.WarningScore | backend/app/core/stability.py:55-60 | the warning score lies in [50, 100] |
| Stability.ScoreAsWritten | backend/app/core/stability.py:40-62 | the score as written lies in [0, 100], with the level of the jitter |
| Stability.ScoreAsWrittenRisesAtHighThreshold | backend/app/core/stability.py:52-54 | as written, jitter 14.9 scores 50 but the larger jitter 15 scores 100 ("unstable") |
| Stability.UnstableScore | backend/app/core/stability.py:52-54 | the corrected unstable score lies in [0, 50], and is 0 from jitter 25 |
| Stability.Score | backend/app/core/stability.py:40-62 | the corrected score lies in [0, 100] with the level of the jitter: 100 when stable, [50, 100] for warning, at most 50 when unstable |
| Stability.ScoreMonotone | backend/app/core/stability.py:40-62 | the corrected score never rises as jitter grows |
| Stability.StabilityCalculator.constructor | backend/app/core/stability.py:21-23 | the window is `WindowSize(requested)` and the history is empty |
| Stability.StabilityCalculator.AddPosition | backend/app/core/stability.py:25-27 | appends to the bounded history, which stays within the window and ends with the new position |
| Stability.StabilityCalculator.CalculateJitter | backend/app/core/stability.py:29-38 | `calculate_jitter()` is never negative: 0 for fewer than two positions, otherwise the root of the summed x and y variances of the history |
| Stability.StabilityCalculator.CalculateStabilityScore | backend/app/core/stability.py:40-62 | the corrected score of the calculated jitter, in [0, 100] with the level of that jitter; (100, "stable") for fewer than two positions |
| Stability.StabilityCalculator.GetStabilityData | backend/app/core/stability.py:64-73 | reports the calculated jitter with the corrected score and level of that jitter; a history of fewer than two positions reports score 100, "stable" and jitter 0 |
| Stability.StabilityCalculator.Reset | backend/app/core/stability.py:75-77 | empties the history |
| Feedback.LevelMessages | backend/app/core/feedback.py:26-44 | a known level gets its three messages, and any other level gets the warning messages |
| Feedback.MessageIndex | backend/app/core/feedback.py:45 | `int(jitter) % count` is a valid index |
| Feedback.FeedbackMessage | backend/app/core/feedback.py:15-47 | the message is one of the level's messages |
| Feedback.UnknownLevelFallsBackToWarning | backend/app/core/feedback.py:44 | an unknown level gets the same message as "warning" |
| Feedback.SmallJitterPicksFirst | backend/app/core/feedback.py:45-47 | a jitter below 1 picks the level's first message |
| Feedback.IndexCycle | backend/app/core/feedback.py:45 | for non-negative jitter the index repeats every 3 units |
| Feedback.MessagesCycle | backend/app/core/feedback.py:45-47 | for non-negative jitter the message repeats every 3 units |
| Feedback.AccuracyBounds | backend/app/core/feedback.py:64 | the accuracy is a percentage when no more targets are hit than exist; with no targets it is 100 per hit, with no division by zero |
| Feedback.SessionSummaryOf | backend/app/core/feedback.py:50-69 | the summary echoes the counts, the stability and the duration; its accuracy is a percentage in [0, 100] when no more targets are hit than exist, and 100 when all are hit |
| SessionHistory.SortNewestFirst | backend/app/api/sessions.py:47 | the in-place sort leaves the records newest first, as a permutation of the input |
| SessionHistory.SinkNewest | backend/app/api/sessions.py:47 | one insertion pass extends the ordered prefix by one record, keeping the same records |
| SessionHistory.Upper | backend/app/api/sessions.py:44 | `upper()` keeps the length and upper-cases each ASCII letter |
| SessionHistory.FilterByType | backend/app/api/sessions.py:44 | the filter keeps exactly the records whose type matches, ignoring case |
| SessionHistory.FilterIgnoresCase | backend/app/api/sessions.py:44 | a filter in different letter case selects the same records |
| SessionHistory.GetSessions | backend/app/api/sessions.py:40-55 | the result is the matching records sorted newest first, cut to at most `limit`, with `total` its length |
| SessionHistory.Scores | backend/app/api/sessions.py:92 | the present scores are no more than the records |
| SessionHistory.AvgScoreSkipsMissing | backend/app/api/sessions.py:91-93 | a record without a score does not change the average |
| SessionHistory.AvgScoreBounds | backend/app/api/sessions.py:91-93 | with no scores the average is 0; otherwise bounds on the scores bound it |
| SessionHistory.CountKind | backend/app/api/sessions.py:84-85 | a count of one type is at most the number of records |
| SessionHistory.KindCountsBounded | backend/app/api/sessions.py:84-85 | HOLD and FOLLOW counts together are at most the total |
| SessionHistory.TrendPercent | backend/app/api/sessions.py:99-102 | 0 unless the previous average is positive, otherwise positive or negative exactly as the recent average is above or below |
| SessionHistory.PercentThreshold | backend/app/api/sessions.py:99-106 | above 5 percent means above 1.05 times the previous average, and below -5 percent means below 0.95 times it |
| SessionHistory.TrendOf | backend/app/api/sessions.py:104-109 | improving exactly above 5, declining exactly below -5, stable otherwise |
| SessionHistory.StatsOf | backend/app/api/sessions.py:58-119 | the statistics count every record, the HOLD and FOLLOW counts sum to at most that total, and the trend is the classification of the reported percentage |
| SessionHistory.EmptyHistoryIsStable | backend/app/api/sessions.py:70-79 | no records give zero counts and averages and a stable trend |
| SessionHistory.FewSessionsAreStable | backend/app/api/sessions.py:88-96 | with at most five records the previous average is the recent one, so the trend is stable at 0 percent |
| SessionHistory.TrendComparesWindows | backend/app/api/sessions.py:88-109 | the trend compares the five newest records with the next five: improving exactly when more than 5 percent above, declining exactly when more than 5 percent below |
| SessionHistory.GetSessionStats | backend/app/api/sessions.py:58-119 | sorts the records newest first, counts all of them, and the type counts sum to at most the total |
| AppMain.KeyChar | CompVis/main.py:129 | no character exactly for -1; otherwise the low byte of the key |
| AppMain.InitialAppValid | CompVis/main.py:56-69 | the start state satisfies the invariant, and the first calibration check asks for the centre |
| AppMain.KeysKeepInvariant | CompVis/main.py:119-198 | every key keeps FOLLOW mode off the menu and calibration screens, and never runs HOLD without a complete calibration |
| AppMain.FrameStepsKeepInvariant | CompVis/main.py:200-211 | the calibration check, the end of a session and clicks keep the invariant |
| AppMain.QuitOnlyOnQ | CompVis/main.py:131-132 | only 'q' stops the application, and then nothing changes |
| AppMain.ModeKeys | CompVis/main.py:134-151 | '1' and '2' do nothing while RUNNING; otherwise '1' selects HOLD (READY only with a complete calibration) and '2' selects FOLLOW, READY at once |
| AppMain.ResetOnlyInHold | CompVis/main.py:153-158 | 'c' clears the calibration and asks for the centre in HOLD mode, and does nothing in FOLLOW mode |
| AppMain.SessionStartsOnlyWhenReady | CompVis/main.py:169-185 | a session starts only on SPACE from READY: HOLD only with a complete calibration, FOLLOW always |
| AppMain.RetryFromResult | CompVis/main.py:187-196 | SPACE on RESULT goes to READY, or to the centre click for an uncalibrated HOLD |
| AppMain.TargetPathSizedOnce | CompVis/main.py:177-182 | once the target path is sized, keys keep its size |
| AppMain.CalibrationCheckSettles | CompVis/main.py:200-211 | in HOLD mode an incomplete calibration shows the missing click, and a complete one never shows the menu or calibration screens; FOLLOW is untouched; the check is idempotent |
| AppMain.FinishOnlyWhenSessionStops | CompVis/main.py:314-316 | RESULT is reached only from RUNNING once the current mode's session has stopped, and only then is the result saved |
| AppMain.SteadyScriptApp.constructor | CompVis/main.py:44-69 | HOLD mode on the menu, with the shared cleared calibration |
| AppMain.SteadyScriptApp.StartSession | CompVis/main.py:169-185 | SPACE on READY, as `PressSpaceReady` says |
| AppMain.SteadyScriptApp.HandleKeyboard | CompVis/main.py:119-198 | `_handle_keyboard` updates the fields and returns as `KeyStep` says |
| AppMain.SteadyScriptApp.UpdateCalibrationState | CompVis/main.py:200-211 | `_update_calibration_state`, as `CalibrationCheck` says |
| AppMain.SteadyScriptApp.CheckSessionEnd | CompVis/main.py:391-393 | the RUNNING to RESULT switch, as `FinishCheck` says |
| AppLevel2.InitialLevel2Valid | CompVis/main_level2.py:51-65 | the start state satisfies the invariant, with no points set |
| AppLevel2.StepsKeepInvariant | CompVis/main_level2.py:99-161 | clicks, keys and the end of a session keep the invariant: B is asked for only after A, and from READY on both points are set and held by the target path |
| AppLevel2.ClicksCalibrate | CompVis/main_level2.py:99-112 | a click on A's screen sets A and asks for B; one on B's screen sets B, passes both to the target path and goes to READY; other screens ignore clicks |
| AppLevel2.ResetAndQuit | CompVis/main_level2.py:118-142 | 'c' forgets both points and asks for A from every screen; only 'q' stops |
| AppLevel2.SpaceTransitions | CompVis/main_level2.py:144-159 | a session starts only on SPACE from READY with both points set; SPACE on RESULT returns to READY exactly when both points are set |
| AppLevel2.KeyStepAsWritten | CompVis/main_level2.py:114-161 | as written, a key raises exactly when it is SPACE on the ready screen with both points set; every other key behaves as the corrected `KeyStep` |
| AppLevel2.AsWrittenSpaceRaises | CompVis/main_level2.py:144-149 | as written, SPACE after the two calibration clicks raises a `TypeError` |
| AppLevel2.AsWrittenNeverStarts | CompVis/main_level2.py:144-151 | as written, no key that returns reaches RUNNING |
| AppLevel2.CorrectedStarts | CompVis/main_level2.py:144-149 | with the session started without arguments, SPACE after the two clicks starts the FOLLOW session |
| AppLevel2.Level2App.constructor | CompVis/main_level2.py:38-65 | waiting for A, with a fresh target path of the frame size |
| AppLevel2.Level2App.MouseCallback | CompVis/main_level2.py:99-112 | `_mouse_callback`, as `ClickStep` says, including the points given to the target path |
| AppLevel2.Level2App.HandleKeyboard | CompVis/main_level2.py:114-161 | `_handle_keyboard` with the corrected session start, as `KeyStep` says |
| AppLevel2.Level2App.CheckSessionEnd | CompVis/main_level2.py:297-300 | the RUNNING to RESULT switch, as `FinishCheck` says |

## Left out

- OpenCV marker detection, masks and HSV tuning are foreign image processing. The marker is an `Option<Point>` parameter of every update.
- Drawing, overlays and the trackbar windows are UI. Only the trackbar toggle flag is kept.
- Metronome threading and sound (`start`, `stop`, `_run`, the beep) are concurrency and system calls. Only `set_bpm` is modelled; starting and stopping the metronome are returned as effects (`StartFollow`, `StopMetronome`, and `StopAndSaveFollowResults` when a FOLLOW session times out).
- JSON persistence (`load_sessions`, `save_session`, `_save_session_result`) is file I/O. Saving is an effect, and the session history is an in-memory list.
- The serial LED controllers, the web transport layer, camera set-up, the `run` and `main` loops, and `cleanup` are I/O and plumbing.
- `time.time()` is the parameter `now`.
- `math.sqrt` and `np.sqrt` are the parameter `sqrt`.
- Floats are reals, so IEEE rounding is not modelled.
- `round(...)` in the summary dictionaries is presentation rounding and is not modelled.
- The game loop's per-frame metrics call (`hold_metrics.update` or `follow_metrics.update` while running) is not part of `Game.KeyStep`. The metrics classes model what the call does.
- The camera frame read that sizes the desktop application's target path is a parameter `frame` (`None` when the read fails).
- The session-start, calibration-reset and trackbar calls of the applications are returned as effects. The calibration object is updated in place.
- Geometry.IsSqrt: the exact real square root stands in for the floating-point one.
- SessionHistory.Upper: upper-cases ASCII letters only; Python's full Unicode case mapping is not modelled.
- SessionHistory.GetSessions: a JSON `null` in a record's `type` or `timestamp` is treated as a missing field (the empty string). In Python, a `null` type makes `upper()` raise `AttributeError` when filtering, and a `null` timestamp among string timestamps makes the sort raise `TypeError`.
- SessionHistory.SortNewestFirst: an insertion sort stands in for Python's Timsort. Both are stable and give the same order, but only the ordering and permutation are stated.
- Statistics.Percentile: requires a percentile in [0, 100], as every caller passes 95. The game's clamping of the upper index therefore never matters, and the copies coincide.
- Game.RowHasNoDeviation: requires a frame width other than 220, where both targets coincide and the deviation is the plain distance instead.
- Stability.StabilityCalculator.constructor: requires a missing or non-negative window size; a negative `maxlen` raises in Python.
- Stability.StabilityCalculator.CalculateStabilityScore: uses the corrected unstable branch (see Findings). `Stability.ScoreAsWritten` keeps the code as written.
- Stability.StabilityCalculator.GetStabilityData: reports the corrected score (see Findings); with the code as written its score would be `Stability.ScoreAsWritten`.
- AppMain.SteadyScriptApp.constructor: requires the calibration it is given to be cleared, as the application always creates a fresh one.
- AppLevel2.Level2App.constructor: takes the size of the camera's first frame as parameters, from which `__init__` sizes the target path. The `RuntimeError` raised when the camera cannot be opened or read is not modelled, so the `target_path is not None` check of the click handler is always true.
- AppLevel2.Level2App.MouseCallback: requires the application's invariant, which every other step keeps, so that B's click always has A set.
- AppLevel2.Level2App.HandleKeyboard: models the corrected session start; the call as written is `AppLevel2.KeyStepAsWritten`.
- Tracker, HoldSession, FollowSession: the derived `avg_*` and `p95_*` fields are functions of the rolling windows. The source recomputes those fields after every append, so they always hold the same values.
- Calibration.CalibrationHandler.constructor: the backend handler's fallback to a fresh state when given `None` is not modelled; the handler is always given a state.

## Findings

| source | as written | input that shows it | evidently intended | confidence | as-written member | corrected member |
|---|---|---|---|---|---|---|
| backend/app/core/stability.py:52-54 | the unstable score is `max(0, int(100 - (jitter - high) * 5))`, measured from the high threshold, so it starts again at 100 | jitter 14.9 scores 50 ("warning"), but the larger jitter 15.0 scores 100 ("unstable") | a score that keeps falling past the high threshold, measured from the low threshold: 50 at 15 and 0 from 25 | not executed | Stability.ScoreAsWrittenRisesAtHighThreshold | Stability.ScoreMonotone |
| CompVis/main_level2.py:147 | SPACE on READY calls `start_session(point_a, point_b)`, but `FollowSessionManager.start_session` takes no arguments | two calibration clicks, then SPACE: the call raises `TypeError` and the application never reaches RUNNING | the session is started without arguments, since the target path already holds A and B | not executed | AppLevel2.AsWrittenSpaceRaises | AppLevel2.CorrectedStarts |
