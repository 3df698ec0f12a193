/**
 * The jitter algorithm of the A/B game (`backend/app/compvis/game2.py`):
 * jitter is the distance from the newest position to the mean of the last
 * ten, lateral jitter is the part of that deviation orthogonal to the recent
 * direction of movement, and scores map the 95th percentile of the session's
 * jitter linearly onto [0, 100].
 */
module Jitter {
  import opened Wrappers
  import opened Numeric
  import opened Geometry
  import opened Statistics

  const SmoothingWindow: nat := 10
  const DirectionWindow: nat := 5
  const JitterStableThreshold: real := 5.0
  const JitterWarningThreshold: real := 15.0
  const JitterMaxThreshold: real := 30.0
  const LateralStableThreshold: real := 3.0
  const LateralWarningThreshold: real := 8.0
  const LateralMaxThreshold: real := 20.0

  /** `Sq(a / m) == Sq(a) / Sq(m)`. */
  lemma SquareOfQuotient(a: real, m: real)
    requires m != 0.0
    ensures Sq(m) != 0.0 && Sq(a / m) == Sq(a) / Sq(m)
  {
    var q := a / m;
    assert q * m == a;
    SquareOfProduct(q, m);
    SquarePositive(m);
    DivOfProduct(Sq(q), Sq(m));
  }

  /**
   * `_compute_movement_direction`: the unit vector from the oldest to the
   * newest of the last five positions, or `None` with fewer than five
   * positions or when those two are less than 1.0 apart.
   */
  function MovementDirection(positions: seq<Point>, sqrt: real -> real): (r: Option<Point>)
    requires IsSqrt(sqrt)
    ensures |positions| < DirectionWindow ==> r.None?
    ensures |positions| >= DirectionWindow ==>
      (r.None? <==> Distance(positions[|positions| - 1], positions[|positions| - DirectionWindow], sqrt) < 1.0)
    ensures r.Some? ==> Sq(r.value.x) + Sq(r.value.y) == 1.0
    ensures r.Some? ==> (
      && |positions| >= DirectionWindow
      && var first, last := positions[|positions| - DirectionWindow], positions[|positions| - 1];
         var m := Distance(last, first, sqrt);
         1.0 <= m && last.x - first.x == m * r.value.x && last.y - first.y == m * r.value.y)
  {
    if |positions| < DirectionWindow then None
    else
      var first, last := positions[|positions| - DirectionWindow], positions[|positions| - 1];
      var dx, dy := last.x - first.x, last.y - first.y;
      var magnitude := Distance(last, first, sqrt);
      if magnitude < 1.0 then None
      else
        SquareOfQuotient(dx, magnitude);
        SquareOfQuotient(dy, magnitude);
        assert Sq(dx) / Sq(magnitude) + Sq(dy) / Sq(magnitude) == (Sq(dx) + Sq(dy)) / Sq(magnitude);
        assert magnitude * (dx / magnitude) == dx && magnitude * (dy / magnitude) == dy;
        Some(Point(dx / magnitude, dy / magnitude))
  }

  /**
   * A marker that moved at least one pixel straight along the x-axis over
   * the last five positions has the direction `(1, 0)`.
   */
  lemma StraightMotionAlongX(positions: seq<Point>, sqrt: real -> real)
    requires IsSqrt(sqrt) && |positions| >= DirectionWindow
    requires positions[|positions| - 1].y == positions[|positions| - DirectionWindow].y
    requires positions[|positions| - 1].x - positions[|positions| - DirectionWindow].x >= 1.0
    ensures MovementDirection(positions, sqrt) == Some(Point(1.0, 0.0))
  {
    var first, last := positions[|positions| - DirectionWindow], positions[|positions| - 1];
    var dx := last.x - first.x;
    assert SquaredDistance(last, first) == Sq(dx);
    SqrtOfSquare(sqrt, dx);
    assert Distance(last, first, sqrt) == dx;
    assert dx / dx == 1.0 && (last.y - first.y) / dx == 0.0;
  }

  /** The component of `dev` along the unit direction `u`. */
  function Forward(dev: Point, u: Point): real {
    dev.x * u.x + dev.y * u.y
  }

  /** What is left of `dev` after removing its component along `u`. */
  function LateralPart(dev: Point, u: Point): Point {
    var f := Forward(dev, u);
    Point(dev.x - f * u.x, dev.y - f * u.y)
  }

  /** Removing the forward component of a deviation removes its square from the squared length. */
  lemma LateralPythagoras(dev: Point, u: Point)
    requires Sq(u.x) + Sq(u.y) == 1.0
    ensures Sq(LateralPart(dev, u).x) + Sq(LateralPart(dev, u).y) == Sq(dev.x) + Sq(dev.y) - Sq(Forward(dev, u))
  {
    var f := Forward(dev, u);
    assert Sq(dev.x - f * u.x) + Sq(dev.y - f * u.y)
        == Sq(dev.x) + Sq(dev.y) - 2.0 * f * (dev.x * u.x + dev.y * u.y) + Sq(f) * (Sq(u.x) + Sq(u.y));
  }

  function Deviation(position: Point, smoothed: Point): Point {
    Point(position.x - smoothed.x, position.y - smoothed.y)
  }

  /**
   * `_compute_lateral_jitter`: the plain jitter when there is no movement
   * direction, otherwise the length of the deviation's component orthogonal
   * to that direction; so never more than the plain jitter.
   */
  function LateralJitter(positions: seq<Point>, position: Point, smoothed: Point, sqrt: real -> real): (l: real)
    requires IsSqrt(sqrt)
    ensures 0.0 <= l <= Distance(position, smoothed, sqrt)
    ensures MovementDirection(positions, sqrt).None? ==> l == Distance(position, smoothed, sqrt)
    ensures MovementDirection(positions, sqrt).Some? ==>
      Sq(l) == SquaredDistance(position, smoothed)
               - Sq(Forward(Deviation(position, smoothed), MovementDirection(positions, sqrt).value))
  {
    match MovementDirection(positions, sqrt)
    case None => Distance(position, smoothed, sqrt)
    case Some(u) =>
      var lateral := LateralPart(Deviation(position, smoothed), u);
      LateralPythagoras(Deviation(position, smoothed), u);
      SquarePositive(Forward(Deviation(position, smoothed), u));
      SquarePositive(lateral.x);
      SquarePositive(lateral.y);
      SqrtMonotone(sqrt, Sq(lateral.x) + Sq(lateral.y), SquaredDistance(position, smoothed));
      sqrt(Sq(lateral.x) + Sq(lateral.y))
  }

  /** A deviation purely along the movement direction has no lateral jitter. */
  lemma LateralIgnoresForwardMotion(positions: seq<Point>, position: Point, smoothed: Point, t: real, sqrt: real -> real)
    requires IsSqrt(sqrt) && MovementDirection(positions, sqrt).Some?
    requires Deviation(position, smoothed) == Point(t * MovementDirection(positions, sqrt).value.x, t * MovementDirection(positions, sqrt).value.y)
    ensures LateralJitter(positions, position, smoothed, sqrt) == 0.0
  {
    var u := MovementDirection(positions, sqrt).value;
    var dev := Deviation(position, smoothed);
    assert Forward(dev, u) == t * (Sq(u.x) + Sq(u.y));
    assert LateralPart(dev, u) == Point(0.0, 0.0);
    SqrtZeroIff(sqrt, 0.0);
  }

  /** A deviation orthogonal to the movement direction counts in full. */
  lemma LateralKeepsCrossMotion(positions: seq<Point>, position: Point, smoothed: Point, sqrt: real -> real)
    requires IsSqrt(sqrt) && MovementDirection(positions, sqrt).Some?
    requires Forward(Deviation(position, smoothed), MovementDirection(positions, sqrt).value) == 0.0
    ensures LateralJitter(positions, position, smoothed, sqrt) == Distance(position, smoothed, sqrt)
  {
    var u := MovementDirection(positions, sqrt).value;
    var dev := Deviation(position, smoothed);
    assert LateralPart(dev, u) == dev;
  }

  /**
   * The linear score of `get_jitter_score` and `get_lateral_jitter_score`:
   * 100 up to the stable threshold, 0 from the maximum threshold, linear in
   * between.
   */
  function LinearScore(p95: real, stable: real, maxThreshold: real): (s: real)
    requires stable < maxThreshold
    ensures 0.0 <= s <= 100.0
    ensures p95 <= stable ==> s == 100.0
    ensures maxThreshold <= p95 ==> s == 0.0
  {
    if p95 <= stable then 100.0
    else if p95 >= maxThreshold then 0.0
    else
      var normalized := (p95 - stable) / (maxThreshold - stable);
      DivUnit(p95 - stable, maxThreshold - stable);
      100.0 * (1.0 - normalized)
  }

  /** A larger percentile never gives a better score. */
  lemma LinearScoreMonotone(a: real, b: real, stable: real, maxThreshold: real)
    requires stable < maxThreshold && a <= b
    ensures LinearScore(b, stable, maxThreshold) <= LinearScore(a, stable, maxThreshold)
  {
    if stable < a && b < maxThreshold {
      DivMonotone(a - stable, b - stable, maxThreshold - stable);
    }
  }

  /**
   * `get_jitter_score` / `get_lateral_jitter_score` over a full-session
   * history: 100 with no history, otherwise the linear score of its 95th
   * percentile.
   */
  function HistoryScore(history: seq<real>, stable: real, maxThreshold: real): (s: real)
    requires stable < maxThreshold
    ensures 0.0 <= s <= 100.0
    ensures |history| == 0 ==> s == 100.0
    ensures |history| > 0 && Percentile(history, 95.0) <= stable ==> s == 100.0
    ensures |history| > 0 && maxThreshold <= Percentile(history, 95.0) ==> s == 0.0
  {
    if |history| == 0 then 100.0 else LinearScore(Percentile(history, 95.0), stable, maxThreshold)
  }

  /** A history whose every value is within the stable threshold scores 100. */
  lemma StableHistoryScoresFull(history: seq<real>, stable: real, maxThreshold: real)
    requires stable < maxThreshold
    requires forall i :: 0 <= i < |history| ==> 0.0 <= history[i] <= stable
    ensures HistoryScore(history, stable, maxThreshold) == 100.0
  {
    if |history| > 0 {
      PercentileWithin(history, 95.0, 0.0, stable);
    }
  }

  /** A history whose every value is at least the maximum threshold scores 0. */
  lemma WildHistoryScoresZero(history: seq<real>, stable: real, maxThreshold: real)
    requires stable < maxThreshold && |history| > 0
    requires forall i :: 0 <= i < |history| ==> maxThreshold <= history[i]
    ensures HistoryScore(history, stable, maxThreshold) == 0.0
  {
    SortedEnds(history);
  }

  datatype StabilityLevel = Stable | Warning | Unstable

  /** `get_stability_level` and friends: inclusive thresholds. */
  function Level(jitter: real, stable: real, warning: real): (l: StabilityLevel)
    ensures l == Stable <==> jitter <= stable
    ensures l == Warning <==> stable < jitter <= warning
    ensures l == Unstable <==> stable < jitter && warning < jitter
  {
    if jitter <= stable then Stable
    else if jitter <= warning then Warning
    else Unstable
  }

  /** The level worsens as jitter grows. */
  lemma LevelMonotone(a: real, b: real, stable: real, warning: real)
    requires a <= b && stable <= warning
    ensures Level(a, stable, warning) == Unstable ==> Level(b, stable, warning) == Unstable
    ensures Level(b, stable, warning) == Stable ==> Level(a, stable, warning) == Stable
  {
  }

  /** `max(values) if values else 0`. */
  function MaxOrZero(values: seq<real>): (m: real)
    ensures |values| == 0 ==> m == 0.0
    ensures |values| > 0 ==> m in values && forall i :: 0 <= i < |values| ==> values[i] <= m
  {
    if |values| == 0 then 0.0
    else if |values| == 1 then values[0]
    else
      var rest := MaxOrZero(values[1..]);
      assert forall i :: 1 <= i < |values| ==> values[i] == values[1..][i - 1];
      if values[0] >= rest then values[0] else rest
  }
}
