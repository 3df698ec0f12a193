/**
 * `TargetPath` of the FOLLOW level: the target dot that travels from point A
 * to point B and back, faster and faster as the session goes on.
 *
 * One cycle is A -> B -> A. The number of cycles completed after `elapsed`
 * seconds is `elapsed * 0.3 * (1 + elapsed / 50)`; its fractional part places
 * the dot on the way out (first half) or back (second half), and the
 * coordinates are truncated to integers as Python's `int()` does.
 */
module TargetPaths {
  import opened Wrappers
  import opened Numeric
  import opened Geometry

  /** `base_cycles_per_second`. */
  const BaseCyclesPerSecond: real := 0.3

  /** `get_current_speed_multiplier(elapsed_time)`: 0.1 more every five seconds. */
  function SpeedMultiplier(elapsed: real): real {
    1.0 + (elapsed / 5.0) * 0.1
  }

  /** The multiplier starts at 1 and never decreases as time goes on. */
  lemma SpeedMultiplierGrows(a: real, b: real)
    requires 0.0 <= a <= b
    ensures 1.0 <= SpeedMultiplier(a) <= SpeedMultiplier(b)
  {
  }

  /** `total_cycles % 1.0`: Python's float remainder by 1, the fractional part, in [0, 1). */
  function CycleFraction(elapsed: real): (c: real)
    ensures 0.0 <= c < 1.0
  {
    var total := elapsed * (BaseCyclesPerSecond * SpeedMultiplier(elapsed));
    total - total.Floor as real
  }

  /**
   * How far along the segment from A to B the dot is: the first half of a
   * cycle maps 0 -> 0.5 onto 0 -> 1, the second half 0.5 -> 1 onto 1 -> 0.
   */
  function PositionRatio(c: real): (ratio: real)
    requires 0.0 <= c < 1.0
    ensures 0.0 <= ratio <= 1.0
    ensures c == 0.0 ==> ratio == 0.0
    ensures c == 0.5 ==> ratio == 1.0
    ensures c <= 0.5 ==> ratio == 2.0 * c
  {
    if c <= 0.5 then c * 2.0 else 2.0 - c * 2.0
  }

  /** `int(a + ratio * d)`: one truncated coordinate of the interpolation. */
  function Interpolate(a: int, d: int, ratio: real): int {
    Trunc(a as real + ratio * d as real)
  }

  /** Moving a fraction of the way from `a` to `b` stays between the two. */
  lemma ScaledOffsetBetween(a: int, b: int, ratio: real)
    requires 0.0 <= ratio <= 1.0
    ensures Min(a, b) as real <= a as real + ratio * (b - a) as real <= Max(a, b) as real
  {
    var d := (b - a) as real;
    if a <= b {
      MulNonNegative(ratio, d);
      ScaleDown(d, ratio);
    } else {
      MulNonNegative(ratio, -d);
      ScaleDown(-d, ratio);
    }
  }

  /** Truncating a real that lies between two integers gives an integer between them. */
  lemma TruncBetween(lo: int, r: real, hi: int)
    requires lo as real <= r <= hi as real
    ensures lo <= Trunc(r) <= hi
  {
    TruncMonotone(lo as real, r);
    TruncMonotone(r, hi as real);
    TruncOfInt(lo);
    TruncOfInt(hi);
  }

  /**
   * With a ratio in [0, 1] the truncated coordinate stays between the two
   * ends, is the first end at ratio 0 and the second at ratio 1.
   */
  lemma InterpolateBetween(a: int, b: int, ratio: real)
    requires 0.0 <= ratio <= 1.0
    ensures Min(a, b) <= Interpolate(a, b - a, ratio) <= Max(a, b)
    ensures ratio == 0.0 ==> Interpolate(a, b - a, ratio) == a
    ensures ratio == 1.0 ==> Interpolate(a, b - a, ratio) == b
  {
    ScaledOffsetBetween(a, b, ratio);
    TruncBetween(Min(a, b), a as real + ratio * (b - a) as real, Max(a, b));
    if ratio == 0.0 {
      TruncOfInt(a);
    } else if ratio == 1.0 {
      TruncOfInt(b);
    }
  }

  /** `get_position` once both points are set. */
  function CalibratedPosition(a: Pixel, b: Pixel, elapsed: real, sqrt: real -> real): Pixel
    requires IsSqrt(sqrt)
  {
    var dx := b.x - a.x;
    var dy := b.y - a.y;
    if Distance(ToPoint(a), ToPoint(b), sqrt) == 0.0 then a
    else
      var ratio := PositionRatio(CycleFraction(elapsed));
      Pixel(Interpolate(a.x, dx, ratio), Interpolate(a.y, dy, ratio))
  }

  /**
   * `get_position(elapsed_time)`: the middle of the frame (floor halves of its
   * size) until both points are set, otherwise the calibrated position.
   */
  function PathPosition(a: Option<Pixel>, b: Option<Pixel>, width: int, height: int, elapsed: real,
                        sqrt: real -> real): Pixel
    requires IsSqrt(sqrt)
  {
    if a.None? || b.None? then Pixel(width / 2, height / 2)
    else CalibratedPosition(a.value, b.value, elapsed, sqrt)
  }

  /** Until both points are set, the dot sits in the middle of the frame. */
  lemma UncalibratedIsCentre(a: Option<Pixel>, b: Option<Pixel>, width: int, height: int, elapsed: real,
                             sqrt: real -> real)
    requires IsSqrt(sqrt) && (a.None? || b.None?)
    ensures PathPosition(a, b, width, height, elapsed, sqrt) == Pixel(width / 2, height / 2)
  {
  }

  /** When A and B coincide the dot stays on A at every time. */
  lemma SamePointsStay(a: Pixel, elapsed: real, sqrt: real -> real)
    requires IsSqrt(sqrt)
    ensures CalibratedPosition(a, a, elapsed, sqrt) == a
  {
  }

  /** Every coordinate of the dot lies between those of A and B, even after truncation. */
  lemma PositionBetween(a: Pixel, b: Pixel, elapsed: real, sqrt: real -> real)
    requires IsSqrt(sqrt)
    ensures var q := CalibratedPosition(a, b, elapsed, sqrt);
      Min(a.x, b.x) <= q.x <= Max(a.x, b.x) && Min(a.y, b.y) <= q.y <= Max(a.y, b.y)
  {
    if a != b {
      var ratio := PositionRatio(CycleFraction(elapsed));
      InterpolateBetween(a.x, b.x, ratio);
      InterpolateBetween(a.y, b.y, ratio);
    }
  }

  /** The dot starts on A. */
  lemma StartsAtA(a: Pixel, b: Pixel, sqrt: real -> real)
    requires IsSqrt(sqrt)
    ensures CalibratedPosition(a, b, 0.0, sqrt) == a
  {
    if a != b {
      assert CycleFraction(0.0) == 0.0;
      InterpolateBetween(a.x, b.x, 0.0);
      InterpolateBetween(a.y, b.y, 0.0);
    }
  }

  /** Half way through a cycle the dot is on B. */
  lemma HalfCycleAtB(a: Pixel, b: Pixel, elapsed: real, sqrt: real -> real)
    requires IsSqrt(sqrt) && CycleFraction(elapsed) == 0.5
    ensures CalibratedPosition(a, b, elapsed, sqrt) == b
  {
    if a != b {
      InterpolateBetween(a.x, b.x, 1.0);
      InterpolateBetween(a.y, b.y, 1.0);
    }
  }

  /**
   * `TargetPath(frame_width, frame_height)`: the frame size is fixed, and
   * points A and B are unset until calibration.
   */
  class TargetPath {
    const frameWidth: int
    const frameHeight: int
    const sqrt: real -> real
    var pointA: Option<Pixel>
    var pointB: Option<Pixel>

    constructor(frameWidth: int, frameHeight: int, sqrt: real -> real)
      ensures this.frameWidth == frameWidth && this.frameHeight == frameHeight && this.sqrt == sqrt
      ensures pointA == None && pointB == None && !IsCalibrated()
    {
      this.frameWidth, this.frameHeight, this.sqrt := frameWidth, frameHeight, sqrt;
      pointA, pointB := None, None;
    }

    /** `set_points(point_a, point_b)`: sets exactly the two points, which calibrates the path. */
    method SetPoints(a: Pixel, b: Pixel)
      modifies this
      ensures pointA == Some(a) && pointB == Some(b) && IsCalibrated()
    {
      pointA, pointB := Some(a), Some(b);
    }

    /** `is_calibrated()`. */
    predicate IsCalibrated()
      reads this
    {
      pointA.Some? && pointB.Some?
    }

    /**
     * `get_position(elapsed_time)`: the frame centre until both points are
     * set; afterwards A at time 0, and always a pixel between A and B.
     */
    function GetPosition(elapsed: real): (p: Pixel)
      requires IsSqrt(sqrt)
      reads this
      ensures !IsCalibrated() ==> p == Pixel(frameWidth / 2, frameHeight / 2)
      ensures IsCalibrated() ==>
        && Min(pointA.value.x, pointB.value.x) <= p.x <= Max(pointA.value.x, pointB.value.x)
        && Min(pointA.value.y, pointB.value.y) <= p.y <= Max(pointA.value.y, pointB.value.y)
      ensures IsCalibrated() && elapsed == 0.0 ==> p == pointA.value
    {
      if IsCalibrated() then
        PositionBetween(pointA.value, pointB.value, elapsed, sqrt);
        StartsAtA(pointA.value, pointB.value, sqrt);
        PathPosition(pointA, pointB, frameWidth, frameHeight, elapsed, sqrt)
      else PathPosition(pointA, pointB, frameWidth, frameHeight, elapsed, sqrt)
    }
  }
}
