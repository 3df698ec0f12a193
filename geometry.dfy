/**
 * Pure geometry helpers of the metrics engine: Euclidean distance, clamping,
 * the inclusive point-in-rectangle and point-in-circle tests and the distance
 * from a point to the line through two points.
 *
 * Dafny's reals have no square root, so `math.sqrt` is a parameter `sqrt`
 * that every member requiring `IsSqrt(sqrt)` takes to be the exact
 * non-negative square root on the non-negative reals.
 */
module Geometry {
  import opened Numeric

  /** A 2-D position in pixels; the tracker's integer centroids embed in it. */
  datatype Point = Point(x: real, y: real)

  /** An integer pixel position, as mouse clicks and the target path produce. */
  datatype Pixel = Pixel(x: int, y: int)

  function ToPoint(p: Pixel): Point {
    Point(p.x as real, p.y as real)
  }

  /** The square of a real. */
  function Sq(a: real): real {
    a * a
  }

  /** `sqrt` is the exact non-negative square root on the non-negative reals. */
  ghost predicate IsSqrt(sqrt: real -> real) {
    forall x {:trigger sqrt(x)} :: 0.0 <= x ==> 0.0 <= sqrt(x) && Sq(sqrt(x)) == x
  }

  /** A product of positive reals is positive. */
  lemma MulPositive(a: real, b: real)
    requires 0.0 < a && 0.0 < b
    ensures 0.0 < a * b
  {
  }

  /** Squaring is strictly monotone on the non-negative reals. */
  lemma SquareStrict(x: real, y: real)
    requires 0.0 <= y < x
    ensures Sq(y) < Sq(x)
  {
    MulPositive(x - y, x + y);
    assert (x - y) * (x + y) == x * x - y * y;
  }

  /** A square is positive away from zero and never negative. */
  lemma SquarePositive(a: real)
    ensures 0.0 <= Sq(a)
    ensures a != 0.0 ==> 0.0 < Sq(a)
  {
    if a > 0.0 {
      SquareStrict(a, 0.0);
    } else if a < 0.0 {
      SquareStrict(-a, 0.0);
      assert Sq(-a) == Sq(a);
    }
  }

  /** Comparing the squares of non-negative reals compares the reals. */
  lemma SquareLe(x: real, y: real)
    requires 0.0 <= x && 0.0 <= y
    ensures x <= y <==> Sq(x) <= Sq(y)
  {
    if x < y {
      SquareStrict(y, x);
    } else if y < x {
      SquareStrict(x, y);
    }
  }

  /** The root of a square is the non-negative base. */
  lemma SqrtOfSquare(sqrt: real -> real, a: real)
    requires IsSqrt(sqrt) && 0.0 <= a
    ensures sqrt(Sq(a)) == a
  {
    SquarePositive(a);
    var s := sqrt(Sq(a));
    assert 0.0 <= s && Sq(s) == Sq(a);
    SquareLe(s, a);
    SquareLe(a, s);
  }

  /** The root is zero exactly at zero. */
  lemma SqrtZeroIff(sqrt: real -> real, x: real)
    requires IsSqrt(sqrt) && 0.0 <= x
    ensures sqrt(x) == 0.0 <==> x == 0.0
  {
    if x == 0.0 {
      SqrtOfSquare(sqrt, 0.0);
    }
  }

  /** The root is monotone. */
  lemma SqrtMonotone(sqrt: real -> real, a: real, b: real)
    requires IsSqrt(sqrt) && 0.0 <= a <= b
    ensures sqrt(a) <= sqrt(b)
  {
    var sa, sb := sqrt(a), sqrt(b);
    assert Sq(sa) == a && Sq(sb) == b;
    SquareLe(sa, sb);
  }

  /** The root is at most `r` exactly when the radicand is at most `r * r`. */
  lemma SqrtAtMost(sqrt: real -> real, x: real, r: real)
    requires IsSqrt(sqrt) && 0.0 <= x && 0.0 <= r
    ensures sqrt(x) <= r <==> x <= Sq(r)
  {
    var s := sqrt(x);
    assert 0.0 <= s && Sq(s) == x;
    SquareLe(s, r);
  }

  function SquaredDistance(p: Point, q: Point): (d: real)
    ensures 0.0 <= d
  {
    SquarePositive(p.x - q.x);
    SquarePositive(p.y - q.y);
    Sq(p.x - q.x) + Sq(p.y - q.y)
  }

  /** A sum of two squares is zero exactly when both bases are. */
  lemma SquaresZero(a: real, b: real)
    ensures Sq(a) + Sq(b) == 0.0 <==> a == 0.0 && b == 0.0
  {
    SquarePositive(a);
    SquarePositive(b);
  }

  /** `distance(p1, p2)` in backend/app/compvis/game2.py. */
  function Distance(p: Point, q: Point, sqrt: real -> real): (d: real)
    requires IsSqrt(sqrt)
    ensures 0.0 <= d
    ensures Sq(d) == SquaredDistance(p, q)
    ensures d == 0.0 <==> p == q
  {
    SquaresZero(p.x - q.x, p.y - q.y);
    SqrtZeroIff(sqrt, SquaredDistance(p, q));
    sqrt(SquaredDistance(p, q))
  }

  /** Distance is symmetric. */
  lemma DistanceSymmetric(p: Point, q: Point, sqrt: real -> real)
    requires IsSqrt(sqrt)
    ensures Distance(p, q, sqrt) == Distance(q, p, sqrt)
  {
    assert SquaredDistance(p, q) == SquaredDistance(q, p);
  }

  /** `clamp(value, min_val, max_val)`: `max(min_val, min(max_val, value))`. */
  function Clamp(value: real, lo: real, hi: real): (r: real)
    ensures lo <= hi ==> lo <= r <= hi
    ensures lo <= value <= hi ==> r == value
    ensures value <= lo ==> r == lo
    ensures lo <= hi <= value ==> r == hi
  {
    MaxReal(lo, MinReal(hi, value))
  }

  /**
   * `point_in_rect`: inclusive on all four sides, with `half = size // 2`
   * (Python's floor division, which Dafny's `/` matches for the divisor 2).
   */
  function PointInRect(p: Point, center: Pixel, size: int): (inside: bool)
    ensures inside <==> (Abs(p.x - center.x as real) <= (size / 2) as real
                         && Abs(p.y - center.y as real) <= (size / 2) as real)
  {
    var half := size / 2;
    (center.x - half) as real <= p.x <= (center.x + half) as real
      && (center.y - half) as real <= p.y <= (center.y + half) as real
  }

  /** All four corners of the square lie inside it: the test is inclusive. */
  lemma PointInRectCorners(center: Pixel, size: int, sx: int, sy: int)
    requires size >= 0 && (sx == 1 || sx == -1) && (sy == 1 || sy == -1)
    ensures PointInRect(Point((center.x + sx * (size / 2)) as real, (center.y + sy * (size / 2)) as real), center, size)
  {
  }

  /** `point_in_circle`: the distance is at most the radius, boundary included. */
  function PointInCircle(p: Point, center: Point, radius: real, sqrt: real -> real): bool
    requires IsSqrt(sqrt)
  {
    Distance(p, center, sqrt) <= radius
  }

  /**
   * The circle test compared without roots: inside exactly when the radius is
   * non-negative and the squared distance is at most the squared radius; so a
   * point exactly on the circle is inside, and a radius of 0 admits only the centre.
   */
  lemma PointInCircleSquared(p: Point, center: Point, radius: real, sqrt: real -> real)
    requires IsSqrt(sqrt)
    ensures PointInCircle(p, center, radius, sqrt)
        <==> 0.0 <= radius && SquaredDistance(p, center) <= Sq(radius)
  {
    if 0.0 <= radius {
      SqrtAtMost(sqrt, SquaredDistance(p, center), radius);
    }
  }

  /** A radius of 0 admits exactly the centre. */
  lemma PointInZeroCircle(p: Point, center: Point, sqrt: real -> real)
    requires IsSqrt(sqrt)
    ensures PointInCircle(p, center, 0.0, sqrt) <==> p == center
  {
  }

  /**
   * `point_to_line_distance`: the distance from `p` to the infinite line
   * through `a` and `b`, or the plain distance to `a` when `a == b`.
   */
  function PointToLineDistance(p: Point, a: Point, b: Point, sqrt: real -> real): (d: real)
    requires IsSqrt(sqrt)
    ensures 0.0 <= d
    ensures a == b ==> d == Distance(p, a, sqrt)
  {
    var lineLenSq := Sq(b.x - a.x) + Sq(b.y - a.y);
    SquaresZero(b.x - a.x, b.y - a.y);
    if lineLenSq == 0.0 then
      Distance(p, a, sqrt)
    else
      var numerator := Abs((b.y - a.y) * p.x - (b.x - a.x) * p.y + b.x * a.y - b.y * a.x);
      numerator / sqrt(lineLenSq)
  }

  /** Points on the line through `a` and `b` are at distance 0 from it. */
  lemma PointOnLineHasZeroDistance(a: Point, b: Point, t: real, sqrt: real -> real)
    requires IsSqrt(sqrt)
    ensures PointToLineDistance(Point(a.x + t * (b.x - a.x), a.y + t * (b.y - a.y)), a, b, sqrt) == 0.0
  {
    var p := Point(a.x + t * (b.x - a.x), a.y + t * (b.y - a.y));
    var lineLenSq := Sq(b.x - a.x) + Sq(b.y - a.y);
    SquaresZero(b.x - a.x, b.y - a.y);
    if lineLenSq != 0.0 {
      var dx, dy := b.x - a.x, b.y - a.y;
      assert dy * p.x - dx * p.y == dy * a.x - dx * a.y;
      assert dy * p.x - dx * p.y + b.x * a.y - b.y * a.x == 0.0;
      SqrtZeroIff(sqrt, lineLenSq);
    } else {
      assert p == a;
    }
  }

  /** Lagrange's identity in the plane: |u|^2 |v|^2 = (u.v)^2 + (u x v)^2. */
  lemma Lagrange(ux: real, uy: real, vx: real, vy: real)
    ensures (Sq(ux) + Sq(uy)) * (Sq(vx) + Sq(vy)) == Sq(ux * vx + uy * vy) + Sq(ux * vy - uy * vx)
  {
  }

  /** The cross product of two vectors is bounded by the product of their lengths. */
  lemma CrossBound(ux: real, uy: real, vx: real, vy: real)
    ensures Sq(vy * ux - vx * uy) <= (Sq(ux) + Sq(uy)) * (Sq(vx) + Sq(vy))
  {
    Lagrange(ux, uy, vx, vy);
    SquarePositive(ux * vx + uy * vy);
    assert Sq(vy * ux - vx * uy) == Sq(ux * vy - uy * vx);
  }

  /** `n / s <= d` follows from `n * n <= (d * s) * (d * s)` for positive `s`. */
  lemma QuotientBound(n: real, s: real, d: real)
    requires 0.0 <= n && 0.0 < s && 0.0 <= d
    requires Sq(n) <= Sq(d * s)
    ensures n / s <= d
  {
    assert 0.0 <= d * s;
    SquareLe(n, d * s);
    assert n <= d * s;
    assert n / s <= (d * s) / s;
  }

  /** The numerator of the line distance is the cross product of `p - a` and `b - a`. */
  lemma CrossOfOffsets(px: real, py: real, ax: real, ay: real, qx: real, qy: real)
    ensures (qy - ay) * px - (qx - ax) * py + qx * ay - qy * ax
         == (qy - ay) * (px - ax) - (qx - ax) * (py - ay)
  {
  }

  /** Absolute value does not change a square. */
  lemma AbsSquare(c: real)
    ensures Sq(Abs(c)) == Sq(c)
  {
    if c < 0.0 {
      assert Sq(Abs(c)) == Sq(-c);
    }
  }

  /** Squaring distributes over a product. */
  lemma SquareOfProduct(d: real, s: real)
    ensures Sq(d * s) == Sq(d) * Sq(s)
  {
  }

  /**
   * The distance to the line never exceeds the distance to `line_start`, a
   * point of that line.
   */
  lemma PointToLineAtMostDistanceToStart(p: Point, a: Point, b: Point, sqrt: real -> real)
    requires IsSqrt(sqrt)
    ensures PointToLineDistance(p, a, b, sqrt) <= Distance(p, a, sqrt)
  {
    var ux, uy, vx, vy := p.x - a.x, p.y - a.y, b.x - a.x, b.y - a.y;
    var lenSq := Sq(vx) + Sq(vy);
    if lenSq != 0.0 {
      var cross := (b.y - a.y) * p.x - (b.x - a.x) * p.y + b.x * a.y - b.y * a.x;
      CrossOfOffsets(p.x, p.y, a.x, a.y, b.x, b.y);
      CrossBound(ux, uy, vx, vy);
      AbsSquare(cross);
      var s := sqrt(lenSq);
      SquaresZero(vx, vy);
      SqrtZeroIff(sqrt, lenSq);
      var dist := Distance(p, a, sqrt);
      SquareOfProduct(dist, s);
      QuotientBound(Abs(cross), s, dist);
    }
  }
}
