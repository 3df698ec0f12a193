/**
 * The moving-average smoother `smooth_positions` and the jitter measure
 * `calculate_jitter` built on it: the distance from the newest position to
 * the mean of the recent ones.
 */
module Smoothing {
  import opened Wrappers
  import opened Numeric
  import opened Geometry
  import opened Statistics

  /**
   * `positions[-window:] if len(positions) > window else positions`, with
   * Python's slicing: a window of 0 keeps everything, and a negative window
   * drops the first `-window` positions.
   */
  function Recent(ps: seq<Point>, window: int): (r: seq<Point>)
    ensures |r| <= |ps|
    ensures r == ps[|ps| - |r|..]
  {
    if |ps| > window then
      if window > 0 then ps[|ps| - window..]
      else if window == 0 then ps
      else ps[Min(-window, |ps|)..]
    else ps
  }

  /** For a positive window, the recent positions are the last `min(window, n)`. */
  lemma RecentIsLastWindow(ps: seq<Point>, window: int)
    requires window > 0
    ensures Recent(ps, window) == ps[|ps| - Min(window, |ps|)..]
  {
  }

  /** A non-negative window keeps a non-empty list non-empty. */
  lemma RecentNonEmpty(ps: seq<Point>, window: int)
    requires window >= 0 && |ps| > 0
    ensures |Recent(ps, window)| > 0
    ensures Recent(ps, window)[|Recent(ps, window)| - 1] == ps[|ps| - 1]
  {
  }

  function Xs(pts: seq<Point>): (xs: seq<real>)
    ensures |xs| == |pts| && forall i :: 0 <= i < |pts| ==> xs[i] == pts[i].x
  {
    seq(|pts|, i requires 0 <= i < |pts| => pts[i].x)
  }

  function Ys(pts: seq<Point>): (ys: seq<real>)
    ensures |ys| == |pts| && forall i :: 0 <= i < |pts| ==> ys[i] == pts[i].y
  {
    seq(|pts|, i requires 0 <= i < |pts| => pts[i].y)
  }

  /** The mean of the x and of the y coordinates. */
  function Centroid(pts: seq<Point>): Point
    requires |pts| > 0
  {
    Point(Mean(Xs(pts)), Mean(Ys(pts)))
  }

  predicate InBox(p: Point, lo: Point, hi: Point) {
    lo.x <= p.x <= hi.x && lo.y <= p.y <= hi.y
  }

  /** The centroid lies inside every axis-aligned box holding all the points. */
  lemma CentroidInBox(pts: seq<Point>, lo: Point, hi: Point)
    requires |pts| > 0
    requires forall i :: 0 <= i < |pts| ==> InBox(pts[i], lo, hi)
    ensures InBox(Centroid(pts), lo, hi)
  {
    MeanBounds(Xs(pts), lo.x, hi.x);
    MeanBounds(Ys(pts), lo.y, hi.y);
  }

  /** The centroid of copies of one point is that point. */
  lemma CentroidOfConstant(pts: seq<Point>, q: Point)
    requires |pts| > 0
    requires forall i :: 0 <= i < |pts| ==> pts[i] == q
    ensures Centroid(pts) == q
  {
    CentroidInBox(pts, q, q);
  }

  /**
   * `smooth_positions(positions, window)`: `None` when there is nothing to
   * average, otherwise the centroid of the recent positions.
   */
  function SmoothPositions(ps: seq<Point>, window: int): (r: Option<Point>)
    ensures window >= 0 ==> (r.None? <==> |ps| == 0)
    ensures r.Some? ==> |Recent(ps, window)| > 0 && r.value == Centroid(Recent(ps, window))
  {
    if |ps| == 0 then None
    else
      var recent := Recent(ps, window);
      if |recent| == 0 then None
      else Some(Centroid(recent))
  }

  /** The smoothed position lies in the bounding box of the averaged positions. */
  lemma SmoothPositionsInBox(ps: seq<Point>, window: int, lo: Point, hi: Point)
    requires forall i :: 0 <= i < |ps| ==> InBox(ps[i], lo, hi)
    ensures SmoothPositions(ps, window).Some? ==> InBox(SmoothPositions(ps, window).value, lo, hi)
  {
    if SmoothPositions(ps, window).Some? {
      var recent := Recent(ps, window);
      var k := |ps| - |recent|;
      forall i | 0 <= i < |recent|
        ensures InBox(recent[i], lo, hi)
      {
        assert recent[i] == ps[k + i];
      }
      CentroidInBox(recent, lo, hi);
    }
  }

  /**
   * The distance from `p` to the centroid of the last `window` positions:
   * the jitter both sessions record once `window` positions are stored.
   */
  function RecentJitter(ps: seq<Point>, p: Point, window: nat, sqrt: real -> real): (j: real)
    requires IsSqrt(sqrt) && 0 < window <= |ps|
    ensures 0.0 <= j
  {
    Distance(p, Centroid(ps[|ps| - window..]), sqrt)
  }

  /** It is the distance from `p` to `smooth_positions(ps, window)`. */
  lemma RecentJitterIsSmoothed(ps: seq<Point>, p: Point, window: nat, sqrt: real -> real)
    requires IsSqrt(sqrt) && 0 < window <= |ps|
    ensures SmoothPositions(ps, window).Some?
    ensures RecentJitter(ps, p, window, sqrt) == Distance(p, SmoothPositions(ps, window).value, sqrt)
  {
    RecentIsLastWindow(ps, window);
  }

  /**
   * `calculate_jitter(positions, window)`: 0.0 for fewer than two positions or
   * nothing to smooth, otherwise the distance from the newest position to the
   * smoothed one.
   */
  function CalculateJitter(ps: seq<Point>, window: int, sqrt: real -> real): (j: real)
    requires IsSqrt(sqrt)
    ensures 0.0 <= j
    ensures |ps| < 2 ==> j == 0.0
    ensures |ps| >= 2 && window >= 0 ==> j == Distance(ps[|ps| - 1], Centroid(Recent(ps, window)), sqrt)
  {
    if |ps| < 2 then 0.0
    else
      match SmoothPositions(ps, window)
      case None => 0.0
      case Some(smoothed) => Distance(ps[|ps| - 1], smoothed, sqrt)
  }

  /** Jitter vanishes when every averaged position equals the newest one. */
  lemma JitterOfStillMarker(ps: seq<Point>, window: int, sqrt: real -> real)
    requires IsSqrt(sqrt) && window >= 0 && |ps| >= 2
    requires forall i :: |ps| - |Recent(ps, window)| <= i < |ps| ==> ps[i] == ps[|ps| - 1]
    ensures CalculateJitter(ps, window, sqrt) == 0.0
  {
    var recent := Recent(ps, window);
    RecentNonEmpty(ps, window);
    forall i | 0 <= i < |recent|
      ensures recent[i] == ps[|ps| - 1]
    {
      assert recent[i] == ps[|ps| - |recent| + i];
    }
    CentroidOfConstant(recent, ps[|ps| - 1]);
  }

  /** Jitter is zero exactly when the newest position sits on the smoothed one. */
  lemma JitterZeroIff(ps: seq<Point>, window: int, sqrt: real -> real)
    requires IsSqrt(sqrt) && window >= 0 && |ps| >= 2
    ensures CalculateJitter(ps, window, sqrt) == 0.0 <==> ps[|ps| - 1] == Centroid(Recent(ps, window))
  {
    RecentNonEmpty(ps, window);
  }
}
