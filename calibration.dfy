/**
 * Two-click calibration of the HOLD circle: the first click places the
 * centre, the second a point on the edge, and the radius is the distance
 * between them. The desktop variant (`CompVis/calibration.py`) and the
 * backend variant (`backend/app/compvis/calibration.py`) share the state and
 * its updates; the backend adds `set_radius`, `to_dict` and a click handler
 * that reports what it did.
 *
 * The state is first described as a value with pure updates, about which the
 * lemmas speak; the classes then update their fields exactly as those
 * functions say.
 */
module Calibration {
  import opened Wrappers
  import opened Geometry

  /** `center`, `edge` and `radius` of a `CalibrationState`. */
  datatype CalibrationData = CalibrationData(center: Option<Pixel>, edge: Option<Pixel>, radius: real)

  /** What `handle_click` reports. */
  datatype ClickResult =
    | CenterSet(x: int, y: int)
    | EdgeSet(x: int, y: int, radius: real)
    | AlreadyComplete

  /** What `to_dict` reports: the centre (or nothing), the radius and completeness. */
  datatype CalibrationSummary = CalibrationSummary(center: Option<Pixel>, radius: real, isComplete: bool)

  /** `_calculate_radius` with both points set: the Euclidean distance from centre to edge. */
  function RadiusOf(center: Pixel, edge: Pixel, sqrt: real -> real): (r: real)
    requires IsSqrt(sqrt)
    ensures 0.0 <= r
    ensures r == 0.0 <==> center == edge
  {
    Distance(ToPoint(edge), ToPoint(center), sqrt)
  }

  /** `is_complete()`: both points are set. */
  predicate Complete(c: CalibrationData) {
    c.center.Some? && c.edge.Some?
  }

  /** Whenever both points are set, the radius is the distance between them. */
  predicate Consistent(c: CalibrationData, sqrt: real -> real)
    requires IsSqrt(sqrt)
  {
    Complete(c) ==> c.radius == RadiusOf(c.center.value, c.edge.value, sqrt)
  }

  /** The state after `__init__` or `reset()`. */
  function Cleared(): CalibrationData {
    CalibrationData(None, None, 0.0)
  }

  /** `_calculate_radius()`: zero unless both points are set. */
  function Recalculated(c: CalibrationData, sqrt: real -> real): CalibrationData
    requires IsSqrt(sqrt)
  {
    c.(radius := if c.center.None? || c.edge.None? then 0.0 else RadiusOf(c.center.value, c.edge.value, sqrt))
  }

  /** `set_center(x, y)`: the radius is recomputed only when an edge is already set. */
  function WithCenter(c: CalibrationData, p: Pixel, sqrt: real -> real): CalibrationData
    requires IsSqrt(sqrt)
  {
    var placed := c.(center := Some(p));
    if placed.edge.Some? then Recalculated(placed, sqrt) else placed
  }

  /** `set_edge(x, y)`: the radius is recomputed only when a centre is already set. */
  function WithEdge(c: CalibrationData, p: Pixel, sqrt: real -> real): CalibrationData
    requires IsSqrt(sqrt)
  {
    var placed := c.(edge := Some(p));
    if placed.center.Some? then Recalculated(placed, sqrt) else placed
  }

  /** `set_radius(radius)` of the backend variant: stores the radius and forgets the edge. */
  function WithRadius(c: CalibrationData, radius: real): CalibrationData {
    c.(radius := radius, edge := None)
  }

  /** The state change of a click: centre first, then edge, then nothing. */
  function Click(c: CalibrationData, p: Pixel, sqrt: real -> real): CalibrationData
    requires IsSqrt(sqrt)
  {
    if c.center.None? then WithCenter(c, p, sqrt)
    else if c.edge.None? then WithEdge(c, p, sqrt)
    else c
  }

  /** What `handle_click` returns for a click on state `c`. */
  function ClickReport(c: CalibrationData, p: Pixel, sqrt: real -> real): ClickResult
    requires IsSqrt(sqrt)
  {
    if c.center.None? then CenterSet(p.x, p.y)
    else if c.edge.None? then EdgeSet(p.x, p.y, WithEdge(c, p, sqrt).radius)
    else AlreadyComplete
  }

  /** `to_dict()`. */
  function Summary(c: CalibrationData): CalibrationSummary {
    CalibrationSummary(c.center, c.radius, Complete(c))
  }

  /** The cleared state is incomplete, has radius 0 and is consistent. */
  lemma ClearedIsEmpty(sqrt: real -> real)
    requires IsSqrt(sqrt)
    ensures !Complete(Cleared()) && Cleared().radius == 0.0 && Consistent(Cleared(), sqrt)
  {
  }

  /**
   * Every update leaves the state consistent, whatever it was before: a
   * complete calibration always has the centre-to-edge distance as radius.
   */
  lemma UpdatesKeepConsistent(c: CalibrationData, p: Pixel, radius: real, sqrt: real -> real)
    requires IsSqrt(sqrt)
    ensures Consistent(WithCenter(c, p, sqrt), sqrt)
    ensures Consistent(WithEdge(c, p, sqrt), sqrt)
    ensures Consistent(WithRadius(c, radius), sqrt)
    ensures Consistent(c, sqrt) ==> Consistent(Click(c, p, sqrt), sqrt)
  {
  }

  /** Setting one point while the other is missing leaves the radius as it was. */
  lemma LonePointKeepsRadius(c: CalibrationData, p: Pixel, sqrt: real -> real)
    requires IsSqrt(sqrt)
    ensures c.edge.None? ==> WithCenter(c, p, sqrt).radius == c.radius && !Complete(WithCenter(c, p, sqrt))
    ensures c.center.None? ==> WithEdge(c, p, sqrt).radius == c.radius && !Complete(WithEdge(c, p, sqrt))
  {
  }

  /** `set_radius` stores the value and leaves the calibration incomplete. */
  lemma WithRadiusIncomplete(c: CalibrationData, radius: real)
    ensures WithRadius(c, radius).radius == radius && WithRadius(c, radius).center == c.center
    ensures !Complete(WithRadius(c, radius))
  {
  }

  /** Once both points are set, further clicks change nothing and report so. */
  lemma ClickWhenCompleteChangesNothing(c: CalibrationData, p: Pixel, sqrt: real -> real)
    requires IsSqrt(sqrt) && Complete(c)
    ensures Click(c, p, sqrt) == c
    ensures ClickReport(c, p, sqrt) == AlreadyComplete
  {
  }

  /**
   * From a cleared state two clicks complete the calibration: the first is
   * the centre, the second the edge, the radius is their distance, and a
   * third click changes nothing.
   */
  lemma TwoClicksCalibrate(p: Pixel, q: Pixel, r: Pixel, sqrt: real -> real)
    requires IsSqrt(sqrt)
    ensures var first := Click(Cleared(), p, sqrt);
      first == CalibrationData(Some(p), None, 0.0) && ClickReport(Cleared(), p, sqrt) == CenterSet(p.x, p.y)
    ensures var second := Click(Click(Cleared(), p, sqrt), q, sqrt);
      second == CalibrationData(Some(p), Some(q), RadiusOf(p, q, sqrt)) && Complete(second)
      && ClickReport(Click(Cleared(), p, sqrt), q, sqrt) == EdgeSet(q.x, q.y, RadiusOf(p, q, sqrt))
    ensures var second := Click(Click(Cleared(), p, sqrt), q, sqrt);
      Click(second, r, sqrt) == second
  {
    var second := Click(Click(Cleared(), p, sqrt), q, sqrt);
    ClickWhenCompleteChangesNothing(second, r, sqrt);
  }

  /** `to_dict` reports no centre exactly when none is set, and the completeness of the state. */
  lemma SummaryReportsState(c: CalibrationData)
    ensures Summary(c).center.None? <==> c.center.None?
    ensures Summary(c).isComplete <==> c.center.Some? && c.edge.Some?
    ensures Summary(c).radius == c.radius
  {
  }

  /** `CalibrationState` of either variant. */
  class CalibrationState {
    const sqrt: real -> real
    var center: Option<Pixel>
    var edge: Option<Pixel>
    var radius: real

    function State(): CalibrationData
      reads this
    {
      CalibrationData(center, edge, radius)
    }

    constructor(sqrt: real -> real)
      ensures this.sqrt == sqrt && State() == Cleared()
    {
      this.sqrt := sqrt;
      center, edge, radius := None, None, 0.0;
    }

    /** `is_complete()`. */
    predicate IsComplete()
      reads this
    {
      Complete(State())
    }

    /** `reset()`. */
    method Reset()
      modifies this
      ensures State() == Cleared()
    {
      center, edge, radius := None, None, 0.0;
    }

    /** `_calculate_radius()`. */
    method CalculateRadius()
      requires IsSqrt(sqrt)
      modifies this
      ensures State() == Recalculated(old(State()), sqrt)
    {
      if center.None? || edge.None? {
        radius := 0.0;
        return;
      }
      radius := RadiusOf(center.value, edge.value, sqrt);
    }

    /** `set_center(x, y)`. */
    method SetCenter(x: int, y: int)
      requires IsSqrt(sqrt)
      modifies this
      ensures State() == WithCenter(old(State()), Pixel(x, y), sqrt)
    {
      center := Some(Pixel(x, y));
      if edge.Some? {
        CalculateRadius();
      }
    }

    /** `set_edge(x, y)`. */
    method SetEdge(x: int, y: int)
      requires IsSqrt(sqrt)
      modifies this
      ensures State() == WithEdge(old(State()), Pixel(x, y), sqrt)
    {
      edge := Some(Pixel(x, y));
      if center.Some? {
        CalculateRadius();
      }
    }

    /** `set_radius(radius)` (backend variant). */
    method SetRadius(radius: real)
      modifies this
      ensures State() == WithRadius(old(State()), radius)
    {
      this.radius := radius;
      edge := None;
    }

    /** `to_dict()` (backend variant): the centre, the radius, and whether both points are set. */
    function ToDict(): (d: CalibrationSummary)
      reads this
      ensures d.center == center && d.radius == radius
      ensures d.isComplete <==> center.Some? && edge.Some?
    {
      SummaryReportsState(State());
      Summary(State())
    }
  }

  /** `CalibrationHandler`: forwards clicks to the state it manages. */
  class CalibrationHandler {
    const calibration: CalibrationState

    constructor(calibration: CalibrationState)
      ensures this.calibration == calibration
    {
      this.calibration := calibration;
    }

    /**
     * `mouse_callback` of the desktop variant, for a left-button press:
     * centre first, then edge, and nothing once both are set.
     */
    method MouseClick(x: int, y: int)
      requires IsSqrt(calibration.sqrt)
      modifies calibration
      ensures calibration.State() == Click(old(calibration.State()), Pixel(x, y), calibration.sqrt)
    {
      if calibration.center.None? {
        calibration.SetCenter(x, y);
      } else if calibration.edge.None? {
        calibration.SetEdge(x, y);
      }
    }

    /** `handle_click(x, y)` of the backend variant: the same update, and a report of it. */
    method HandleClick(x: int, y: int) returns (result: ClickResult)
      requires IsSqrt(calibration.sqrt)
      modifies calibration
      ensures calibration.State() == Click(old(calibration.State()), Pixel(x, y), calibration.sqrt)
      ensures result == ClickReport(old(calibration.State()), Pixel(x, y), calibration.sqrt)
    {
      if calibration.center.None? {
        calibration.SetCenter(x, y);
        return CenterSet(x, y);
      } else if calibration.edge.None? {
        calibration.SetEdge(x, y);
        return EdgeSet(x, y, calibration.radius);
      } else {
        return AlreadyComplete;
      }
    }

    /** `reset()`. */
    method Reset()
      modifies calibration
      ensures calibration.State() == Cleared()
    {
      calibration.Reset();
    }
  }
}
