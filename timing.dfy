/**
 * The session timers shared by the HOLD and FOLLOW session managers. The
 * wall clock is the parameter `now`.
 */
module Timing {
  import opened Wrappers
  import opened Numeric

  /** `get_elapsed_time`: seconds since the start, 0.0 before any start. */
  function ElapsedSince(start: Option<real>, now: real): (e: real)
    ensures start.None? ==> e == 0.0
    ensures start.Some? ==> start.value + e == now
  {
    match start
    case None => 0.0
    case Some(t) => now - t
  }

  /**
   * `get_time_remaining`: 0.0 when the session is inactive, otherwise what is
   * left of the duration, never negative.
   */
  function Remaining(isActive: bool, duration: real, elapsed: real): (r: real)
    ensures 0.0 <= r
    ensures !isActive ==> r == 0.0
    ensures isActive && elapsed <= duration ==> r + elapsed == duration
    ensures isActive && duration <= elapsed ==> r == 0.0
  {
    if !isActive then 0.0 else MaxReal(0.0, duration - elapsed)
  }
}
