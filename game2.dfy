/**
 * The stand-alone A/B game (`backend/app/compvis/game2.py`) apart from its
 * metrics: the two A/B targets, the click-count circle calibration, the
 * metronome's BPM setting, and the main loop's session state machine driven
 * by key presses and the session timer.
 *
 * The loop's state is a value `GameState` with pure transitions `KeyStep`
 * and `TimerStep`; the class `GameLoop` holds the same variables as fields
 * and updates them in place exactly as those functions say. What the loop
 * does to other objects (resetting metrics, starting or stopping the
 * metronome, saving results, leaving the loop) is returned as an `Effect`.
 */
module Game {
  import opened Wrappers
  import opened Numeric
  import opened Geometry

  /** Constants of the `CONFIG` dictionary that the modelled code reads. */
  const HoldDuration: real := 10.0
  const FollowDuration: real := 30.0
  const DefaultCircleRadius: real := 80.0
  const DefaultBpm: int := 60
  const TargetSize: int := 60
  const TargetMargin: int := 80

  /** The BPM range of `set_bpm` and of the arrow keys, and the arrow-key step. */
  const MinBpm: int := 20
  const MaxBpm: int := 200
  const BpmStep: int := 5

  // ---------------------------------------------------------------------
  // Metronome
  // ---------------------------------------------------------------------

  /** `max(20, min(200, bpm))`. */
  function ClampBpm(bpm: int): (r: int)
    ensures MinBpm <= r <= MaxBpm
    ensures MinBpm <= bpm <= MaxBpm ==> r == bpm
    ensures bpm < MinBpm ==> r == MinBpm
    ensures bpm > MaxBpm ==> r == MaxBpm
  {
    Max(MinBpm, Min(MaxBpm, bpm))
  }

  /** The part of `Metronome` that is not threading or sound: its BPM. */
  class Metronome {
    var bpm: int

    /** `Metronome(bpm)` stores the BPM it is given without clamping it. */
    constructor(bpm: int)
      ensures this.bpm == bpm
    {
      this.bpm := bpm;
    }

    /** `set_bpm(bpm)`. */
    method SetBpm(bpm: int)
      modifies this
      ensures this.bpm == ClampBpm(bpm)
    {
      this.bpm := Max(MinBpm, Min(MaxBpm, bpm));
    }
  }

  // ---------------------------------------------------------------------
  // A/B targets
  // ---------------------------------------------------------------------

  datatype TargetName = A | B

  /** `switch_target`: A becomes B and B becomes A. */
  function Other(t: TargetName): (o: TargetName)
    ensures o != t
  {
    if t == A then B else A
  }

  /** Target A: a margin and half a target in from the left edge, half way down. */
  function TargetACentre(frameHeight: int): Pixel {
    Pixel(TargetMargin + TargetSize / 2, frameHeight / 2)
  }

  /** Target B: a margin and half a target in from the right edge, half way down. */
  function TargetBCentre(frameWidth: int, frameHeight: int): Pixel {
    Pixel(frameWidth - TargetMargin - TargetSize / 2, frameHeight / 2)
  }

  /** The two targets sit on one row, mirrored about the middle of the frame. */
  lemma TargetsMirrored(frameWidth: int, frameHeight: int)
    ensures TargetACentre(frameHeight).y == TargetBCentre(frameWidth, frameHeight).y == frameHeight / 2
    ensures TargetACentre(frameHeight).x + TargetBCentre(frameWidth, frameHeight).x == frameWidth
    ensures TargetACentre(frameHeight).x == 110
  {
  }

  /**
   * When the targets are apart (any frame width but 220), every point of the
   * row through both is on the A-B path: its deviation is 0.
   */
  lemma RowHasNoDeviation(frameWidth: int, frameHeight: int, x: real, sqrt: real -> real)
    requires IsSqrt(sqrt) && frameWidth != 2 * (TargetMargin + TargetSize / 2)
    ensures PointToLineDistance(Point(x, (frameHeight / 2) as real),
      ToPoint(TargetACentre(frameHeight)), ToPoint(TargetBCentre(frameWidth, frameHeight)), sqrt) == 0.0
  {
    var a := ToPoint(TargetACentre(frameHeight));
    var b := ToPoint(TargetBCentre(frameWidth, frameHeight));
    assert a.y == b.y == (frameHeight / 2) as real && a.x != b.x;
    var t := (x - a.x) / (b.x - a.x);
    assert t * (b.x - a.x) == x - a.x;
    assert Point(x, (frameHeight / 2) as real) == Point(a.x + t * (b.x - a.x), a.y + t * (b.y - a.y));
    PointOnLineHasZeroDistance(a, b, t, sqrt);
  }

  /** `ABTargets`: the two target squares and which one is current. */
  class ABTargets {
    const targetA: Pixel
    const targetB: Pixel
    const size: int
    const sqrt: real -> real
    var currentTarget: TargetName

    constructor(frameWidth: int, frameHeight: int, sqrt: real -> real)
      ensures targetA == TargetACentre(frameHeight) && targetB == TargetBCentre(frameWidth, frameHeight)
      ensures size == TargetSize && currentTarget == A && this.sqrt == sqrt
    {
      targetA := Pixel(TargetMargin + TargetSize / 2, frameHeight / 2);
      targetB := Pixel(frameWidth - TargetMargin - TargetSize / 2, frameHeight / 2);
      size := TargetSize;
      this.sqrt := sqrt;
      currentTarget := A;
    }

    /** `switch_target()`. */
    method SwitchTarget()
      modifies this
      ensures currentTarget == Other(old(currentTarget))
    {
      currentTarget := if currentTarget == A then B else A;
    }

    /** `is_in_target(position, target)`: the inclusive square test around that target. */
    function IsInTarget(position: Point, target: TargetName): (inside: bool)
      reads this
      ensures var c := if target == A then targetA else targetB;
        inside <==> (Abs(position.x - c.x as real) <= (size / 2) as real
                     && Abs(position.y - c.y as real) <= (size / 2) as real)
    {
      PointInRect(position, if target == A then targetA else targetB, size)
    }

    /**
     * `get_path_deviation(position)`: distance to the line through both
     * targets, never more than the distance to target A.
     */
    function PathDeviation(position: Point): (d: real)
      requires IsSqrt(sqrt)
      reads this
      ensures 0.0 <= d <= Distance(position, ToPoint(targetA), sqrt)
      ensures targetA == targetB ==> d == Distance(position, ToPoint(targetA), sqrt)
    {
      PointToLineAtMostDistanceToStart(position, ToPoint(targetA), ToPoint(targetB), sqrt);
      PointToLineDistance(position, ToPoint(targetA), ToPoint(targetB), sqrt)
    }
  }

  // ---------------------------------------------------------------------
  // Click-count calibration
  // ---------------------------------------------------------------------

  /** The fields of game2's `CalibrationState`. */
  datatype ClickCalibration = ClickCalibration(center: Option<Pixel>, radius: real, clickCount: nat)

  /** After `__init__` or `reset()`: no centre, the default radius, no clicks. */
  function FreshCalibration(): ClickCalibration {
    ClickCalibration(None, DefaultCircleRadius, 0)
  }

  /** The click count says how far calibration has gone: 0 without centre, at most 2. */
  predicate CountMatches(c: ClickCalibration) {
    c.clickCount <= 2 && (c.clickCount == 0 <==> c.center.None?)
  }

  /** `handle_click(x, y)`: centre on the first click, radius on the second, then nothing. */
  function CountedClick(c: ClickCalibration, p: Pixel, sqrt: real -> real): ClickCalibration
    requires IsSqrt(sqrt)
  {
    if c.clickCount == 0 then c.(center := Some(p), clickCount := 1)
    else if c.clickCount == 1 && c.center.Some? then
      c.(radius := Distance(ToPoint(c.center.value), ToPoint(p), sqrt), clickCount := 2)
    else c
  }

  /** Clicks keep the click count in step with the centre. */
  lemma CountedClickKeepsCount(c: ClickCalibration, p: Pixel, sqrt: real -> real)
    requires IsSqrt(sqrt) && CountMatches(c)
    ensures CountMatches(CountedClick(c, p, sqrt))
    ensures CountedClick(c, p, sqrt).clickCount == Min(c.clickCount + 1, 2)
  {
  }

  /**
   * From a fresh state the first click sets the centre and keeps the default
   * radius, the second sets the radius to the distance between the two
   * clicks, and every later click changes nothing.
   */
  lemma ClicksCalibrate(p: Pixel, q: Pixel, r: Pixel, sqrt: real -> real)
    requires IsSqrt(sqrt)
    ensures CountedClick(FreshCalibration(), p, sqrt) == ClickCalibration(Some(p), DefaultCircleRadius, 1)
    ensures CountedClick(CountedClick(FreshCalibration(), p, sqrt), q, sqrt)
         == ClickCalibration(Some(p), Distance(ToPoint(p), ToPoint(q), sqrt), 2)
    ensures var done := CountedClick(CountedClick(FreshCalibration(), p, sqrt), q, sqrt);
      CountedClick(done, r, sqrt) == done
  {
  }

  /** Once two clicks are counted, clicking changes nothing. */
  lemma CompleteIgnoresClicks(c: ClickCalibration, p: Pixel, sqrt: real -> real)
    requires IsSqrt(sqrt) && c.clickCount >= 2
    ensures CountedClick(c, p, sqrt) == c
  {
  }

  /** game2's `CalibrationState`. */
  class GameCalibration {
    const sqrt: real -> real
    var center: Option<Pixel>
    var radius: real
    var clickCount: nat

    function State(): ClickCalibration
      reads this
    {
      ClickCalibration(center, radius, clickCount)
    }

    constructor(sqrt: real -> real)
      ensures this.sqrt == sqrt && State() == FreshCalibration()
    {
      this.sqrt := sqrt;
      center, radius, clickCount := None, DefaultCircleRadius, 0;
    }

    /** `reset()`. */
    method Reset()
      modifies this
      ensures State() == FreshCalibration()
    {
      center, radius, clickCount := None, DefaultCircleRadius, 0;
    }

    /** `handle_click(x, y)`. */
    method HandleClick(x: int, y: int)
      requires IsSqrt(sqrt)
      modifies this
      ensures State() == CountedClick(old(State()), Pixel(x, y), sqrt)
    {
      if clickCount == 0 {
        center := Some(Pixel(x, y));
        clickCount := 1;
      } else if clickCount == 1 {
        if center.Some? {
          radius := Distance(ToPoint(center.value), ToPoint(Pixel(x, y)), sqrt);
          clickCount := 2;
        }
      }
    }

    /**
     * The module's `mouse_callback` for a left-button press: it calibrates
     * only in HOLD mode and only while no session is running, judged by the
     * mode and state last handed to the callback.
     */
    method MouseClick(x: int, y: int, mode: AppMode, session: SessionState)
      requires IsSqrt(sqrt)
      modifies this
      ensures State() == if mode == Hold && session != Running
        then CountedClick(old(State()), Pixel(x, y), sqrt) else old(State())
    {
      if mode == Hold && session != Running {
        HandleClick(x, y);
      }
    }
  }

  // ---------------------------------------------------------------------
  // The main loop's session state machine
  // ---------------------------------------------------------------------

  datatype AppMode = Hold | Follow
  datatype SessionState = Idle | Running | Complete

  /**
   * The loop variables of `main`: mode, session state, the BPM chosen with
   * the arrow keys, the session start time, whether results are on show
   * (`last_results` is a non-empty summary or `None`), and the debug views.
   */
  datatype GameState = GameState(
    mode: AppMode,
    session: SessionState,
    bpm: int,
    startTime: real,
    hasResults: bool,
    showTrackbars: bool,
    trackbarsCreated: bool,
    showMask: bool)

  /** What a step of the loop does outside its own variables. */
  datatype Effect =
    | NoEffect
    | ResetHoldMetrics
    | StartFollow(bpm: int)
    | StopMetronome
    | SaveHoldResults
    /** A FOLLOW session ran out: stop the metronome, then save the results with the BPM. */
    | StopAndSaveFollowResults(bpm: int)
    | Quit

  /** The loop variables before the first frame. */
  function InitialGame(): GameState {
    GameState(Hold, Idle, DefaultBpm, 0.0, false, false, false, false)
  }

  /** What every reachable state satisfies. */
  predicate GameInvariant(g: GameState) {
    && MinBpm <= g.bpm <= MaxBpm
    && (g.hasResults <==> g.session == Complete)
    && g.trackbarsCreated == g.showTrackbars
  }

  function SessionDuration(mode: AppMode): real {
    if mode == Hold then HoldDuration else FollowDuration
  }

  /** `cv2.waitKey(1) & 0xFF`: the low byte, also for the -1 of "no key". */
  function KeyCode(raw: int): (key: int)
    ensures 0 <= key < 256
    ensures 0 <= raw < 256 ==> key == raw
  {
    raw % 256
  }

  /** `ord` of the characters the loop tests. */
  const KeyQ: int := 113
  const KeyUpperQ: int := 81
  const KeyOne: int := 49
  const KeyTwo: int := 50
  const KeySpace: int := 32
  const KeyT: int := 116
  const KeyUpperT: int := 84
  const KeyM: int := 109
  const KeyUpperM: int := 77

  /** The arrow-key codes the loop tests: 82 or 0 for UP, 84 or 1 for DOWN. */
  predicate IsUpKey(key: int) { key == 82 || key == 0 }
  predicate IsDownKey(key: int) { key == 84 || key == 1 }

  /** The SPACE key: start from IDLE, abort a running session, leave the results. */
  function SpaceStep(g: GameState, now: real): (GameState, Effect) {
    match g.session
    case Idle =>
      (g.(session := Running, startTime := now, hasResults := false),
       if g.mode == Hold then ResetHoldMetrics else StartFollow(g.bpm))
    case Running => (g.(session := Idle), StopMetronome)
    case Complete => (g.(session := Idle, hasResults := false), NoEffect)
  }

  /** The 't' key: toggle the trackbar window, creating or destroying it. */
  function ToggleTrackbars(g: GameState): GameState {
    var show := !g.showTrackbars;
    if show && !g.trackbarsCreated then g.(showTrackbars := show, trackbarsCreated := true)
    else if !show then g.(showTrackbars := show, trackbarsCreated := false)
    else g.(showTrackbars := show)
  }

  /** One key press, checked in the loop's order of branches. */
  function KeyStep(g: GameState, key: int, now: real): (GameState, Effect) {
    if key == KeyQ || key == KeyUpperQ then (g, Quit)
    else if key == KeyOne then
      (if g.session != Running then g.(mode := Hold, session := Idle, hasResults := false) else g, NoEffect)
    else if key == KeyTwo then
      (if g.session != Running then g.(mode := Follow, session := Idle, hasResults := false) else g, NoEffect)
    else if key == KeySpace then SpaceStep(g, now)
    else if IsUpKey(key) then
      (if g.session != Running then g.(bpm := Min(MaxBpm, g.bpm + BpmStep)) else g, NoEffect)
    else if IsDownKey(key) then
      (if g.session != Running then g.(bpm := Max(MinBpm, g.bpm - BpmStep)) else g, NoEffect)
    else if key == KeyT || key == KeyUpperT then (ToggleTrackbars(g), NoEffect)
    else if key == KeyM || key == KeyUpperM then (g.(showMask := !g.showMask), NoEffect)
    else (g, NoEffect)
  }

  /** The timer check at the top of each frame: a running session ends once its duration has passed. */
  function TimerStep(g: GameState, now: real): (GameState, Effect) {
    if g.session == Running && now - g.startTime >= SessionDuration(g.mode) then
      (g.(session := Complete, hasResults := true),
       if g.mode == Hold then SaveHoldResults else StopAndSaveFollowResults(g.bpm))
    else (g, NoEffect)
  }

  /** The initial state satisfies the invariant. */
  lemma InitialGameValid()
    ensures GameInvariant(InitialGame())
  {
  }

  /** Key presses and the timer keep the invariant: the BPM stays in [20, 200], results show exactly when complete. */
  lemma StepsKeepInvariant(g: GameState, key: int, now: real)
    requires GameInvariant(g)
    ensures GameInvariant(KeyStep(g, key, now).0)
    ensures GameInvariant(TimerStep(g, now).0)
  {
  }

  /** Only 'q' and 'Q' leave the loop. */
  lemma QuitOnlyOnQ(g: GameState, key: int, now: real)
    ensures KeyStep(g, key, now).1 == Quit <==> key == KeyQ || key == KeyUpperQ
  {
  }

  /** While a session runs, the mode keys and the BPM keys change nothing. */
  lemma RunningIgnoresModeAndBpmKeys(g: GameState, key: int, now: real)
    requires g.session == Running
    requires key == KeyOne || key == KeyTwo || IsUpKey(key) || IsDownKey(key)
    ensures KeyStep(g, key, now) == (g, NoEffect)
  {
  }

  /** Outside a session '1' and '2' pick the mode, go to IDLE and drop the results. */
  lemma ModeKeys(g: GameState, now: real)
    requires g.session != Running
    ensures KeyStep(g, KeyOne, now).0 == g.(mode := Hold, session := Idle, hasResults := false)
    ensures KeyStep(g, KeyTwo, now).0 == g.(mode := Follow, session := Idle, hasResults := false)
  {
  }

  /**
   * SPACE starts a session from IDLE (resetting HOLD's metrics, or starting
   * FOLLOW's metronome at the chosen BPM), stops a running one, and leaves
   * the results screen for IDLE.
   */
  lemma SpaceTransitions(g: GameState, now: real)
    ensures g.session == Idle ==>
      (KeyStep(g, KeySpace, now).0.session == Running && KeyStep(g, KeySpace, now).0.startTime == now
       && KeyStep(g, KeySpace, now).1 == (if g.mode == Hold then ResetHoldMetrics else StartFollow(g.bpm)))
    ensures g.session == Running ==> KeyStep(g, KeySpace, now) == (g.(session := Idle), StopMetronome)
    ensures g.session == Complete ==> KeyStep(g, KeySpace, now).0 == g.(session := Idle, hasResults := false)
  {
  }

  /** The metronome started by SPACE keeps the chosen BPM, since it is already in range. */
  lemma StartedMetronomeKeepsBpm(g: GameState, now: real)
    requires GameInvariant(g) && g.session == Idle && g.mode == Follow
    ensures KeyStep(g, KeySpace, now).1 == StartFollow(g.bpm) && ClampBpm(g.bpm) == g.bpm
  {
  }

  /** Outside a session the arrow keys move the BPM by 5 within [20, 200]. */
  lemma BpmKeys(g: GameState, key: int, now: real)
    requires g.session != Running
    ensures IsUpKey(key) ==> KeyStep(g, key, now).0.bpm == Min(MaxBpm, g.bpm + BpmStep)
    ensures IsDownKey(key) ==> KeyStep(g, key, now).0.bpm == Max(MinBpm, g.bpm - BpmStep)
  {
  }

  /**
   * Key 84 is both `ord('T')` and the DOWN arrow; the DOWN branch is checked
   * first, so 'T' lowers the BPM and never toggles the trackbars, while 't'
   * toggles them and leaves the BPM alone.
   */
  lemma UpperTIsDown(g: GameState, now: real)
    ensures KeyStep(g, KeyUpperT, now) == KeyStep(g, 1, now)
    ensures KeyStep(g, KeyUpperT, now).0.showTrackbars == g.showTrackbars
    ensures KeyStep(g, KeyT, now).0 == ToggleTrackbars(g)
    ensures KeyStep(g, KeyT, now).0.showTrackbars != g.showTrackbars
  {
  }

  /** "No key" (-1, whose low byte is 255) changes nothing. */
  lemma NoKeyChangesNothing(g: GameState, now: real)
    ensures KeyCode(-1) == 255
    ensures KeyStep(g, KeyCode(-1), now) == (g, NoEffect)
  {
  }

  /** A running session completes exactly when its duration has passed, and only then are results saved. */
  lemma TimerCompletes(g: GameState, now: real)
    requires g.session == Running
    ensures TimerStep(g, now).0.session == Complete <==> now - g.startTime >= SessionDuration(g.mode)
    ensures TimerStep(g, now).1 != NoEffect <==> now - g.startTime >= SessionDuration(g.mode)
    ensures TimerStep(g, now).1.StopAndSaveFollowResults? <==> g.mode == Follow && now - g.startTime >= SessionDuration(g.mode)
    ensures TimerStep(g, now).1.StopAndSaveFollowResults? ==> TimerStep(g, now).1.bpm == g.bpm
  {
  }

  /** Outside a running session the timer does nothing. */
  lemma TimerIdle(g: GameState, now: real)
    requires g.session != Running
    ensures TimerStep(g, now) == (g, NoEffect)
  {
  }

  /** The loop variables of `main`, updated in place. */
  class GameLoop {
    var mode: AppMode
    var session: SessionState
    var bpm: int
    var startTime: real
    var hasResults: bool
    var showTrackbars: bool
    var trackbarsCreated: bool
    var showMask: bool

    function State(): GameState
      reads this
    {
      GameState(mode, session, bpm, startTime, hasResults, showTrackbars, trackbarsCreated, showMask)
    }

    constructor()
      ensures State() == InitialGame()
    {
      mode, session, bpm, startTime := Hold, Idle, DefaultBpm, 0.0;
      hasResults, showTrackbars, trackbarsCreated, showMask := false, false, false, false;
    }

    /** The branch of SPACE. */
    method PressSpace(now: real) returns (effect: Effect)
      modifies this
      ensures (State(), effect) == SpaceStep(old(State()), now)
    {
      if session == Idle {
        session, startTime, hasResults := Running, now, false;
        effect := if mode == Hold then ResetHoldMetrics else StartFollow(bpm);
      } else if session == Running {
        session := Idle;
        effect := StopMetronome;
      } else {
        session, hasResults := Idle, false;
        effect := NoEffect;
      }
    }

    /** The branch of 't' and 'T'. */
    method PressTrackbarKey()
      modifies this
      ensures State() == ToggleTrackbars(old(State()))
    {
      showTrackbars := !showTrackbars;
      if showTrackbars && !trackbarsCreated {
        trackbarsCreated := true;
      } else if !showTrackbars {
        trackbarsCreated := false;
      }
    }

    /** The key handling at the end of each frame, for the raw `waitKey` result. */
    method HandleKey(raw: int, now: real) returns (effect: Effect)
      modifies this
      ensures (State(), effect) == KeyStep(old(State()), KeyCode(raw), now)
    {
      var key := raw % 256;
      effect := NoEffect;
      if key == KeyQ || key == KeyUpperQ {
        effect := Quit;
      } else if key == KeyOne {
        if session != Running {
          mode, session, hasResults := Hold, Idle, false;
        }
      } else if key == KeyTwo {
        if session != Running {
          mode, session, hasResults := Follow, Idle, false;
        }
      } else if key == KeySpace {
        effect := PressSpace(now);
      } else if key == 82 || key == 0 {
        if session != Running {
          bpm := Min(MaxBpm, bpm + BpmStep);
        }
      } else if key == 84 || key == 1 {
        if session != Running {
          bpm := Max(MinBpm, bpm - BpmStep);
        }
      } else if key == KeyT || key == KeyUpperT {
        PressTrackbarKey();
      } else if key == KeyM || key == KeyUpperM {
        showMask := !showMask;
      }
    }

    /** The timer check of each frame. */
    method CheckTimer(now: real) returns (effect: Effect)
      modifies this
      ensures (State(), effect) == TimerStep(old(State()), now)
      ensures effect.StopAndSaveFollowResults? <==> old(session) == Running && old(mode) == Follow && now - old(startTime) >= SessionDuration(Follow)
    {
      effect := NoEffect;
      if session == Running && now - startTime >= SessionDuration(mode) {
        session, hasResults := Complete, true;
        effect := if mode == Hold then SaveHoldResults else StopAndSaveFollowResults(bpm);
      }
    }
  }
}
