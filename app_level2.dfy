/**
 * The state machine of the standalone FOLLOW application
 * (`Level2App` in `CompVis/main_level2.py`): two clicks place the points A
 * and B of the target path, SPACE starts a session, its end shows the
 * result, and SPACE again retries. The target path object is created with
 * the first camera frame and keeps the points it was last given.
 *
 * The transitions are pure functions on a value, about which the lemmas
 * speak; the class updates its fields and its target path exactly as those
 * functions say.
 */
module AppLevel2 {
  import opened Wrappers
  import opened Geometry
  import opened TargetPaths
  import Game
  import AppMain

  datatype Level2State = CalibrateA | CalibrateB | Ready | Running | Result

  /**
   * The fields the state machine reads and writes: its state, the two
   * calibration points, the trackbar toggle, and the points held by the
   * target path.
   */
  datatype Level2View = Level2View(
    state: Level2State,
    pointA: Option<Pixel>,
    pointB: Option<Pixel>,
    trackbarsVisible: bool,
    pathA: Option<Pixel>,
    pathB: Option<Pixel>)

  /** The outcome of a key that returns: the new state, whether to keep running, and the effect. */
  datatype Level2Outcome = Level2Outcome(view: Level2View, keepRunning: bool, effect: AppMain.Effect)

  /** What a key press does as written: it returns, or the call it makes raises. */
  datatype KeyResult = Handled(outcome: Level2Outcome) | Raised(error: string)

  /** The state after `__init__`: waiting for A, with a target path that has no points. */
  function InitialLevel2(): Level2View {
    Level2View(CalibrateA, None, None, false, None, None)
  }

  /** Both calibration points are set. */
  predicate PointsSet(v: Level2View) {
    v.pointA.Some? && v.pointB.Some?
  }

  /**
   * What the application keeps true between steps: B is asked for only once
   * A is set, and from the ready screen on both points are set and the
   * target path holds exactly them.
   */
  predicate Level2Invariant(v: Level2View) {
    && (v.state == CalibrateB ==> v.pointA.Some?)
    && (v.state in {Ready, Running, Result} ==>
          PointsSet(v) && v.pathA == v.pointA && v.pathB == v.pointB)
  }

  /** A left click on A's screen. */
  function PlaceA(v: Level2View, p: Pixel): Level2View {
    v.(pointA := Some(p), state := CalibrateB)
  }

  /** A left click on B's screen: both points go to the target path. */
  function PlaceB(v: Level2View, p: Pixel): Level2View {
    v.(pointB := Some(p), pathA := v.pointA, pathB := Some(p), state := Ready)
  }

  /** `_mouse_callback` for a left-button press at `p`; other screens ignore clicks. */
  function ClickStep(v: Level2View, p: Pixel): Level2View {
    if v.state == CalibrateA then PlaceA(v, p)
    else if v.state == CalibrateB then PlaceB(v, p)
    else v
  }

  /** 'c': forget both points (the target path keeps its own) and ask for A again. */
  function ResetPoints(v: Level2View): Level2View {
    v.(pointA := None, pointB := None, state := CalibrateA)
  }

  /** 't'. */
  function ToggleTrackbars(v: Level2View): Level2View {
    v.(trackbarsVisible := !v.trackbarsVisible)
  }

  /** SPACE on the ready screen, with the session started without arguments. */
  function PressSpaceReady(v: Level2View): (Level2View, AppMain.Effect) {
    if PointsSet(v) then (v.(state := Running), AppMain.StartFollowSession) else (v, AppMain.NoEffect)
  }

  /** SPACE on the result screen: ready again when both points are set, otherwise back to A. */
  function PressSpaceResult(v: Level2View): Level2View {
    v.(state := if PointsSet(v) then Ready else CalibrateA)
  }

  /** `_handle_keyboard(key)` in its branch order, with the session start corrected. */
  function KeyStep(v: Level2View, key: int): Level2Outcome {
    var c := AppMain.KeyChar(key);
    if c == Some(Game.KeyQ) then Level2Outcome(v, false, AppMain.NoEffect)
    else if c == Some(Game.KeyT) then
      Level2Outcome(ToggleTrackbars(v), true, if !v.trackbarsVisible then AppMain.CreateTrackbars else AppMain.NoEffect)
    else if c == Some(AppMain.KeyC) then Level2Outcome(ResetPoints(v), true, AppMain.NoEffect)
    else if c == Some(Game.KeySpace) && v.state == Ready then
      var (next, effect) := PressSpaceReady(v);
      Level2Outcome(next, true, effect)
    else if c == Some(Game.KeySpace) && v.state == Result then
      Level2Outcome(PressSpaceResult(v), true, AppMain.NoEffect)
    else Level2Outcome(v, true, AppMain.NoEffect)
  }

  /**
   * `_handle_keyboard(key)` as written: SPACE on the ready screen with both
   * points set passes them to `start_session`, which takes no arguments, so
   * the call raises a `TypeError` before the state changes. Every other key
   * behaves as in `KeyStep`.
   */
  function KeyStepAsWritten(v: Level2View, key: int): (r: KeyResult)
    ensures r.Raised? <==> AppMain.KeyChar(key) == Some(Game.KeySpace) && v.state == Ready && PointsSet(v)
    ensures r.Handled? ==> r.outcome == KeyStep(v, key)
  {
    if AppMain.KeyChar(key) == Some(Game.KeySpace) && v.state == Ready && PointsSet(v) then
      Raised("TypeError: start_session() takes 1 positional argument but 3 were given")
    else Handled(KeyStep(v, key))
  }

  /** The RUNNING to RESULT switch of the drawing code, given whether the session is still active. */
  function FinishCheck(v: Level2View, active: bool): (Level2View, AppMain.Effect) {
    if v.state == Running && !active then (v.(state := Result), AppMain.SaveResult) else (v, AppMain.NoEffect)
  }

  lemma InitialLevel2Valid()
    ensures Level2Invariant(InitialLevel2()) && !PointsSet(InitialLevel2())
  {
  }

  /** Clicks, keys and the end of a session keep the invariant. */
  lemma StepsKeepInvariant(v: Level2View, p: Pixel, key: int, active: bool)
    requires Level2Invariant(v)
    ensures Level2Invariant(ClickStep(v, p))
    ensures Level2Invariant(KeyStep(v, key).view)
    ensures Level2Invariant(FinishCheck(v, active).0)
  {
  }

  /**
   * The first click on A's screen sets A and asks for B; the click on B's
   * screen sets B, gives both to the target path and makes the application
   * ready; clicks on the other screens change nothing.
   */
  lemma ClicksCalibrate(v: Level2View, p: Pixel)
    ensures v.state == CalibrateA ==>
      ClickStep(v, p).pointA == Some(p) && ClickStep(v, p).state == CalibrateB
      && ClickStep(v, p).pointB == v.pointB
    ensures v.state == CalibrateB ==>
      var w := ClickStep(v, p);
      w.pointB == Some(p) && w.pointA == v.pointA && w.state == Ready
      && w.pathA == v.pointA && w.pathB == Some(p)
    ensures v.state in {Ready, Running, Result} ==> ClickStep(v, p) == v
  {
  }

  /** 'c' forgets both points and asks for A again from every screen; 'q' alone stops. */
  lemma ResetAndQuit(v: Level2View, key: int)
    ensures AppMain.KeyChar(key) == Some(AppMain.KeyC) ==>
      KeyStep(v, key).view.state == CalibrateA && !PointsSet(KeyStep(v, key).view)
    ensures !KeyStep(v, key).keepRunning <==> key != -1 && key % 256 == Game.KeyQ
  {
  }

  /**
   * A session starts only on SPACE from the ready screen with both points
   * set; SPACE on the result screen goes back to ready exactly when both
   * points are set.
   */
  lemma SpaceTransitions(v: Level2View, key: int)
    ensures KeyStep(v, key).effect == AppMain.StartFollowSession <==>
      AppMain.KeyChar(key) == Some(Game.KeySpace) && v.state == Ready && PointsSet(v)
    ensures v.state != Running && KeyStep(v, key).view.state == Running ==>
      KeyStep(v, key).effect == AppMain.StartFollowSession
    ensures AppMain.KeyChar(key) == Some(Game.KeySpace) && v.state == Result ==>
      (KeyStep(v, key).view.state == Ready <==> PointsSet(v))
      && (KeyStep(v, key).view.state == CalibrateA <==> !PointsSet(v))
  {
  }

  /** The points after two clicks from the start. */
  function Calibrated(a: Pixel, b: Pixel): Level2View {
    ClickStep(ClickStep(InitialLevel2(), a), b)
  }

  /** As written, SPACE after the two calibration clicks raises instead of starting the session. */
  lemma AsWrittenSpaceRaises(a: Pixel, b: Pixel)
    ensures Calibrated(a, b).state == Ready
    ensures KeyStepAsWritten(Calibrated(a, b), Game.KeySpace).Raised?
  {
    assert AppMain.KeyChar(Game.KeySpace) == Some(Game.KeySpace);
  }

  /** As written, no key that returns moves the application onto the running screen. */
  lemma AsWrittenNeverStarts(v: Level2View, key: int)
    requires v.state != Running
    ensures KeyStepAsWritten(v, key).Handled? ==> KeyStepAsWritten(v, key).outcome.view.state != Running
  {
    if KeyStepAsWritten(v, key).Handled? {
      SpaceTransitions(v, key);
    }
  }

  /** With the session started without arguments, SPACE after the two clicks starts it. */
  lemma CorrectedStarts(a: Pixel, b: Pixel)
    ensures KeyStep(Calibrated(a, b), Game.KeySpace) ==
      Level2Outcome(Calibrated(a, b).(state := Running), true, AppMain.StartFollowSession)
    ensures Calibrated(a, b).pathA == Some(a) && Calibrated(a, b).pathB == Some(b)
  {
  }

  /** `Level2App`, with the target path created from the first camera frame. */
  class Level2App {
    var state: Level2State
    var pointA: Option<Pixel>
    var pointB: Option<Pixel>
    var trackbarsVisible: bool
    const targetPath: TargetPath

    function State(): Level2View
      reads this, targetPath
    {
      Level2View(state, pointA, pointB, trackbarsVisible, targetPath.pointA, targetPath.pointB)
    }

    constructor(frameWidth: int, frameHeight: int, sqrt: real -> real)
      ensures State() == InitialLevel2() && fresh(targetPath)
      ensures targetPath.frameWidth == frameWidth && targetPath.frameHeight == frameHeight
    {
      state, pointA, pointB, trackbarsVisible := CalibrateA, None, None, false;
      targetPath := new TargetPath(frameWidth, frameHeight, sqrt);
    }

    /** `_mouse_callback` for a left-button press at `(x, y)`. */
    method MouseCallback(x: int, y: int)
      requires Level2Invariant(State())
      modifies this, targetPath
      ensures State() == ClickStep(old(State()), Pixel(x, y))
    {
      if state == CalibrateA {
        pointA := Some(Pixel(x, y));
        state := CalibrateB;
      } else if state == CalibrateB {
        pointB := Some(Pixel(x, y));
        targetPath.SetPoints(pointA.value, Pixel(x, y));
        state := Ready;
      }
    }

    /** `_handle_keyboard(key)`, with the session started without arguments. */
    method HandleKeyboard(key: int) returns (keepRunning: bool, effect: AppMain.Effect)
      modifies this
      ensures Level2Outcome(State(), keepRunning, effect) == KeyStep(old(State()), key)
    {
      var c := AppMain.KeyChar(key);
      keepRunning, effect := true, AppMain.NoEffect;
      if c == Some(Game.KeyQ) {
        keepRunning := false;
      } else if c == Some(Game.KeyT) {
        trackbarsVisible := !trackbarsVisible;
        if trackbarsVisible {
          effect := AppMain.CreateTrackbars;
        }
      } else if c == Some(AppMain.KeyC) {
        pointA, pointB, state := None, None, CalibrateA;
      } else if c == Some(Game.KeySpace) && state == Ready {
        if pointA.Some? && pointB.Some? {
          state := Running;
          effect := AppMain.StartFollowSession;
        }
      } else if c == Some(Game.KeySpace) && state == Result {
        state := if pointA.Some? && pointB.Some? then Ready else CalibrateA;
      }
    }

    /** The RUNNING to RESULT switch, given whether the session is still active. */
    method CheckSessionEnd(active: bool) returns (effect: AppMain.Effect)
      modifies this
      ensures (State(), effect) == FinishCheck(old(State()), active)
    {
      effect := AppMain.NoEffect;
      if state == Running && !active {
        state := Result;
        effect := AppMain.SaveResult;
      }
    }
  }
}
