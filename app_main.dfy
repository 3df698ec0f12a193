/**
 * The screen state machine of the desktop application
 * (`SteadyScriptApp` in `CompVis/main.py`): a mode (HOLD or FOLLOW), a
 * screen state, the HOLD calibration, the HSV trackbar toggle and the size
 * of the FOLLOW target path. Keys, the per-frame calibration check and the
 * end of a running session move it between states; starting a session,
 * showing the trackbars and saving a result are calls on other objects and
 * are returned as effects.
 *
 * As elsewhere in this model, the transitions are first pure functions on
 * a value, about which the lemmas speak; the class then updates its fields
 * exactly as those functions say.
 */
module AppMain {
  import opened Wrappers
  import opened Geometry
  import opened Calibration
  import Game

  datatype Mode = Hold | Follow

  datatype AppState = Menu | CalibrateCenter | CalibrateRadius | Ready | Running | Result

  /** What the application asks of the objects it drives after a step. */
  datatype Effect =
    | NoEffect
    | StartHoldSession
    | StartFollowSession
    | CreateTrackbars
    | SaveResult

  /** The fields of the application that its state machine reads and writes. */
  datatype AppView = AppView(
    mode: Mode,
    state: AppState,
    calibration: CalibrationData,
    trackbarsVisible: bool,
    targetPathSize: Option<(int, int)>)

  /** The outcome of a key: the new state, whether to keep running, and the effect. */
  datatype KeyOutcome = KeyOutcome(view: AppView, keepRunning: bool, effect: Effect)

  const KeyC: int := 99

  /** `chr(key & 0xFF) if key != -1 else None`, as a code point. */
  function KeyChar(key: int): (c: Option<int>)
    ensures c.None? <==> key == -1
    ensures c.Some? ==> 0 <= c.value < 256 && (key - c.value) % 256 == 0
  {
    if key == -1 then None else Some(key % 256)
  }

  /** The state after `__init__`: HOLD mode on the menu, nothing calibrated. */
  function InitialApp(): AppView {
    AppView(Hold, Menu, Cleared(), false, None)
  }

  /**
   * What the application keeps true between steps: FOLLOW mode never sits
   * on the menu or a calibration screen, and a HOLD session only runs with
   * a complete calibration.
   */
  predicate AppInvariant(v: AppView) {
    && (v.mode == Follow ==> v.state in {Ready, Running, Result})
    && (v.mode == Hold && v.state == Running ==> Complete(v.calibration))
  }

  /** The screen HOLD mode returns to: ready when calibrated, otherwise the centre click. */
  function HoldEntry(c: CalibrationData): AppState {
    if Complete(c) then Ready else CalibrateCenter
  }

  /** '1' outside a session. */
  function SelectHold(v: AppView): AppView {
    v.(mode := Hold, state := HoldEntry(v.calibration))
  }

  /** '2' outside a session. */
  function SelectFollow(v: AppView): AppView {
    v.(mode := Follow, state := Ready)
  }

  /** 'c' in HOLD mode. */
  function ResetCalibration(v: AppView): AppView {
    v.(calibration := Cleared(), state := CalibrateCenter)
  }

  /** 't'. */
  function ToggleTrackbars(v: AppView): AppView {
    v.(trackbarsVisible := !v.trackbarsVisible)
  }

  /** The target path is sized from a frame only when there is none yet and the frame was read. */
  function SizeTargetPath(current: Option<(int, int)>, frame: Option<(int, int)>): Option<(int, int)> {
    if current.None? && frame.Some? then frame else current
  }

  /** SPACE on the ready screen. */
  function PressSpaceReady(v: AppView, frame: Option<(int, int)>): (AppView, Effect) {
    if v.mode == Hold then
      if Complete(v.calibration) then (v.(state := Running), StartHoldSession) else (v, NoEffect)
    else
      (v.(targetPathSize := SizeTargetPath(v.targetPathSize, frame), state := Running), StartFollowSession)
  }

  /** SPACE on the result screen: retry. */
  function PressSpaceResult(v: AppView): AppView {
    v.(state := if v.mode == Hold then HoldEntry(v.calibration) else Ready)
  }

  /**
   * `_handle_keyboard(key)`, in its branch order. `frame` is the size of the
   * camera frame read when a FOLLOW session starts without a target path
   * (`None` when the read fails).
   */
  function KeyStep(v: AppView, key: int, frame: Option<(int, int)>): KeyOutcome {
    var c := KeyChar(key);
    if c == Some(Game.KeyQ) then KeyOutcome(v, false, NoEffect)
    else if c == Some(Game.KeyOne) then
      KeyOutcome(if v.state == Running then v else SelectHold(v), true, NoEffect)
    else if c == Some(Game.KeyTwo) then
      KeyOutcome(if v.state == Running then v else SelectFollow(v), true, NoEffect)
    else if c == Some(KeyC) then
      KeyOutcome(if v.mode == Hold then ResetCalibration(v) else v, true, NoEffect)
    else if c == Some(Game.KeyT) then
      KeyOutcome(ToggleTrackbars(v), true, if !v.trackbarsVisible then CreateTrackbars else NoEffect)
    else if c == Some(Game.KeySpace) && v.state == Ready then
      var (next, effect) := PressSpaceReady(v, frame);
      KeyOutcome(next, true, effect)
    else if c == Some(Game.KeySpace) && v.state == Result then
      KeyOutcome(PressSpaceResult(v), true, NoEffect)
    else KeyOutcome(v, true, NoEffect)
  }

  /** The screen HOLD mode shows for an incomplete calibration. */
  function CalibrationScreen(c: CalibrationData): AppState {
    if c.center.None? then CalibrateCenter else CalibrateRadius
  }

  /**
   * `_update_calibration_state()`, run at the start of every frame: in HOLD
   * mode an incomplete calibration shows the next click to make, and a
   * complete one moves the menu and calibration screens on to ready.
   */
  function CalibrationCheck(v: AppView): AppView {
    if v.mode != Hold then v
    else if !Complete(v.calibration) then v.(state := CalibrationScreen(v.calibration))
    else if v.state in {CalibrateCenter, CalibrateRadius, Menu} then v.(state := Ready)
    else v
  }

  /**
   * The drawing code's check of a running session: when the session of the
   * current mode is no longer active, the result screen is shown and the
   * result saved.
   */
  function FinishCheck(v: AppView, holdActive: bool, followActive: bool): (AppView, Effect) {
    if v.state == Running && ((v.mode == Hold && !holdActive) || (v.mode == Follow && !followActive)) then
      (v.(state := Result), SaveResult)
    else (v, NoEffect)
  }

  /** A left click, which the calibration handler receives in every state. */
  function ClickStep(v: AppView, p: Pixel, sqrt: real -> real): AppView
    requires IsSqrt(sqrt)
  {
    v.(calibration := Click(v.calibration, p, sqrt))
  }

  lemma InitialAppValid()
    ensures AppInvariant(InitialApp())
    ensures CalibrationCheck(InitialApp()).state == CalibrateCenter
  {
  }

  /** Every key keeps the application's invariant. */
  lemma KeysKeepInvariant(v: AppView, key: int, frame: Option<(int, int)>)
    requires AppInvariant(v)
    ensures AppInvariant(KeyStep(v, key, frame).view)
  {
  }

  /** The per-frame steps and clicks keep the application's invariant. */
  lemma FrameStepsKeepInvariant(v: AppView, p: Pixel, sqrt: real -> real, holdActive: bool, followActive: bool)
    requires AppInvariant(v) && IsSqrt(sqrt)
    ensures AppInvariant(CalibrationCheck(v))
    ensures AppInvariant(FinishCheck(v, holdActive, followActive).0)
    ensures AppInvariant(ClickStep(v, p, sqrt))
  {
    if Complete(v.calibration) {
      ClickWhenCompleteChangesNothing(v.calibration, p, sqrt);
    }
  }

  /** Only 'q' stops the application. */
  lemma QuitOnlyOnQ(v: AppView, key: int, frame: Option<(int, int)>)
    ensures !KeyStep(v, key, frame).keepRunning <==> key != -1 && key % 256 == Game.KeyQ
    ensures !KeyStep(v, key, frame).keepRunning ==> KeyStep(v, key, frame).view == v
  {
  }

  /**
   * '1' and '2' change nothing during a session; otherwise '1' selects HOLD
   * (ready only with a complete calibration) and '2' selects FOLLOW, ready at once.
   */
  lemma ModeKeys(v: AppView, key: int, frame: Option<(int, int)>)
    requires KeyChar(key) == Some(Game.KeyOne) || KeyChar(key) == Some(Game.KeyTwo)
    ensures v.state == Running ==> KeyStep(v, key, frame) == KeyOutcome(v, true, NoEffect)
    ensures v.state != Running && KeyChar(key) == Some(Game.KeyOne) ==>
      KeyStep(v, key, frame).view.mode == Hold
      && (KeyStep(v, key, frame).view.state == Ready <==> Complete(v.calibration))
      && (KeyStep(v, key, frame).view.state == CalibrateCenter <==> !Complete(v.calibration))
    ensures v.state != Running && KeyChar(key) == Some(Game.KeyTwo) ==>
      KeyStep(v, key, frame).view.mode == Follow && KeyStep(v, key, frame).view.state == Ready
    ensures KeyStep(v, key, frame).view.calibration == v.calibration
  {
  }

  /** 'c' clears the calibration and asks for the centre in HOLD mode, and does nothing in FOLLOW mode. */
  lemma ResetOnlyInHold(v: AppView, key: int, frame: Option<(int, int)>)
    requires KeyChar(key) == Some(KeyC)
    ensures v.mode == Hold ==>
      var next := KeyStep(v, key, frame).view;
      next.calibration == Cleared() && next.state == CalibrateCenter && next.mode == Hold
    ensures v.mode == Follow ==> KeyStep(v, key, frame).view == v
  {
  }

  /**
   * A session starts only from the ready screen on SPACE: a HOLD session
   * only with a complete calibration, a FOLLOW session always.
   */
  lemma SessionStartsOnlyWhenReady(v: AppView, key: int, frame: Option<(int, int)>)
    ensures KeyStep(v, key, frame).effect == StartHoldSession <==>
      KeyChar(key) == Some(Game.KeySpace) && v.state == Ready && v.mode == Hold && Complete(v.calibration)
    ensures KeyStep(v, key, frame).effect == StartFollowSession <==>
      KeyChar(key) == Some(Game.KeySpace) && v.state == Ready && v.mode == Follow
    ensures v.state != Running && KeyStep(v, key, frame).view.state == Running ==>
      KeyStep(v, key, frame).effect in {StartHoldSession, StartFollowSession}
  {
  }

  /** SPACE on the result screen goes back to ready, or to the centre click for an uncalibrated HOLD. */
  lemma RetryFromResult(v: AppView, key: int, frame: Option<(int, int)>)
    requires KeyChar(key) == Some(Game.KeySpace) && v.state == Result
    ensures var next := KeyStep(v, key, frame).view;
      next.mode == v.mode && next.calibration == v.calibration
      && (next.state == CalibrateCenter <==> v.mode == Hold && !Complete(v.calibration))
      && (next.state == Ready <==> v.mode == Follow || Complete(v.calibration))
  {
  }

  /** A FOLLOW target path, once sized, keeps its size. */
  lemma TargetPathSizedOnce(v: AppView, key: int, frame: Option<(int, int)>)
    requires v.targetPathSize.Some?
    ensures KeyStep(v, key, frame).view.targetPathSize == v.targetPathSize
  {
  }

  /**
   * After the per-frame check, HOLD mode shows the click still missing while
   * the calibration is incomplete, and never the menu or a calibration
   * screen once it is complete; FOLLOW mode is left alone. A second check
   * changes nothing.
   */
  lemma CalibrationCheckSettles(v: AppView)
    ensures v.mode == Follow ==> CalibrationCheck(v) == v
    ensures v.mode == Hold && !Complete(v.calibration) ==>
      (CalibrationCheck(v).state == CalibrateCenter <==> v.calibration.center.None?)
      && (CalibrationCheck(v).state == CalibrateRadius <==> v.calibration.center.Some?)
    ensures v.mode == Hold && Complete(v.calibration) ==>
      CalibrationCheck(v).state !in {Menu, CalibrateCenter, CalibrateRadius}
      && (v.state !in {Menu, CalibrateCenter, CalibrateRadius} ==> CalibrationCheck(v) == v)
    ensures CalibrationCheck(CalibrationCheck(v)) == CalibrationCheck(v)
  {
  }

  /** The result screen is reached only from a running session whose own manager has stopped. */
  lemma FinishOnlyWhenSessionStops(v: AppView, holdActive: bool, followActive: bool)
    ensures FinishCheck(v, holdActive, followActive).0.state == Result && v.state != Result ==>
      v.state == Running && (if v.mode == Hold then !holdActive else !followActive)
    ensures FinishCheck(v, holdActive, followActive).1 == SaveResult <==>
      FinishCheck(v, holdActive, followActive).0 != v
  {
  }

  /** `SteadyScriptApp`: the fields of the state machine, with the calibration it shares with its click handler. */
  class SteadyScriptApp {
    var mode: Mode
    var state: AppState
    var trackbarsVisible: bool
    var targetPathSize: Option<(int, int)>
    const calibration: CalibrationState

    function State(): AppView
      reads this, calibration
    {
      AppView(mode, state, calibration.State(), trackbarsVisible, targetPathSize)
    }

    constructor(calibration: CalibrationState)
      requires calibration.State() == Cleared()
      ensures this.calibration == calibration && State() == InitialApp()
    {
      this.calibration := calibration;
      mode, state, trackbarsVisible, targetPathSize := Hold, Menu, false, None;
    }

    /** SPACE on the ready screen. */
    method StartSession(frame: Option<(int, int)>) returns (effect: Effect)
      requires state == Ready
      modifies this
      ensures (State(), effect) == PressSpaceReady(old(State()), frame)
    {
      effect := NoEffect;
      if mode == Hold {
        if calibration.IsComplete() {
          state := Running;
          effect := StartHoldSession;
        }
      } else {
        if targetPathSize.None? && frame.Some? {
          targetPathSize := frame;
        }
        state := Running;
        effect := StartFollowSession;
      }
    }

    /** `_handle_keyboard(key)`. */
    method HandleKeyboard(key: int, frame: Option<(int, int)>) returns (keepRunning: bool, effect: Effect)
      modifies this, calibration
      ensures KeyOutcome(State(), keepRunning, effect) == KeyStep(old(State()), key, frame)
    {
      var c := KeyChar(key);
      keepRunning, effect := true, NoEffect;
      if c == Some(Game.KeyQ) {
        keepRunning := false;
      } else if c == Some(Game.KeyOne) {
        if state != Running {
          mode := Hold;
          state := if calibration.IsComplete() then Ready else CalibrateCenter;
        }
      } else if c == Some(Game.KeyTwo) {
        if state != Running {
          mode, state := Follow, Ready;
        }
      } else if c == Some(KeyC) {
        if mode == Hold {
          calibration.Reset();
          state := CalibrateCenter;
        }
      } else if c == Some(Game.KeyT) {
        trackbarsVisible := !trackbarsVisible;
        if trackbarsVisible {
          effect := CreateTrackbars;
        }
      } else if c == Some(Game.KeySpace) && state == Ready {
        effect := StartSession(frame);
      } else if c == Some(Game.KeySpace) && state == Result {
        state := if mode == Hold && !calibration.IsComplete() then CalibrateCenter else Ready;
      }
    }

    /** `_update_calibration_state()`. */
    method UpdateCalibrationState()
      modifies this
      ensures State() == CalibrationCheck(old(State()))
    {
      if mode == Hold {
        if !calibration.IsComplete() {
          state := if calibration.center.None? then CalibrateCenter else CalibrateRadius;
        } else if state in {CalibrateCenter, CalibrateRadius, Menu} {
          state := Ready;
        }
      }
    }

    /** The RUNNING to RESULT switch of the drawing code, given whether each session is still active. */
    method CheckSessionEnd(holdActive: bool, followActive: bool) returns (effect: Effect)
      modifies this
      ensures (State(), effect) == FinishCheck(old(State()), holdActive, followActive)
    {
      effect := NoEffect;
      if state == Running {
        if (mode == Hold && !holdActive) || (mode == Follow && !followActive) {
          state := Result;
          effect := SaveResult;
        }
      }
    }
  }
}
