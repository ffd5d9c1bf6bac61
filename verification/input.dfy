/** The demo's input handlers as pure steps over the state they share: the
    Space-key latch polled once per frame, the F1 key callback that toggles the
    overlay, and the cursor callback that turns positions into look offsets.
    The camera itself is not modelled; a mouse step reports the offsets it
    would hand to the camera and whether it hands them over at all. */
module Input {
  import opened Vectors
  import opened Persist

  /** GLFW's key and action codes used by the handlers. */
  const KEY_F1: int := 290
  const RELEASE: int := 0
  const PRESS: int := 1
  const REPEAT: int := 2

  const SCR_WIDTH: int := 800
  const SCR_HEIGHT: int := 600

  /** What a poll of the Space key reports: glfwGetKey yields only these two. */
  datatype KeySample = Pressed | Released

  /** The handlers' shared state: the globals `shadows`, `shadowsKeyPressed`,
      `lastX`, `lastY`, `firstMouse`, and the program state's two flags
      `ImGuiEnabled` and `CameraMouseMovementUpdateEnabled` (the same fields
      as in `Persist.ProgramState`; `Initial` copies them from there). */
  datatype InputState = InputState(
    shadows: bool,
    shadowsKeyPressed: bool,
    ImGuiEnabled: bool,
    CameraMouseMovementUpdateEnabled: bool,
    lastX: real,
    lastY: real,
    firstMouse: bool)

  /** The state at start-up, given the program state as loaded: the shadow
      flag and its latch are off, the cursor reference is the window centre
      and the two flags are the program state's own. */
  function Initial(ps: ProgramState): (s: InputState)
    ensures !s.shadows && !s.shadowsKeyPressed && s.firstMouse
    ensures s.ImGuiEnabled == ps.ImGuiEnabled
    ensures s.CameraMouseMovementUpdateEnabled == ps.CameraMouseMovementUpdateEnabled
    ensures s.lastX * 2.0 == SCR_WIDTH as real && s.lastY * 2.0 == SCR_HEIGHT as real
  {
    InputState(false, false, ps.ImGuiEnabled, ps.CameraMouseMovementUpdateEnabled,
               SCR_WIDTH as real / 2.0, SCR_HEIGHT as real / 2.0, true)
  }

  /** At start-up the program state is freshly constructed and then loaded,
      so the camera is coupled to the mouse whatever the file held, and the
      overlay is on exactly when the loaded record says so. */
  lemma StartupCouplesCamera(camera: Camera, light: PointLight, file: Option<seq<real>>)
    ensures var s := Initial(LoadFromFile(Fresh(camera, light), file));
            && s.CameraMouseMovementUpdateEnabled
            && s.ImGuiEnabled == LoadFromFile(Fresh(camera, light), file).ImGuiEnabled
            && (file.None? ==> !s.ImGuiEnabled)
  {
  }

  // ---------------------------------------------------------------------
  // Space latch (processInput)
  // ---------------------------------------------------------------------

  /** One poll of the Space key: a press with the latch clear flips `shadows`
      and sets the latch; a release clears the latch. */
  function PollSpace(s: InputState, space: KeySample): (r: InputState)
    ensures r.shadowsKeyPressed <==> space == Pressed
    ensures r.shadows != s.shadows <==> space == Pressed && !s.shadowsKeyPressed
    ensures r == s.(shadows := r.shadows, shadowsKeyPressed := r.shadowsKeyPressed)
  {
    match space
    case Pressed =>
      if s.shadowsKeyPressed then s else s.(shadows := !s.shadows, shadowsKeyPressed := true)
    case Released =>
      s.(shadowsKeyPressed := false)
  }

  /** A run of frames, one Space poll per frame. */
  function PollSpaceRun(s: InputState, polls: seq<KeySample>): InputState
    decreases |polls|
  {
    if |polls| == 0 then s else PollSpaceRun(PollSpace(s, polls[0]), polls[1..])
  }

  /** Reference count of the presses the polls see (rising edges of the
      sampled key state): polls that see the key down while the previous
      poll (or the initial latch) saw it up. A press and release that both
      fall between two polls is never seen. */
  function RisingEdges(latched: bool, polls: seq<KeySample>): nat
    decreases |polls|
  {
    if |polls| == 0 then 0
    else (if polls[0] == Pressed && !latched then 1 else 0)
         + RisingEdges(polls[0] == Pressed, polls[1..])
  }

  /** Holding Space with the latch already set changes nothing. */
  lemma HeldSpaceIsIdle(s: InputState)
    requires s.shadowsKeyPressed
    ensures PollSpace(s, Pressed) == s
  {
  }

  /** Over any run of polls, `shadows` has flipped exactly when the number of
      presses the polls see is odd, the latch records whether the last poll saw
      the key down, and no other field changes. */
  lemma {:induction false} PollSpaceRunCountsPresses(s: InputState, polls: seq<KeySample>)
    ensures PollSpaceRun(s, polls).shadows
            == (s.shadows != (RisingEdges(s.shadowsKeyPressed, polls) % 2 == 1))
    ensures PollSpaceRun(s, polls).shadowsKeyPressed
            == (if |polls| == 0 then s.shadowsKeyPressed else polls[|polls| - 1] == Pressed)
    ensures PollSpaceRun(s, polls)
            == s.(shadows := PollSpaceRun(s, polls).shadows,
                  shadowsKeyPressed := PollSpaceRun(s, polls).shadowsKeyPressed)
    decreases |polls|
  {
    if |polls| > 0 {
      PollSpaceRunCountsPresses(PollSpace(s, polls[0]), polls[1..]);
      if |polls| > 1 {
        assert polls[1..][|polls[1..]| - 1] == polls[|polls| - 1];
      }
    }
  }

  /** A press held for n polls counts as one press. */
  lemma {:induction false} HoldIsOnePress(latched: bool, n: nat)
    requires n >= 1
    ensures RisingEdges(latched, seq(n, _ => Pressed)) == (if latched then 0 else 1)
    decreases n
  {
    var polls := seq(n, _ => Pressed);
    if n > 1 {
      assert polls[1..] == seq(n - 1, _ => Pressed);
      HoldIsOnePress(true, n - 1);
    } else {
      assert polls[1..] == [];
    }
  }

  /** Pressing and holding Space for any number of polls from a released
      latch toggles `shadows` exactly once. */
  lemma PressAndHoldTogglesOnce(s: InputState, n: nat)
    requires !s.shadowsKeyPressed && n >= 1
    ensures PollSpaceRun(s, seq(n, _ => Pressed)).shadows == !s.shadows
    ensures PollSpaceRun(s, seq(n, _ => Pressed)).shadowsKeyPressed
  {
    PollSpaceRunCountsPresses(s, seq(n, _ => Pressed));
    HoldIsOnePress(false, n);
  }

  /** Holding Space with the latch set leaves the state alone however long. */
  lemma HoldingLatchedIsIdle(s: InputState, n: nat)
    requires s.shadowsKeyPressed
    ensures PollSpaceRun(s, seq(n, _ => Pressed)) == s
  {
    PollSpaceRunCountsPresses(s, seq(n, _ => Pressed));
    if n >= 1 {
      HoldIsOnePress(true, n);
    }
  }

  /** Two full press/release cycles restore `shadows` and clear the latch;
      one cycle flips it. */
  lemma PressReleaseCycles(s: InputState)
    ensures PollSpaceRun(s, [Released, Pressed, Released]).shadows == !s.shadows
    ensures PollSpaceRun(s, [Released, Pressed, Released, Pressed, Released]) == s.(shadowsKeyPressed := false)
  {
    PollSpaceRunCountsPresses(s, [Released, Pressed, Released]);
    PollSpaceRunCountsPresses(s, [Released, Pressed, Released, Pressed, Released]);
  }

  // ---------------------------------------------------------------------
  // F1 overlay toggle (key_callback)
  // ---------------------------------------------------------------------

  datatype CursorMode = CursorNormal | CursorDisabled

  /** The new state and the cursor mode the callback asks GLFW for, if any. */
  datatype KeyOutcome = KeyOutcome(state: InputState, cursor: Option<CursorMode>)

  /** The key callback: only an F1 press acts. It flips the overlay; turning
      the overlay on also decouples the camera from the mouse and shows the
      cursor, turning it off only hides the cursor again. */
  function OnKey(s: InputState, key: int, action: int): (r: KeyOutcome)
    ensures !(key == KEY_F1 && action == PRESS) ==> r == KeyOutcome(s, None)
    ensures key == KEY_F1 && action == PRESS ==>
      && r.state.ImGuiEnabled == !s.ImGuiEnabled
      && (r.state.ImGuiEnabled ==>
            !r.state.CameraMouseMovementUpdateEnabled && r.cursor == Some(CursorNormal))
      && (!r.state.ImGuiEnabled ==>
            r.state.CameraMouseMovementUpdateEnabled == s.CameraMouseMovementUpdateEnabled
            && r.cursor == Some(CursorDisabled))
      && r.state == s.(ImGuiEnabled := r.state.ImGuiEnabled,
                       CameraMouseMovementUpdateEnabled := r.state.CameraMouseMovementUpdateEnabled)
  {
    if key == KEY_F1 && action == PRESS then
      var enabled := !s.ImGuiEnabled;
      if enabled then
        KeyOutcome(s.(ImGuiEnabled := true, CameraMouseMovementUpdateEnabled := false),
                   Some(CursorNormal))
      else
        KeyOutcome(s.(ImGuiEnabled := false), Some(CursorDisabled))
    else
      KeyOutcome(s, None)
  }

  /** Two F1 presses return the overlay flag to where it was but always
      leave the camera decoupled from the mouse: one of the two presses
      opens the overlay, and closing it does not restore the coupling. */
  lemma F1TwiceLeavesCameraDecoupled(s: InputState)
    ensures OnKey(OnKey(s, KEY_F1, PRESS).state, KEY_F1, PRESS).state
            == s.(CameraMouseMovementUpdateEnabled := false)
  {
  }

  /** F1 repeats and releases never act, so holding F1 toggles once. */
  lemma F1RepeatAndReleaseIgnored(s: InputState)
    ensures OnKey(s, KEY_F1, REPEAT).state == s && OnKey(s, KEY_F1, RELEASE).state == s
  {
  }

  /** The Space latch and the key callback touch disjoint fields, so their
      order within a frame does not matter. */
  lemma SpaceAndKeyCommute(s: InputState, space: KeySample, key: int, action: int)
    ensures PollSpace(OnKey(s, key, action).state, space)
            == OnKey(PollSpace(s, space), key, action).state
  {
  }

  // ---------------------------------------------------------------------
  // Cursor movement (mouse_callback)
  // ---------------------------------------------------------------------

  /** The new state, the offsets computed, and whether they reach the camera. */
  datatype MouseOutcome = MouseOutcome(state: InputState, xoffset: real, yoffset: real, forwarded: bool)

  /** The cursor callback: the first event only seeds the last position, so
      its offsets are zero; the y offset is reversed because screen y grows
      downwards; the camera sees the offsets only while coupled. */
  function OnMouse(s: InputState, xpos: real, ypos: real): (r: MouseOutcome)
    ensures r.state == s.(lastX := xpos, lastY := ypos, firstMouse := false)
    ensures s.firstMouse ==> r.xoffset == 0.0 && r.yoffset == 0.0
    ensures !s.firstMouse ==> r.xoffset == xpos - s.lastX && r.yoffset == s.lastY - ypos
    ensures r.forwarded <==> s.CameraMouseMovementUpdateEnabled
  {
    var seeded := if s.firstMouse then s.(lastX := xpos, lastY := ypos, firstMouse := false) else s;
    var xoffset := xpos - seeded.lastX;
    var yoffset := seeded.lastY - ypos;
    MouseOutcome(seeded.(lastX := xpos, lastY := ypos), xoffset, yoffset,
                 s.CameraMouseMovementUpdateEnabled)
  }

  /** Feeds cursor positions in order; returns the final state and the summed
      x and y offsets. */
  function MouseRun(s: InputState, positions: seq<(real, real)>): (InputState, real, real)
    decreases |positions|
  {
    if |positions| == 0 then (s, 0.0, 0.0)
    else
      var step := OnMouse(s, positions[0].0, positions[0].1);
      var rest := MouseRun(step.state, positions[1..]);
      (rest.0, step.xoffset + rest.1, step.yoffset + rest.2)
  }

  /** Offsets telescope: over any non-empty run, the summed offsets equal the
      distance from the starting reference point (the first position when no
      event has been seen yet, else the stored last position) to the final
      position, with y reversed. */
  lemma {:induction false} MouseRunTelescopes(s: InputState, positions: seq<(real, real)>)
    requires |positions| > 0
    ensures var last := positions[|positions| - 1];
            var startX := if s.firstMouse then positions[0].0 else s.lastX;
            var startY := if s.firstMouse then positions[0].1 else s.lastY;
            && MouseRun(s, positions).1 == last.0 - startX
            && MouseRun(s, positions).2 == startY - last.1
            && MouseRun(s, positions).0 == s.(lastX := last.0, lastY := last.1, firstMouse := false)
    decreases |positions|
  {
    if |positions| > 1 {
      var step := OnMouse(s, positions[0].0, positions[0].1);
      MouseRunTelescopes(step.state, positions[1..]);
      assert positions[1..][|positions[1..]| - 1] == positions[|positions| - 1];
    }
  }

  /** Once the overlay has been switched on, cursor movement no longer
      reaches the camera. */
  lemma OverlayBlocksCamera(s: InputState, xpos: real, ypos: real)
    requires !s.ImGuiEnabled
    ensures !OnMouse(OnKey(s, KEY_F1, PRESS).state, xpos, ypos).forwarded
  {
  }
}
