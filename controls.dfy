/** The per-frame input handling of src/main.cpp: the keyboard dispatch of
    processInput, the pointer-delta state of mouse_callback, the forwarding
    of scroll_callback and the wireframe toggle of key_callback. The
    program's globals (the camera, the two configured axes, lastX, lastY,
    firstMouse, wireframeModeOn, and the GL polygon mode and close request
    they drive) are the fields of one App object. */
module Controls {
  import opened GlfwKeys
  import opened Input
  import opened CameraRecorder

  // ---------------------------------------------------------------------
  // processInput (src/main.cpp:423-442)

  /** The move one axis value asks for: `onPositive` above 0, `onNegative`
      below 0, nothing at 0. */
  function AxisMove(value: int, onPositive: CameraMovement, onNegative: CameraMovement, deltaTime: real): seq<CameraCall>
  {
    if value > 0 then [Move(onPositive, deltaTime)]
    else if value < 0 then [Move(onNegative, deltaTime)]
    else []
  }

  /** The calls one processInput makes on the camera, given the three axis
      values and whether left shift is down. The vertical axis is inverted:
      a negative value moves UP. */
  function FrameCommands(fwdAxis: int, hAxis: int, vAxis: int, shiftDown: bool, deltaTime: real): seq<CameraCall>
  {
    AxisMove(fwdAxis, FORWARD, BACKWARD, deltaTime)
    + AxisMove(hAxis, LEFT, RIGHT, deltaTime)
    + AxisMove(vAxis, DOWN, UP, deltaTime)
    + [SetBoost(shiftDown)]
  }

  /** Appending a frame's calls piece by piece appends the whole frame.
      Stated apart so that the proof of ProcessInput stays small. */
  lemma AppendFrame(before: seq<CameraCall>, f: seq<CameraCall>, h: seq<CameraCall>, v: seq<CameraCall>, boost: CameraCall)
    ensures before + f + h + v + [boost] == before + (f + h + v + [boost])
  {
  }

  /** How many of `cmds` are a Move in direction `dir`, whatever their time step. */
  function MoveCount(cmds: seq<CameraCall>, dir: CameraMovement): nat
  {
    if cmds == [] then 0
    else (if cmds[0].Move? && cmds[0].direction == dir then 1 else 0) + MoveCount(cmds[1..], dir)
  }

  /** How many of `cmds` are a SetBoost. */
  function BoostCount(cmds: seq<CameraCall>): nat
  {
    if cmds == [] then 0
    else (if cmds[0].SetBoost? then 1 else 0) + BoostCount(cmds[1..])
  }

  lemma {:induction false} MoveCountAppend(a: seq<CameraCall>, b: seq<CameraCall>, dir: CameraMovement)
    ensures MoveCount(a + b, dir) == MoveCount(a, dir) + MoveCount(b, dir)
  {
    if a != [] {
      assert (a + b)[1..] == a[1..] + b;
      MoveCountAppend(a[1..], b, dir);
    } else {
      assert a + b == b;
    }
  }

  lemma {:induction false} BoostCountAppend(a: seq<CameraCall>, b: seq<CameraCall>)
    ensures BoostCount(a + b) == BoostCount(a) + BoostCount(b)
  {
    if a != [] {
      assert (a + b)[1..] == a[1..] + b;
      BoostCountAppend(a[1..], b);
    } else {
      assert a + b == b;
    }
  }

  /** Which axis a direction belongs to, in the order processInput handles them. */
  function AxisGroup(dir: CameraMovement): nat
  {
    match dir
    case FORWARD | BACKWARD => 0
    case LEFT | RIGHT => 1
    case UP | DOWN => 2
  }

  /** Every call of `cmds` is a Move of axis group `group` with time step `deltaTime`. */
  predicate MovesOfGroup(cmds: seq<CameraCall>, group: nat, deltaTime: real)
  {
    forall i :: 0 <= i < |cmds| ==>
      cmds[i].Move? && cmds[i].deltaTime == deltaTime && AxisGroup(cmds[i].direction) == group
  }

  /** One axis branch issues at most one Move, in its own axis group, with the
      frame's time step. */
  lemma AxisMoveShape(value: int, onPositive: CameraMovement, onNegative: CameraMovement, deltaTime: real)
    ensures var cmds := AxisMove(value, onPositive, onNegative, deltaTime);
      |cmds| <= 1 && BoostCount(cmds) == 0 &&
      (AxisGroup(onPositive) == AxisGroup(onNegative) ==> MovesOfGroup(cmds, AxisGroup(onPositive), deltaTime))
  {
  }

  /** Three branches in a row: each position holds a Move with the frame's
      time step, and the group grows strictly from one Move to the next. */
  lemma {:induction false} ConcatenatedMoves(f: seq<CameraCall>, h: seq<CameraCall>, v: seq<CameraCall>, deltaTime: real)
    requires |f| <= 1 && |h| <= 1 && |v| <= 1
    requires MovesOfGroup(f, 0, deltaTime) && MovesOfGroup(h, 1, deltaTime) && MovesOfGroup(v, 2, deltaTime)
    ensures forall i :: 0 <= i < |f + h + v| ==> (f + h + v)[i].Move? && (f + h + v)[i].deltaTime == deltaTime
    ensures forall i, j :: 0 <= i < j < |f + h + v| ==>
      AxisGroup((f + h + v)[i].direction) < AxisGroup((f + h + v)[j].direction)
  {
    var moves := f + h + v;
    assert forall i :: 0 <= i < |moves| ==>
      (moves[i].Move? && moves[i].deltaTime == deltaTime &&
       AxisGroup(moves[i].direction) == (if i < |f| then 0 else if i < |f| + |h| then 1 else 2)) by {
      forall i | 0 <= i < |moves|
        ensures moves[i].Move? && moves[i].deltaTime == deltaTime &&
          AxisGroup(moves[i].direction) == (if i < |f| then 0 else if i < |f| + |h| then 1 else 2)
      {
        if i < |f| {
          assert moves[i] == f[i];
        } else if i < |f| + |h| {
          assert moves[i] == h[i - |f|];
        } else {
          assert moves[i] == v[i - |f| - |h|];
        }
      }
    }
  }

  /** A frame's calls end with its one SetBoost, after at most three Moves. */
  lemma FrameEndsWithBoost(fwdAxis: int, hAxis: int, vAxis: int, shiftDown: bool, deltaTime: real)
    ensures var cmds := FrameCommands(fwdAxis, hAxis, vAxis, shiftDown, deltaTime);
      1 <= |cmds| <= 4 && cmds[|cmds| - 1] == SetBoost(shiftDown) && BoostCount(cmds) == 1
  {
    var f, h, v := AxisMove(fwdAxis, FORWARD, BACKWARD, deltaTime),
                   AxisMove(hAxis, LEFT, RIGHT, deltaTime),
                   AxisMove(vAxis, DOWN, UP, deltaTime);
    AxisMoveShape(fwdAxis, FORWARD, BACKWARD, deltaTime);
    AxisMoveShape(hAxis, LEFT, RIGHT, deltaTime);
    AxisMoveShape(vAxis, DOWN, UP, deltaTime);
    BoostCountAppend(f, h);
    BoostCountAppend(f + h, v);
    BoostCountAppend(f + h + v, [SetBoost(shiftDown)]);
  }

  /** Before the SetBoost, a frame's calls are Moves with the frame's time
      step, in strictly increasing axis group. */
  lemma FrameMovesInOrder(fwdAxis: int, hAxis: int, vAxis: int, shiftDown: bool, deltaTime: real)
    ensures var cmds := FrameCommands(fwdAxis, hAxis, vAxis, shiftDown, deltaTime);
      && (forall i :: 0 <= i < |cmds| - 1 ==> cmds[i].Move? && cmds[i].deltaTime == deltaTime)
      && (forall i, j :: 0 <= i < j < |cmds| - 1 ==> AxisGroup(cmds[i].direction) < AxisGroup(cmds[j].direction))
  {
    var f, h, v := AxisMove(fwdAxis, FORWARD, BACKWARD, deltaTime),
                   AxisMove(hAxis, LEFT, RIGHT, deltaTime),
                   AxisMove(vAxis, DOWN, UP, deltaTime);
    AxisMoveShape(fwdAxis, FORWARD, BACKWARD, deltaTime);
    AxisMoveShape(hAxis, LEFT, RIGHT, deltaTime);
    AxisMoveShape(vAxis, DOWN, UP, deltaTime);
    var moves := f + h + v;
    ConcatenatedMoves(f, h, v, deltaTime);
    var cmds := moves + [SetBoost(shiftDown)];
    assert forall i :: 0 <= i < |moves| ==> cmds[i] == moves[i];
  }

  /** The shape of one frame's calls: at most three Moves, all with the
      frame's unchanged time step and in the order forward, horizontal,
      vertical, then exactly one SetBoost, last, whose argument is the
      left-shift state. */
  lemma FrameShape(fwdAxis: int, hAxis: int, vAxis: int, shiftDown: bool, deltaTime: real)
    ensures var cmds := FrameCommands(fwdAxis, hAxis, vAxis, shiftDown, deltaTime);
      && 1 <= |cmds| <= 4
      && cmds[|cmds| - 1] == SetBoost(shiftDown)
      && BoostCount(cmds) == 1
      && (forall i :: 0 <= i < |cmds| - 1 ==> cmds[i].Move? && cmds[i].deltaTime == deltaTime)
      && (forall i, j :: 0 <= i < j < |cmds| - 1 ==> AxisGroup(cmds[i].direction) < AxisGroup(cmds[j].direction))
  {
    FrameEndsWithBoost(fwdAxis, hAxis, vAxis, shiftDown, deltaTime);
    FrameMovesInOrder(fwdAxis, hAxis, vAxis, shiftDown, deltaTime);
  }

  /** The forward axis: above 0 exactly one FORWARD move, below 0 exactly one
      BACKWARD move, at 0 neither. */
  lemma FrameForwardMoves(fwdAxis: int, hAxis: int, vAxis: int, shiftDown: bool, deltaTime: real)
    ensures var cmds := FrameCommands(fwdAxis, hAxis, vAxis, shiftDown, deltaTime);
      MoveCount(cmds, FORWARD) == (if fwdAxis > 0 then 1 else 0) &&
      MoveCount(cmds, BACKWARD) == (if fwdAxis < 0 then 1 else 0)
  {
    FrameCounts(fwdAxis, hAxis, vAxis, shiftDown, deltaTime, FORWARD);
    FrameCounts(fwdAxis, hAxis, vAxis, shiftDown, deltaTime, BACKWARD);
  }

  /** The horizontal axis: above 0 one LEFT move, below 0 one RIGHT move. */
  lemma FrameHorizontalMoves(fwdAxis: int, hAxis: int, vAxis: int, shiftDown: bool, deltaTime: real)
    ensures var cmds := FrameCommands(fwdAxis, hAxis, vAxis, shiftDown, deltaTime);
      MoveCount(cmds, LEFT) == (if hAxis > 0 then 1 else 0) &&
      MoveCount(cmds, RIGHT) == (if hAxis < 0 then 1 else 0)
  {
    FrameCounts(fwdAxis, hAxis, vAxis, shiftDown, deltaTime, LEFT);
    FrameCounts(fwdAxis, hAxis, vAxis, shiftDown, deltaTime, RIGHT);
  }

  /** The vertical axis, inverted: below 0 one UP move, above 0 one DOWN move. */
  lemma FrameVerticalMoves(fwdAxis: int, hAxis: int, vAxis: int, shiftDown: bool, deltaTime: real)
    ensures var cmds := FrameCommands(fwdAxis, hAxis, vAxis, shiftDown, deltaTime);
      MoveCount(cmds, UP) == (if vAxis < 0 then 1 else 0) &&
      MoveCount(cmds, DOWN) == (if vAxis > 0 then 1 else 0)
  {
    FrameCounts(fwdAxis, hAxis, vAxis, shiftDown, deltaTime, UP);
    FrameCounts(fwdAxis, hAxis, vAxis, shiftDown, deltaTime, DOWN);
  }

  /** Moves per direction in one frame: the sum over the three axes. */
  lemma FrameCounts(fwdAxis: int, hAxis: int, vAxis: int, shiftDown: bool, deltaTime: real, dir: CameraMovement)
    ensures MoveCount(FrameCommands(fwdAxis, hAxis, vAxis, shiftDown, deltaTime), dir) ==
      MoveCount(AxisMove(fwdAxis, FORWARD, BACKWARD, deltaTime), dir)
      + MoveCount(AxisMove(hAxis, LEFT, RIGHT, deltaTime), dir)
      + MoveCount(AxisMove(vAxis, DOWN, UP, deltaTime), dir)
  {
    var f, h, v := AxisMove(fwdAxis, FORWARD, BACKWARD, deltaTime),
                   AxisMove(hAxis, LEFT, RIGHT, deltaTime),
                   AxisMove(vAxis, DOWN, UP, deltaTime);
    MoveCountAppend(f, h, dir);
    MoveCountAppend(f + h, v, dir);
    MoveCountAppend(f + h + v, [SetBoost(shiftDown)], dir);
  }

  /** Holding W and S together moves forward (W is scanned first), holding
      D and LEFT moves right (D is scanned before LEFT), and left shift
      boosts the same frame's SetBoost. */
  lemma ConflictingKeysFrame(deltaTime: real)
    ensures FrameCommands(
              AxisValue(ForwardPositiveKeys, ForwardNegativeKeys, {KEY_W, KEY_S, KEY_D, KEY_LEFT, KEY_LEFT_SHIFT}),
              AxisValue(HorizontalPositiveKeys, HorizontalNegativeKeys, {KEY_W, KEY_S, KEY_D, KEY_LEFT, KEY_LEFT_SHIFT}),
              0, KEY_LEFT_SHIFT in {KEY_W, KEY_S, KEY_D, KEY_LEFT, KEY_LEFT_SHIFT}, deltaTime)
            == [Move(FORWARD, deltaTime), Move(RIGHT, deltaTime), SetBoost(true)]
  {
    var pressed := {KEY_W, KEY_S, KEY_D, KEY_LEFT, KEY_LEFT_SHIFT};
    ForwardAxisTable(pressed);
    HorizontalAxisTable(pressed);
  }

  // ---------------------------------------------------------------------
  // mouse_callback (src/main.cpp:462-479)

  /** The globals lastX, lastY and firstMouse. */
  datatype PointerState = PointerState(lastX: real, lastY: real, firstMouse: bool)

  /** An absolute cursor position delivered to mouse_callback. */
  datatype CursorPos = CursorPos(x: real, y: real)

  /** The offsets handed to the camera. */
  datatype Offset = Offset(x: real, y: real)

  /** The offset of one pointer event: against the previous position, or
      against the event itself on the first event; y is inverted. */
  function PointerOffset(s: PointerState, pos: CursorPos): Offset
  {
    var fromX := if s.firstMouse then pos.x else s.lastX;
    var fromY := if s.firstMouse then pos.y else s.lastY;
    Offset(pos.x - fromX, fromY - pos.y)
  }

  /** The pointer state after one event: the event's position, seeded. */
  function PointerStep(s: PointerState, pos: CursorPos): PointerState
  {
    PointerState(pos.x, pos.y, false)
  }

  /** The offsets produced by a sequence of pointer events. */
  function ReplayOffsets(s: PointerState, events: seq<CursorPos>): (offsets: seq<Offset>)
    ensures |offsets| == |events|
    decreases |events|
  {
    if events == [] then []
    else [PointerOffset(s, events[0])] + ReplayOffsets(PointerStep(s, events[0]), events[1..])
  }

  /** The pointer state after a sequence of pointer events. */
  function ReplayState(s: PointerState, events: seq<CursorPos>): PointerState
    decreases |events|
  {
    if events == [] then s else ReplayState(PointerStep(s, events[0]), events[1..])
  }

  function SumX(offsets: seq<Offset>): real
  {
    if offsets == [] then 0.0 else offsets[0].x + SumX(offsets[1..])
  }

  function SumY(offsets: seq<Offset>): real
  {
    if offsets == [] then 0.0 else offsets[0].y + SumY(offsets[1..])
  }

  /** The first event of a fresh pointer state yields a zero offset. */
  lemma FirstEventIsStill(s: PointerState, events: seq<CursorPos>)
    requires s.firstMouse && events != []
    ensures ReplayOffsets(s, events)[0] == Offset(0.0, 0.0)
  {
  }

  /** After any non-empty sequence of events the state holds the last event's
      position and firstMouse is false for good; no events change nothing. */
  lemma {:induction false} ReplayStateIsLast(s: PointerState, events: seq<CursorPos>)
    ensures ReplayState(s, events) ==
      if events == [] then s else PointerState(events[|events| - 1].x, events[|events| - 1].y, false)
    decreases |events|
  {
    if events != [] {
      ReplayStateIsLast(PointerStep(s, events[0]), events[1..]);
    }
  }

  /** The offsets of a sequence of events telescope: their x sum is the last
      position minus the starting point, their y sum the starting point minus
      the last position. The starting point is the first event on a fresh
      state and the stored last position otherwise. */
  lemma {:induction false} OffsetsTelescope(s: PointerState, events: seq<CursorPos>)
    requires events != []
    ensures var offsets := ReplayOffsets(s, events);
      var last := events[|events| - 1];
      SumX(offsets) == last.x - (if s.firstMouse then events[0].x else s.lastX) &&
      SumY(offsets) == (if s.firstMouse then events[0].y else s.lastY) - last.y
    decreases |events|
  {
    var offsets := ReplayOffsets(s, events);
    var rest := ReplayOffsets(PointerStep(s, events[0]), events[1..]);
    assert offsets[1..] == rest;
    if |events| > 1 {
      OffsetsTelescope(PointerStep(s, events[0]), events[1..]);
    }
  }

  // ---------------------------------------------------------------------
  // key_callback (src/main.cpp:385-395) and setWireframeMode (src/main.cpp:450-456)

  /** A key event as GLFW delivers it to key_callback. */
  datatype KeyEvent = KeyEvent(key: int, scancode: int, action: int, mods: int)

  /** The event that flips the wireframe flag: a press of the grave accent key. */
  predicate TogglesWireframe(e: KeyEvent)
  {
    e.key == KEY_GRAVE_ACCENT && e.action == PRESS
  }

  /** The event that asks the window to close: a press of escape. */
  predicate RequestsClose(e: KeyEvent)
  {
    e.key == KEY_ESCAPE && e.action == PRESS
  }

  /** The glPolygonMode setting: filled or outlined polygons. */
  datatype PolygonMode = FILL | LINE

  /** The polygon mode setWireframeMode selects. */
  function PolygonModeFor(wireframeOn: bool): PolygonMode
  {
    if wireframeOn then LINE else FILL
  }

  /** The wireframe flag after a sequence of key events. */
  function WireframeAfter(on: bool, events: seq<KeyEvent>): bool
    decreases |events|
  {
    if events == [] then on
    else WireframeAfter(if TogglesWireframe(events[0]) then !on else on, events[1..])
  }

  /** How many of the events press the grave accent key. */
  function ToggleCount(events: seq<KeyEvent>): nat
  {
    if events == [] then 0
    else (if TogglesWireframe(events[0]) then 1 else 0) + ToggleCount(events[1..])
  }

  /** The wireframe flag ends flipped exactly when an odd number of the events
      pressed the grave accent key; every other event leaves it alone. */
  lemma {:induction false} WireframeParity(on: bool, events: seq<KeyEvent>)
    ensures WireframeAfter(on, events) == (if ToggleCount(events) % 2 == 0 then on else !on)
    decreases |events|
  {
    if events != [] {
      var next := if TogglesWireframe(events[0]) then !on else on;
      WireframeParity(next, events[1..]);
    }
  }

  /** Two presses of the grave accent key, with anything else in between,
      restore the flag. */
  lemma {:induction false} TwoTogglesRestore(on: bool, e1: KeyEvent, between: seq<KeyEvent>, e2: KeyEvent)
    requires TogglesWireframe(e1) && TogglesWireframe(e2)
    requires forall i :: 0 <= i < |between| ==> !TogglesWireframe(between[i])
    ensures WireframeAfter(on, [e1] + between + [e2]) == on
  {
    var events := [e1] + between + [e2];
    NoTogglesCountZero(between);
    ToggleCountAppend([e1], between);
    ToggleCountAppend([e1] + between, [e2]);
    WireframeParity(on, events);
  }

  lemma {:induction false} NoTogglesCountZero(events: seq<KeyEvent>)
    requires forall i :: 0 <= i < |events| ==> !TogglesWireframe(events[i])
    ensures ToggleCount(events) == 0
  {
    if events != [] {
      assert !TogglesWireframe(events[0]);
      NoTogglesCountZero(events[1..]);
    }
  }

  lemma {:induction false} ToggleCountAppend(a: seq<KeyEvent>, b: seq<KeyEvent>)
    ensures ToggleCount(a + b) == ToggleCount(a) + ToggleCount(b)
  {
    if a != [] {
      assert (a + b)[1..] == a[1..] + b;
      ToggleCountAppend(a[1..], b);
    } else {
      assert a + b == b;
    }
  }

  // ---------------------------------------------------------------------
  // The program's input state

  class App {
    const camera: Camera
    const forwardAxis: Axis
    const horizontalAxis: Axis
    var lastX: real
    var lastY: real
    var firstMouse: bool
    var wireframeModeOn: bool
    var polygonMode: PolygonMode
    var windowShouldClose: bool

    /** The axes hold the configured key tables, and the polygon mode is the
        one the wireframe flag selects. */
    ghost predicate Valid()
      reads this, forwardAxis, horizontalAxis
      reads forwardAxis.positiveKeys, forwardAxis.negativeKeys
      reads horizontalAxis.positiveKeys, horizontalAxis.negativeKeys
    {
      && forwardAxis.Valid() && horizontalAxis.Valid()
      && forwardAxis.positiveKeys[..] == ForwardPositiveKeys
      && forwardAxis.negativeKeys[..] == ForwardNegativeKeys
      && horizontalAxis.positiveKeys[..] == HorizontalPositiveKeys
      && horizontalAxis.negativeKeys[..] == HorizontalNegativeKeys
      && polygonMode == PolygonModeFor(wireframeModeOn)
    }

    /** The globals lastX, lastY and firstMouse as one value. */
    function Pointer(): PointerState
      reads this
    {
      PointerState(lastX, lastY, firstMouse)
    }

    /** The program's start-up state (src/main.cpp:25-28, src/main.cpp:46,
        src/includes/INPUT.h:46-47); the polygon mode starts as GL's
        default, filled. */
    constructor ()
      ensures Valid() && fresh(camera) && camera.trace == []
      ensures Pointer() == PointerState(0.0, 0.0, true)
      ensures !wireframeModeOn && polygonMode == FILL && !windowShouldClose
      ensures forwardAxis.name == "Forward" && horizontalAxis.name == "Horizontal"
    {
      camera := new Camera();
      var fwd := NewForwardAxis();
      var hor := NewHorizontalAxis();
      forwardAxis := fwd;
      horizontalAxis := hor;
      lastX, lastY, firstMouse := 0.0, 0.0, true;
      wireframeModeOn := false;
      polygonMode := FILL;
      windowShouldClose := false;
    }

    /** processInput: read the three axes and left shift, and drive the
        camera (src/main.cpp:423-442). VERTICAL_AXIS is not part of this
        model; its value is the parameter `vAxis`. */
    method ProcessInput(pressed: set<int>, vAxis: int, deltaTime: real)
      requires Valid()
      modifies camera
      ensures camera.trace == old(camera.trace) + FrameCommands(
        AxisValue(ForwardPositiveKeys, ForwardNegativeKeys, pressed),
        AxisValue(HorizontalPositiveKeys, HorizontalNegativeKeys, pressed),
        vAxis, KEY_LEFT_SHIFT in pressed, deltaTime)
    {
      var fwdAxis := forwardAxis.GetValue(pressed);
      var hAxis := horizontalAxis.GetValue(pressed);
      ghost var before := camera.trace;
      ghost var f, h, v := AxisMove(fwdAxis, FORWARD, BACKWARD, deltaTime),
                           AxisMove(hAxis, LEFT, RIGHT, deltaTime),
                           AxisMove(vAxis, DOWN, UP, deltaTime);
      ghost var boost := SetBoost(KEY_LEFT_SHIFT in pressed);

      if fwdAxis > 0 { camera.Move(FORWARD, deltaTime); }
      else if fwdAxis < 0 { camera.Move(BACKWARD, deltaTime); }
      assert camera.trace == before + f;

      if hAxis > 0 { camera.Move(LEFT, deltaTime); }
      else if hAxis < 0 { camera.Move(RIGHT, deltaTime); }
      assert camera.trace == before + f + h;

      if vAxis < 0 { camera.Move(UP, deltaTime); }
      else if vAxis > 0 { camera.Move(DOWN, deltaTime); }
      assert camera.trace == before + f + h + v;

      if KEY_LEFT_SHIFT in pressed {
        camera.SetBoost(true);
      } else {
        camera.SetBoost(false);
      }
      assert camera.trace == before + f + h + v + [boost];
      AppendFrame(before, f, h, v, boost);
      assert fwdAxis == AxisValue(ForwardPositiveKeys, ForwardNegativeKeys, pressed);
      assert hAxis == AxisValue(HorizontalPositiveKeys, HorizontalNegativeKeys, pressed);
    }

    /** mouse_callback: turn an absolute cursor position into an offset for
        the camera, seeding the last position on the first event
        (src/main.cpp:462-479). */
    method MouseCallback(xpos: real, ypos: real)
      requires Valid()
      modifies this, camera
      ensures Valid()
      ensures Pointer() == PointerStep(old(Pointer()), CursorPos(xpos, ypos))
      ensures var o := PointerOffset(old(Pointer()), CursorPos(xpos, ypos));
        camera.trace == old(camera.trace) + [ProcessMouseMovement(o.x, o.y)]
      ensures wireframeModeOn == old(wireframeModeOn) && polygonMode == old(polygonMode)
      ensures windowShouldClose == old(windowShouldClose)
    {
      if firstMouse {
        lastX := xpos;
        lastY := ypos;
        firstMouse := false;
      }

      var xOffset := xpos - lastX;
      var yOffset := lastY - ypos;

      lastX := xpos;
      lastY := ypos;

      camera.ProcessMouseMovement(xOffset, yOffset);
    }

    /** scroll_callback: only the vertical scroll reaches the camera
        (src/main.cpp:481-483). */
    method ScrollCallback(xOffset: real, yOffset: real)
      modifies camera
      ensures camera.trace == old(camera.trace) + [ProcessMouseScroll(yOffset)]
    {
      camera.ProcessMouseScroll(yOffset);
    }

    /** setWireframeMode: outlined polygons when on, filled otherwise
        (src/main.cpp:450-456). */
    method SetWireframeMode(wireframeOn: bool)
      modifies this`polygonMode
      ensures polygonMode == PolygonModeFor(wireframeOn)
    {
      if wireframeOn {
        polygonMode := LINE;
      } else {
        polygonMode := FILL;
      }
    }

    /** key_callback without the fullscreen switch: a grave accent press
        flips the wireframe flag and applies it, an escape press asks the
        window to close (src/main.cpp:385-395). */
    method KeyCallback(key: int, scancode: int, action: int, mods: int)
      requires Valid()
      modifies this
      ensures Valid()
      ensures wireframeModeOn == WireframeAfter(old(wireframeModeOn), [KeyEvent(key, scancode, action, mods)])
      ensures windowShouldClose == (old(windowShouldClose) || RequestsClose(KeyEvent(key, scancode, action, mods)))
      ensures Pointer() == old(Pointer())
    {
      if key == KEY_GRAVE_ACCENT && action == PRESS {
        wireframeModeOn := !wireframeModeOn;
        SetWireframeMode(wireframeModeOn);
      }

      if key == KEY_ESCAPE && action == PRESS {
        windowShouldClose := true;
      }
    }
  }
}
