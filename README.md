# Input axes and per-frame input dispatch of graphics_engine_glfw

This project models the input handling of a small GLFW/OpenGL demo in Dafny:

- **Input axes** (`Input`, from `src/includes/INPUT.h`). An `INPUT` object has a
  name, two "positive" key codes and two "negative" key codes. `getValue`
  turns the current key state into -1, 0 or +1. `Input.Axis` is a class with two
  length-2 arrays. Its constructor copies the keys with the source's loop.
  `GetValue` is the source's loop with `break`, proved equal to a pure reference
  definition: the value of the *first key held* in the scan order pos[0],
  neg[0], pos[1], neg[1] (`ScanOrder`, `FirstPressed`). Lemmas about that
  definition give the whole resolution table, including the tie-break. The two
  configured axes, `FORWARD_AXIS` (W/UP against S/DOWN) and `HORIZONTAL_AXIS`
  (A/LEFT against D/RIGHT), are the constants `ForwardPositiveKeys` and the rest,
  built by `NewForwardAxis` and `NewHorizontalAxis`.
- **Per-frame dispatch and callbacks** (`Controls`, from `src/main.cpp`). The
  program's globals become the fields of one `Controls.App` object: the camera,
  the two axes, `lastX`, `lastY`, `firstMouse`, `wireframeModeOn`, the GL
  polygon mode that `setWireframeMode` selects, and the window's close request.
  - `ProcessInput` is `processInput`. It appends exactly `FrameCommands(...)` to
    the camera's trace. Lemmas about `FrameCommands` state the promises: how many
    moves per direction, their order, the unchanged time step, and exactly one
    trailing `SetBoost`.
  - `MouseCallback` is `mouse_callback`, specified by `PointerOffset` and
    `PointerStep`. Lemmas over a sequence of events state the seeding and the
    telescoping of the offsets.
  - `KeyCallback` is the wireframe and escape part of `key_callback`. Lemmas over
    sequences of key events state the parity of the wireframe flag.
  - `ScrollCallback` is `scroll_callback`.
- **The camera** (`CameraRecorder`). Its implementation (`CAMERA.h`) is not part
  of this model. `Camera` records every call it receives (`Move`, `SetBoost`,
  `ProcessMouseMovement`, `ProcessMouseScroll`) in a trace. This is how the
  contracts above say which calls were made.
- **Key codes** (`GlfwKeys`). These are GLFW's own values for the keys and
  actions used (`KEY_W = 87`, `PRESS = 1`, ...), taken from GLFW's header
  `glfw3.h`, which is not part of this model. A key state is the set of key
  codes currently down. `glfwGetKey(window, k)` is `k in pressed`.

**Tie-break.** One might expect every positive key to be checked before every
negative key, so that a held negative key always wins. The code instead checks
slot by slot, positive key first, and stops at the first key held
(src/includes/INPUT.h:24-33). The model follows the code:
- Holding pos[0] and neg[0] together reads +1.
- Holding pos[1] and neg[0] together reads -1.
- So holding W and S moves forward, and holding D and LEFT moves right.

`Input.NegativeDoesNotOverride` and `Controls.ConflictingKeysFrame` state this.

## Model

| member | source | states |
|---|---|---|
| `Input.Axis.constructor` | src/includes/INPUT.h:14-20 | the new axis stores the name and fresh arrays holding exactly the first two positive and first two negative codes of the arguments, in order |
| `Input.Axis.GetValue` | src/includes/INPUT.h:21-36 | the slot-by-slot scan with early exit returns the first-key-held value of the axis's own keys; it writes no field and no array element (no modifies clause) |
| `Input.ScanOrder` | src/includes/INPUT.h:24-33 | the scan visits 2·n entries: slot i's positive key (value +1) at position 2i, its negative key (value -1) at 2i+1 |
| `Input.AxisValueStep` | src/includes/INPUT.h:24-33 | one iteration: the current slot's positive key decides +1, else its negative key decides -1, else the remaining slots decide |
| `Input.FirstDownDecides` | src/includes/INPUT.h:24-33 | if entry k is held and no earlier entry is, the result is entry k's value |
| `Input.NoneDownIsZero` | src/includes/INPUT.h:22-35 | if no key of the scan is held, the result stays at its initial 0 |
| `Input.FirstPressedIsFirstDown` | src/includes/INPUT.h:24-33 | conversely, a non-zero result is the value of a held key that comes before every other held key |
| `Input.AxisValueRange` | src/includes/INPUT.h:21-36 | an axis only ever reports -1, 0 or +1 |
| `Input.AxisIdle` | src/includes/INPUT.h:21-36 | with none of the four keys held the axis reads 0 |
| `Input.AxisFirstPositive` | src/includes/INPUT.h:25-27 | pos[0] held gives +1 whatever the other three keys are |
| `Input.AxisFirstNegative` | src/includes/INPUT.h:29-31 | pos[0] not held and neg[0] held gives -1 whatever the second slot holds |
| `Input.AxisSecondSlot` | src/includes/INPUT.h:24-33 | with neither slot-0 key held, the result is +1 if pos[1] is held (even with neg[1]), -1 if only neg[1] is held, else 0 |
| `Input.AxisResolution` | src/includes/INPUT.h:24-33 | the full table: the first held key in the order pos[0], neg[0], pos[1], neg[1] decides, otherwise 0 |
| `Input.NegativeDoesNotOverride` | src/includes/INPUT.h:24-33 | for any two-slot key table, pos[0] and neg[0] held together read +1; pos[1] and neg[0] held together read -1 whenever pos[0] is neither of those two keys |
| `Input.ForwardAxisTable` | src/includes/INPUT.h:39-40 | the forward axis reads W, then S, then UP, then DOWN: the first held decides (+1 for W/UP, -1 for S/DOWN) |
| `Input.HorizontalAxisTable` | src/includes/INPUT.h:42-43 | the horizontal axis reads A, then D, then LEFT, then RIGHT: the first held decides (+1 for A/LEFT, -1 for D/RIGHT) |
| `Input.NewHorizontalAxis` | src/includes/INPUT.h:46 | HORIZONTAL_AXIS is named "Horizontal" with positive keys [A, LEFT] and negative keys [D, RIGHT] |
| `Input.NewForwardAxis` | src/includes/INPUT.h:47 | FORWARD_AXIS is named "Forward" with positive keys [W, UP] and negative keys [S, DOWN] |
| `Controls.App.constructor` | src/main.cpp:25-46 | start-up state: empty camera trace, lastX = lastY = 0, firstMouse true, wireframe off with filled polygons, both axes configured as in INPUT.h |
| `Controls.App.ProcessInput` | src/main.cpp:423-442 | the camera's trace gains exactly the frame's calls for the forward and horizontal axis values of the key state, the given vertical value, and the left-shift state, in that order |
| `Controls.FrameShape` | src/main.cpp:424-441 | one frame issues at most three Moves, each with the unchanged time step, in the order forward, horizontal, vertical, then exactly one SetBoost, last, whose argument is whether left shift is held |
| `Controls.FrameEndsWithBoost` | src/main.cpp:437-441 | a frame's calls number one to four and end with their only SetBoost, whose argument is the left-shift state |
| `Controls.FrameMovesInOrder` | src/main.cpp:428-435 | every call before the SetBoost is a Move with the frame's time step, in strictly increasing axis group: forward, horizontal, vertical |
| `Controls.FrameCounts` | src/main.cpp:428-435 | the number of Moves in each direction is the sum of what the three axis branches issue |
| `Controls.FrameForwardMoves` | src/main.cpp:428-429 | forward value > 0 gives exactly one FORWARD move, < 0 exactly one BACKWARD move, 0 neither |
| `Controls.FrameHorizontalMoves` | src/main.cpp:431-432 | horizontal value > 0 gives exactly one LEFT move, < 0 exactly one RIGHT move, 0 neither |
| `Controls.FrameVerticalMoves` | src/main.cpp:434-435 | vertical value < 0 gives exactly one UP move, > 0 exactly one DOWN move (inverted), 0 neither |
| `Controls.ConflictingKeysFrame` | src/main.cpp:424-441 | holding W, S, D, LEFT and left shift moves FORWARD, then RIGHT, then boosts |
| `Controls.App.MouseCallback` | src/main.cpp:462-479 | the stored position becomes the event's and firstMouse goes false; the camera receives (x - lastX, lastY - y), against the event itself on the first event |
| `Controls.FirstEventIsStill` | src/main.cpp:466-473 | the first event on a fresh pointer state yields a zero offset |
| `Controls.ReplayStateIsLast` | src/main.cpp:466-476 | after any non-empty run of events the state holds the last position and firstMouse stays false; no events change nothing |
| `Controls.OffsetsTelescope` | src/main.cpp:472-478 | over a run of events the x offsets sum to last x minus the starting x, and the y offsets sum to the starting y minus last y |
| `Controls.App.ScrollCallback` | src/main.cpp:481-483 | the camera receives exactly one scroll call carrying the vertical offset; the horizontal offset is dropped |
| `Controls.App.SetWireframeMode` | src/main.cpp:450-456 | the polygon mode becomes LINE when the flag is on and FILL otherwise |
| `Controls.App.KeyCallback` | src/main.cpp:385-395 | the wireframe flag flips only on a grave-accent press, and the polygon mode follows it; an escape press sets the close request; the pointer state is untouched |
| `Controls.WireframeParity` | src/main.cpp:386-390 | after a run of key events, the flag is flipped exactly when an odd number of them were grave-accent presses |
| `Controls.TwoTogglesRestore` | src/main.cpp:386-390 | two grave-accent presses, with any non-toggling events between them, restore the flag |

## Left out

- The camera implementation (movement, mouse look with its pitch clamp, zoom clamp, view matrix). `CAMERA.h` is not part of this model. The camera only records its calls, so the camera's constructor arguments at src/main.cpp:25 are not recorded.
- `VERTICAL_AXIS` (used at src/main.cpp:426): its definition is not part of this model. `ProcessInput` takes its value as the parameter `vAxis`, and any integer is accepted.
- `deltaTime` and its computation from the clock (src/main.cpp:251-253): this is a time source. `ProcessInput` takes the time step as a `real` parameter.
- Floating point: cursor positions, offsets and time steps are `real`. The `double` to `float` casts of `mouse_callback` and `scroll_callback` are not modelled.
- The fullscreen switch in `key_callback` (src/main.cpp:397-420): it depends on live monitor queries and video modes.
- The console messages printed by `key_callback`: output only.
- The GL call made by `setWireframeMode` and GLFW's window close flag: they are modelled only as the fields `polygonMode` and `windowShouldClose`.
- Window, context, monitor and icon setup, GLAD loading, buffer setup, the render loop and shader uniforms (src/main.cpp:48-383): graphics-API plumbing.
- `framebuffer_size_callback`, `error_callback` and `loadTexture`: viewport, logging and texture file I/O calls.
- `src/includes/MATERIAL.h`, `src/level_editor.cpp`, `src/level_editor.h` and the root `main.cpp` demo: shader uniform plumbing, a file reader, and a copy of the same wireframe-toggle shape.
- Callback ordering and concurrency: GLFW delivers callbacks on the main thread between frames. Each callback is modelled as one sequential method call.
