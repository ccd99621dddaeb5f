# glfw-mbt binding layer, modelled in Dafny

This project models the logic of `src/glfw_stub.c`, the C layer that exposes
GLFW windowing and input to MoonBit. GLFW itself is replaced by an abstract
provider state (`Glfw.Provider`). That record holds, per window, the assigned
monitor, the position and size, the key and mouse-button action codes and the
cursor input mode. It also holds the primary monitor with its video mode and
the joystick slots with their gamepad state. On top of it the model covers:

- the fullscreen state machine and its windowed-geometry snapshot
  (`Globals.Context.SetFullscreen`, `Globals.IsFullscreen`);
- the scroll accumulator and its single focused window
  (`ScrollCallback`, `TakeScrollX`, `TakeScrollY`, and the focus reset in
  `CreateWindowSafe`);
- the dense count/at enumerations over sparse identifier ranges: keys
  `GLFW_KEY_SPACE..GLFW_KEY_LAST` (pressed or repeating), mouse buttons,
  joystick slots that are present gamepads, and gamepad buttons. They share
  one specification, `Enumeration.Actives`, and one pair of loops,
  `Enumeration.CountActive` and `Enumeration.ActiveAt`;
- the cursor-mode mapping between the tri-state {Normal 0, Hidden 1,
  Disabled 2} and GLFW's cursor modes, with get/set read-back;
- the title conversion: a NUL-terminated UTF-16 buffer becomes a C string of at
  most 255 narrow characters.

The module globals (`g_windowed_*`, `g_input_window`, `g_scroll_x/y`) are the
fields of the class `Globals.Context`. Calls that change GLFW's state take the
provider value and return the new one.

GLFW constants are the values of `glfw3.h` (GLFW 3.3/3.4). That header is not
part of this model: `KEY_SPACE = 32`, `KEY_LAST = 348`, mouse buttons `0..7`,
joysticks `0..15`, gamepad buttons `0..14`, gamepad axes `0..5`, `PRESS = 1`,
`REPEAT = 2`, and cursor modes `0x34001`, `0x34002` and `0x34003`.

Files: `glfw.dfy` (constants and provider state), `enumeration.dfy`,
`input.dfy`, `cursor.dfy`, `title.dfy`, `globals.dfy`.

## Model

| member | source | states |
|---|---|---|
| Enumeration.Actives | src/glfw_stub.c:236-241 | the active identifiers of a range: at most one per identifier, every one in range and active, strictly ascending |
| Enumeration.At | src/glfw_stub.c:245-260 | the index-th active identifier; -1 exactly when the index is negative or not below the count, otherwise an in-range active identifier |
| Enumeration.ActivesComplete | src/glfw_stub.c:236-241 | every active identifier of the range is enumerated (no identifier is skipped) |
| Enumeration.ActivesEmpty | src/glfw_stub.c:231-243 | for every count function (keys here; likewise mouse buttons at 264-276, joystick slots at 347-355, gamepad buttons at 388-404): the count is zero exactly when no identifier of the range is active |
| Enumeration.AtRank | src/glfw_stub.c:249-259 | independent description of at: at(i) = id iff id is in range, active, and has exactly i active identifiers below it |
| Enumeration.EnumerationLaw | src/glfw_stub.c:231-260 | at over [0, count) yields count distinct in-range active identifiers in strictly ascending order, covering every active identifier; at(count) and at(-1) are -1 |
| Enumeration.CountActive | src/glfw_stub.c:235-242 | the counting loop returns the number of active identifiers of the range |
| Enumeration.ActiveAt | src/glfw_stub.c:249-259 | the running-index loop returns at(index) for a non-negative index |
| Input.PressedKeyCount | src/glfw_stub.c:231-243 | 0 for NULL; otherwise the number of keys in KEY_SPACE..KEY_LAST that are pressed or repeating |
| Input.PressedKeyAt | src/glfw_stub.c:245-260 | -1 for NULL or a negative index; otherwise the index-th pressed key in ascending order, or -1 |
| Input.PressedMouseButtonCount | src/glfw_stub.c:264-276 | 0 for NULL; otherwise the number of mouse buttons 0..7 reported PRESS |
| Input.PressedMouseButtonAt | src/glfw_stub.c:278-293 | -1 for NULL or a negative index; otherwise the index-th pressed mouse button, or -1 |
| Input.GamepadCount | src/glfw_stub.c:347-355 | the number of joystick slots 0..15 that are both present and gamepads |
| Input.GamepadJidAt | src/glfw_stub.c:327-359 | the index-th present gamepad slot in ascending order, -1 for a negative or too-large index (also the exported gamepad_id_at) |
| Input.GamepadAxisCount | src/glfw_stub.c:361-371 | 6 when the index resolves to a slot whose gamepad state is readable, else 0 |
| Input.GamepadPressedButtonCount | src/glfw_stub.c:388-404 | 0 when the gamepad does not resolve or its state is unreadable; otherwise the number of buttons 0..14 reported PRESS |
| Input.GamepadPressedButtonAt | src/glfw_stub.c:406-428 | -1 for a negative button index or an unresolved gamepad; otherwise the button-index-th pressed button, or -1 |
| Input.NoGamepads | src/glfw_stub.c:347-359 | with no joystick present the gamepad count is 0 and every id lookup is -1 |
| Cursor.ModeFromGlfw | src/glfw_stub.c:148-158 | result in {0,1,2}; 1 iff HIDDEN, 2 iff DISABLED, so NORMAL and every unknown mode give 0 |
| Cursor.ModeToGlfw | src/glfw_stub.c:160-170 | result is one of the three GLFW modes; HIDDEN iff 1, DISABLED iff 2, NORMAL for 0 and everything else |
| Cursor.ModeRoundTrip | src/glfw_stub.c:148-170 | from(to(m)) = m for m in {0,1,2}; to(from(g)) = g for the three GLFW modes; out-of-range modes go to NORMAL and unknown GLFW modes to 0 |
| Cursor.GetCursorMode | src/glfw_stub.c:181-187 | a mode in {0,1,2}; 0 for NULL |
| Cursor.SetCursorMode | src/glfw_stub.c:172-179 | returns the mode read back after setting; NULL returns 0 and changes nothing |
| Cursor.SetThenGet | src/glfw_stub.c:172-187 | setting m in {0,1,2} then getting returns m; any other request reads back as Normal |
| Title.ScanEnd | src/glfw_stub.c:493 | the copy stops at the first NUL or at 255 units, every unit before it being non-NUL |
| Title.TitleFrom | src/glfw_stub.c:489-504 | "Window" for NULL; otherwise length min(255, first NUL), each char the code unit if below 0x80 and '?' otherwise |
| Title.ConvertTitle | src/glfw_stub.c:490-504 | the buffer-filling loop produces exactly TitleFrom of the input |
| Globals.IsFullscreen | src/glfw_stub.c:90-95 | 1 iff the handle is non-NULL and its window has a monitor, else 0 |
| Globals.RestoreSize | src/glfw_stub.c:132-133 | the stored dimension when positive, the fallback otherwise |
| Globals.Context.constructor | src/glfw_stub.c:35-41 | initial snapshot (100, 100, 800, 600), no focused window, zero totals |
| Globals.Context.ScrollCallback | src/glfw_stub.c:45-51 | both deltas are added only for the non-NULL focused window; otherwise nothing changes |
| Globals.Context.TakeScrollX | src/glfw_stub.c:211-218 | focused: returns the X total and zeroes it, Y untouched; NULL or unfocused: 0 and no change |
| Globals.Context.TakeScrollY | src/glfw_stub.c:220-227 | focused: returns the Y total and zeroes it, X untouched; NULL or unfocused: 0 and no change |
| Globals.Context.TakeScrollXTwice | src/glfw_stub.c:211-218 | two takes with no event between: the first reads the total, the second 0 |
| Globals.Context.SetFullscreen | src/glfw_stub.c:97-144 | the whole state machine: each early return leaves provider and snapshot alone; entering snapshots the geometry and assigns the primary monitor at its video mode; leaving restores the snapshot with the 800x600 fallback; the result is the re-queried state |
| Globals.Context.EnterFullscreenTwice | src/glfw_stub.c:102-106 | entering twice returns 1 both times, also when already fullscreen with no primary monitor; the second call changes neither provider nor snapshot, so the final provider is the one the first call produced |
| Globals.Context.FullscreenRoundTrip | src/glfw_stub.c:115-143 | enter then leave restores position and size (non-positive sizes become 800x600) and nothing else of any window changes |
| Globals.Context.CreateWindowSafe | src/glfw_stub.c:488-519 | the title passed on is TitleFrom(title); the returned handle, even NULL, becomes the focused window; both totals become 0 |
| Globals.Context.SecondWindowTakesFocus | src/glfw_stub.c:509-512 | after a second window is created, scroll events for the first are discarded and its takes read 0 |

## Left out

- The GLFW calls are not modelled as code. `glfwGetKey`, `glfwGetMouseButton`, `glfwJoystickPresent`, `glfwJoystickIsGamepad`, `glfwGetGamepadState`, `glfwGetWindowMonitor`, `glfwGetPrimaryMonitor`, `glfwGetVideoMode`, `glfwGetWindowPos` and `glfwGetWindowSize` are reads of the provider record. `glfwSetWindowMonitor` and `glfwSetInputMode` are assumed to set exactly what they are given.
- Globals.Context.CreateWindowSafe: the result of `glfwCreateWindow` is a parameter. The width, height and window hints (lines 506-507) are not modelled, and the provider's window table does not grow.
- Registering the scroll callback and calling the platform setup hook (lines 513-516, 26-31) are left out. The hook is implemented in a macOS file that is not part of this model.
- Scroll deltas are doubles in C and `real` here. Only addition and reset to zero are modelled; rounding is not.
- Globals.Context.SetFullscreen: the refresh rate passed to `glfwSetWindowMonitor` is not kept in the provider record.
- Window and framebuffer size getters (55-86), cursor position (189-207) and window attention (477-484) only pass calls through.
- Content-scale clamping (464-475) and gamepad axis values (373-386) work on floats and only pass values through.
- The touch stubs (297-322) and the fallback when gamepad mappings are missing (429-460) return constants.
- The MoonBit `struct $WindowSize` marshaling is not modelled.
- `int32_t` widths are not modelled: every count is at most 349 and all geometry values are passed through unchanged.
- Title.Readable: the caller's UTF-16 title buffer is assumed NUL-terminated or at least 255 units long. The C code reads it without any check (line 493), and reading past its end is undefined behaviour.
- A non-NULL window handle is assumed to name a window the provider knows (`Provider.Live`). The C code does not check this, and a dangling handle is undefined behaviour.
