/** The capability provider (GLFW) as seen by the binding layer: the constants
    of glfw3.h that the layer uses, window handles, and an abstract record of
    the provider's state that the layer queries and updates. */
module Glfw {

  // Input action codes.
  const RELEASE: int := 0
  const PRESS: int := 1
  const REPEAT: int := 2

  // Identifier ranges scanned by the dense enumerations.
  const KEY_SPACE: int := 32
  const KEY_LAST: int := 348
  const MOUSE_BUTTON_1: int := 0
  const MOUSE_BUTTON_LAST: int := 7
  const JOYSTICK_1: int := 0
  const JOYSTICK_LAST: int := 15
  const GAMEPAD_BUTTON_LAST: int := 14
  const GAMEPAD_AXIS_LAST: int := 5

  // Values of the GLFW_CURSOR input mode.
  const CURSOR_NORMAL: int := 0x0003_4001
  const CURSOR_HIDDEN: int := 0x0003_4002
  const CURSOR_DISABLED: int := 0x0003_4003

  /** A `GLFWwindow*`: either NULL or the identity of one native window. */
  datatype Handle = Null | Window(id: nat)

  datatype VideoMode = VideoMode(width: int, height: int, refreshRate: int)

  /** A monitor; `mode` is what glfwGetVideoMode reports for it (NULL as None). */
  datatype Monitor = Monitor(id: nat, mode: Option<VideoMode>)

  datatype Option<T> = None | Some(value: T)

  /** What the provider knows about one window. Per-identifier input state is a
      function from the raw identifier to the action code GLFW reports for it. */
  datatype WindowState = WindowState(
    monitor: Option<Monitor>,
    x: int, y: int,
    width: int, height: int,
    keys: int -> int,
    mouseButtons: int -> int,
    cursorMode: int)

  /** glfwGetGamepadState's result: button action codes by button identifier. */
  datatype GamepadState = GamepadState(buttons: int -> int)

  /** One joystick slot: glfwJoystickPresent, glfwJoystickIsGamepad, and the
      gamepad state when glfwGetGamepadState succeeds. */
  datatype Joystick = Joystick(present: bool, isGamepad: bool, state: Option<GamepadState>)

  datatype Provider = Provider(
    windows: map<nat, WindowState>,
    primary: Option<Monitor>,
    joysticks: int -> Joystick)
  {
    /** The handle is NULL or names a window the provider knows: the binding
        layer is never handed a dangling window handle. */
    predicate Live(w: Handle) {
      w.Window? ==> w.id in windows
    }

    /** glfwSetWindowMonitor, assumed to set exactly the monitor, position and
        size it is given (the refresh rate is not part of the record). */
    function SetWindowMonitor(id: nat, monitor: Option<Monitor>, x: int, y: int, width: int, height: int): (p: Provider)
      requires id in windows
      ensures p.windows.Keys == windows.Keys && p.primary == primary
    {
      this.(windows := windows[id := windows[id].(monitor := monitor, x := x, y := y, width := width, height := height)])
    }

    /** glfwSetInputMode(window, GLFW_CURSOR, mode). */
    function SetInputMode(id: nat, mode: int): (p: Provider)
      requires id in windows
      ensures p.windows.Keys == windows.Keys
    {
      this.(windows := windows[id := windows[id].(cursorMode := mode)])
    }
  }
}
