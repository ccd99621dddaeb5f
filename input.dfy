/** The polled input queries: pressed keys and mouse buttons of a window, the
    joystick slots that are gamepads, and the pressed buttons of a gamepad. Each
    is a count/at pair over one identifier range (module Enumeration). */
module Input {
  import opened Glfw
  import opened Enumeration

  /** A key counts as pressed when GLFW reports it pressed or repeating. */
  predicate KeyDown(action: int) {
    action == PRESS || action == REPEAT
  }

  function KeyActive(ws: WindowState): (active: int -> bool) {
    k => KeyDown(ws.keys(k))
  }

  function MouseButtonActive(ws: WindowState): (active: int -> bool) {
    b => ws.mouseButtons(b) == PRESS
  }

  /** A joystick slot is enumerated when it is both present and a gamepad. */
  function GamepadSlot(p: Provider): (active: int -> bool) {
    jid => p.joysticks(jid).present && p.joysticks(jid).isGamepad
  }

  function GamepadButtonActive(g: GamepadState): (active: int -> bool) {
    b => g.buttons(b) == PRESS
  }

  // ---- Keyboard ----

  method PressedKeyCount(p: Provider, w: Handle) returns (count: int)
    requires p.Live(w)
    ensures w.Null? ==> count == 0
    ensures w.Window? ==> count == |Actives(KEY_SPACE, KEY_LAST, KeyActive(p.windows[w.id]))|
  {
    if w.Null? {
      return 0;
    }
    count := CountActive(KEY_SPACE, KEY_LAST, KeyActive(p.windows[w.id]));
  }

  method PressedKeyAt(p: Provider, w: Handle, index: int) returns (key: int)
    requires p.Live(w)
    ensures w.Null? ==> key == -1
    ensures w.Window? ==> key == At(KEY_SPACE, KEY_LAST, KeyActive(p.windows[w.id]), index)
  {
    if w.Null? || index < 0 {
      return -1;
    }
    key := ActiveAt(KEY_SPACE, KEY_LAST, KeyActive(p.windows[w.id]), index);
  }

  // ---- Mouse buttons ----

  method PressedMouseButtonCount(p: Provider, w: Handle) returns (count: int)
    requires p.Live(w)
    ensures w.Null? ==> count == 0
    ensures w.Window? ==> count == |Actives(MOUSE_BUTTON_1, MOUSE_BUTTON_LAST, MouseButtonActive(p.windows[w.id]))|
  {
    if w.Null? {
      return 0;
    }
    count := CountActive(MOUSE_BUTTON_1, MOUSE_BUTTON_LAST, MouseButtonActive(p.windows[w.id]));
  }

  method PressedMouseButtonAt(p: Provider, w: Handle, index: int) returns (button: int)
    requires p.Live(w)
    ensures w.Null? ==> button == -1
    ensures w.Window? ==> button == At(MOUSE_BUTTON_1, MOUSE_BUTTON_LAST, MouseButtonActive(p.windows[w.id]), index)
  {
    if w.Null? || index < 0 {
      return -1;
    }
    button := ActiveAt(MOUSE_BUTTON_1, MOUSE_BUTTON_LAST, MouseButtonActive(p.windows[w.id]), index);
  }

  // ---- Gamepads ----

  method GamepadCount(p: Provider) returns (count: int)
    ensures count == |Actives(JOYSTICK_1, JOYSTICK_LAST, GamepadSlot(p))|
  {
    count := CountActive(JOYSTICK_1, JOYSTICK_LAST, GamepadSlot(p));
  }

  /** Both the internal slot lookup and the exported gamepad id query: the
      index-th present gamepad slot, or -1. */
  method GamepadJidAt(p: Provider, index: int) returns (jid: int)
    ensures jid == At(JOYSTICK_1, JOYSTICK_LAST, GamepadSlot(p), index)
  {
    if index < 0 {
      return -1;
    }
    jid := ActiveAt(JOYSTICK_1, JOYSTICK_LAST, GamepadSlot(p), index);
  }

  /** The gamepad state of the index-th gamepad, when the index resolves to a
      slot and the provider can read that slot's state. */
  function ResolvedState(p: Provider, index: int): (state: Option<GamepadState>) {
    var jid := At(JOYSTICK_1, JOYSTICK_LAST, GamepadSlot(p), index);
    if jid < 0 then None else p.joysticks(jid).state
  }

  method GamepadAxisCount(p: Provider, index: int) returns (count: int)
    ensures count == (if ResolvedState(p, index).Some? then GAMEPAD_AXIS_LAST + 1 else 0)
  {
    var jid := GamepadJidAt(p, index);
    if jid < 0 {
      return 0;
    }
    if p.joysticks(jid).state.None? {
      return 0;
    }
    count := GAMEPAD_AXIS_LAST + 1;
  }

  method GamepadPressedButtonCount(p: Provider, index: int) returns (count: int)
    ensures ResolvedState(p, index).None? ==> count == 0
    ensures ResolvedState(p, index).Some? ==>
      count == |Actives(0, GAMEPAD_BUTTON_LAST, GamepadButtonActive(ResolvedState(p, index).value))|
  {
    var jid := GamepadJidAt(p, index);
    if jid < 0 {
      return 0;
    }
    var state := p.joysticks(jid).state;
    if state.None? {
      return 0;
    }
    count := CountActive(0, GAMEPAD_BUTTON_LAST, GamepadButtonActive(state.value));
  }

  method GamepadPressedButtonAt(p: Provider, gamepadIndex: int, buttonIndex: int) returns (button: int)
    ensures ResolvedState(p, gamepadIndex).None? ==> button == -1
    ensures ResolvedState(p, gamepadIndex).Some? ==>
      button == At(0, GAMEPAD_BUTTON_LAST, GamepadButtonActive(ResolvedState(p, gamepadIndex).value), buttonIndex)
  {
    if buttonIndex < 0 {
      return -1;
    }
    var jid := GamepadJidAt(p, gamepadIndex);
    if jid < 0 {
      return -1;
    }
    var state := p.joysticks(jid).state;
    if state.None? {
      return -1;
    }
    button := ActiveAt(0, GAMEPAD_BUTTON_LAST, GamepadButtonActive(state.value), buttonIndex);
  }

  /** With no gamepad connected, the count is 0 and no index resolves. */
  lemma NoGamepads(p: Provider, index: int)
    requires forall jid :: !p.joysticks(jid).present
    ensures |Actives(JOYSTICK_1, JOYSTICK_LAST, GamepadSlot(p))| == 0
    ensures At(JOYSTICK_1, JOYSTICK_LAST, GamepadSlot(p), index) == -1
  {
    ActivesEmpty(JOYSTICK_1, JOYSTICK_LAST, GamepadSlot(p));
  }
}
