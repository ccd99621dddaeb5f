/** The cursor mode: the binding layer's tri-state {Normal = 0, Hidden = 1,
    Disabled = 2} and its projection onto GLFW's cursor input mode. */
module Cursor {
  import opened Glfw

  /** GLFW cursor mode to tri-state; anything unknown reads as Normal. */
  function ModeFromGlfw(glfwMode: int): (mode: int)
    ensures 0 <= mode <= 2
    ensures mode == 1 <==> glfwMode == CURSOR_HIDDEN
    ensures mode == 2 <==> glfwMode == CURSOR_DISABLED
  {
    if glfwMode == CURSOR_HIDDEN then 1
    else if glfwMode == CURSOR_DISABLED then 2
    else 0
  }

  /** Tri-state to GLFW cursor mode; anything outside {0, 1, 2} asks for Normal. */
  function ModeToGlfw(mode: int): (glfwMode: int)
    ensures glfwMode in {CURSOR_NORMAL, CURSOR_HIDDEN, CURSOR_DISABLED}
    ensures glfwMode == CURSOR_HIDDEN <==> mode == 1
    ensures glfwMode == CURSOR_DISABLED <==> mode == 2
  {
    if mode == 1 then CURSOR_HIDDEN
    else if mode == 2 then CURSOR_DISABLED
    else CURSOR_NORMAL
  }

  /** The mapping is a bijection between {0, 1, 2} and the three GLFW modes,
      with Normal the default in both directions. */
  lemma ModeRoundTrip(mode: int, glfwMode: int)
    ensures 0 <= mode <= 2 ==> ModeFromGlfw(ModeToGlfw(mode)) == mode
    ensures !(0 <= mode <= 2) ==> ModeToGlfw(mode) == CURSOR_NORMAL
    ensures glfwMode in {CURSOR_NORMAL, CURSOR_HIDDEN, CURSOR_DISABLED} ==> ModeToGlfw(ModeFromGlfw(glfwMode)) == glfwMode
    ensures glfwMode !in {CURSOR_NORMAL, CURSOR_HIDDEN, CURSOR_DISABLED} ==> ModeFromGlfw(glfwMode) == 0
  {
  }

  /** Read the window's cursor mode; a NULL window reads as Normal. */
  function GetCursorMode(p: Provider, w: Handle): (mode: int)
    requires p.Live(w)
    ensures 0 <= mode <= 2
    ensures w.Null? ==> mode == 0
  {
    if w.Null? then 0 else ModeFromGlfw(p.windows[w.id].cursorMode)
  }

  /** Apply a cursor mode and report the mode read back afterwards; on a NULL
      window nothing changes and the result is 0. */
  function SetCursorMode(p: Provider, w: Handle, mode: int): (res: (int, Provider))
    requires p.Live(w)
    ensures res.1.Live(w) && res.1.windows.Keys == p.windows.Keys
    ensures res.0 == GetCursorMode(res.1, w)
    ensures w.Null? ==> res == (0, p)
  {
    if w.Null? then (0, p)
    else
      var p' := p.SetInputMode(w.id, ModeToGlfw(mode));
      (ModeFromGlfw(p'.windows[w.id].cursorMode), p')
  }

  /** Setting any of the three modes and reading back gives that mode; any
      other request leaves the window in Normal mode. */
  lemma SetThenGet(p: Provider, w: Handle, mode: int)
    requires p.Live(w) && w.Window?
    ensures var (res, p') := SetCursorMode(p, w, mode);
      res == GetCursorMode(p', w) == (if 0 <= mode <= 2 then mode else 0)
  {
  }
}
