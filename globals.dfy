/** The binding layer's process-wide state: the windowed-geometry snapshot used
    to leave fullscreen, the one input-focused window, and the scroll totals
    accumulated for it between polls. */
module Globals {
  import opened Glfw
  import opened Title

  const FALLBACK_WIDTH: int := 800
  const FALLBACK_HEIGHT: int := 600

  /** 1 when the window has a monitor assigned, else 0; NULL is never fullscreen. */
  function IsFullscreen(p: Provider, w: Handle): (r: int)
    requires p.Live(w)
    ensures r == 0 || r == 1
    ensures r == 1 <==> w.Window? && p.windows[w.id].monitor.Some?
  {
    if w.Null? then 0 else if p.windows[w.id].monitor.Some? then 1 else 0
  }

  /** The primary monitor exists and reports a video mode. */
  predicate HasVideoMode(p: Provider) {
    p.primary.Some? && p.primary.value.mode.Some?
  }

  /** A stored dimension for the restore, replaced by the fallback when it is
      not positive (never captured or misreported). */
  function RestoreSize(stored: int, fallback: int): (size: int)
    ensures stored > 0 ==> size == stored
    ensures stored <= 0 ==> size == fallback
  {
    if stored <= 0 then fallback else stored
  }

  class Context {
    var windowedX: int
    var windowedY: int
    var windowedWidth: int
    var windowedHeight: int
    var inputWindow: Handle
    var scrollX: real
    var scrollY: real

    /** The windowed-geometry snapshot as one value. */
    function Snapshot(): (s: (int, int, int, int))
      reads this
    {
      (windowedX, windowedY, windowedWidth, windowedHeight)
    }

    /** The window scroll events and takes are honoured for: non-NULL and focused. */
    predicate Focused(w: Handle)
      reads this
    {
      w.Window? && w == inputWindow
    }

    /** The state at load time: snapshot (100, 100, 800, 600), no focused
        window, both totals zero. */
    constructor ()
      ensures Snapshot() == (100, 100, FALLBACK_WIDTH, FALLBACK_HEIGHT)
      ensures inputWindow == Null && scrollX == 0.0 && scrollY == 0.0
    {
      windowedX, windowedY := 100, 100;
      windowedWidth, windowedHeight := FALLBACK_WIDTH, FALLBACK_HEIGHT;
      inputWindow := Null;
      scrollX, scrollY := 0.0, 0.0;
    }

    // ---- Scroll accumulator ----

    /** The scroll notification: both deltas are added for the focused window;
        an event for any other window, or for NULL, changes nothing. */
    method ScrollCallback(w: Handle, dx: real, dy: real)
      modifies this`scrollX, this`scrollY
      ensures Focused(w) ==> scrollX == old(scrollX) + dx && scrollY == old(scrollY) + dy
      ensures !Focused(w) ==> scrollX == old(scrollX) && scrollY == old(scrollY)
    {
      if w.Null? || w != inputWindow {
        return;
      }
      scrollX := scrollX + dx;
      scrollY := scrollY + dy;
    }

    /** Return the horizontal total and reset it; Y is not touched. NULL or an
        unfocused window reads 0 and changes nothing. */
    method TakeScrollX(w: Handle) returns (v: real)
      modifies this`scrollX
      ensures Focused(w) ==> v == old(scrollX) && scrollX == 0.0
      ensures !Focused(w) ==> v == 0.0 && scrollX == old(scrollX)
    {
      if w.Null? || w != inputWindow {
        return 0.0;
      }
      v := scrollX;
      scrollX := 0.0;
    }

    /** Return the vertical total and reset it; X is not touched. */
    method TakeScrollY(w: Handle) returns (v: real)
      modifies this`scrollY
      ensures Focused(w) ==> v == old(scrollY) && scrollY == 0.0
      ensures !Focused(w) ==> v == 0.0 && scrollY == old(scrollY)
    {
      if w.Null? || w != inputWindow {
        return 0.0;
      }
      v := scrollY;
      scrollY := 0.0;
    }

    /** Take semantics: a second take with no event in between reads 0, and the
        other axis keeps its total throughout. */
    method TakeScrollXTwice(w: Handle) returns (first: real, second: real)
      modifies this`scrollX
      ensures first == (if Focused(w) then old(scrollX) else 0.0)
      ensures second == 0.0
      ensures scrollY == old(scrollY)
    {
      first := TakeScrollX(w);
      second := TakeScrollX(w);
    }

    // ---- Fullscreen ----

    /** Enter or leave fullscreen and report the re-queried state.
        Entering snapshots the windowed position and size, then puts the window
        on the primary monitor at that monitor's video mode; leaving detaches the
        monitor and restores the snapshot, with 800x600 for non-positive sizes.
        Every early return (NULL, already in the requested state, no primary
        monitor, no video mode) leaves both the provider and the snapshot alone. */
    method SetFullscreen(p: Provider, w: Handle, enabled: int) returns (r: int, p': Provider)
      requires p.Live(w)
      modifies this`windowedX, this`windowedY, this`windowedWidth, this`windowedHeight
      ensures p'.Live(w) && p'.windows.Keys == p.windows.Keys
      ensures r == IsFullscreen(p', w)
      ensures w.Null? ==> r == 0 && p' == p && Snapshot() == old(Snapshot())
      ensures w.Window? && enabled != 0 && IsFullscreen(p, w) == 1 ==>
        r == 1 && p' == p && Snapshot() == old(Snapshot())
      ensures w.Window? && enabled != 0 && IsFullscreen(p, w) == 0 && !HasVideoMode(p) ==>
        r == 0 && p' == p && Snapshot() == old(Snapshot())
      ensures w.Window? && enabled != 0 && IsFullscreen(p, w) == 0 && HasVideoMode(p) ==>
        var ws, mode := p.windows[w.id], p.primary.value.mode.value;
        && Snapshot() == (ws.x, ws.y, ws.width, ws.height)
        && p' == p.SetWindowMonitor(w.id, p.primary, 0, 0, mode.width, mode.height)
        && r == 1
      ensures w.Window? && enabled == 0 && IsFullscreen(p, w) == 0 ==>
        r == 0 && p' == p && Snapshot() == old(Snapshot())
      ensures w.Window? && enabled == 0 && IsFullscreen(p, w) == 1 ==>
        && Snapshot() == old(Snapshot())
        && p' == p.SetWindowMonitor(w.id, None, windowedX, windowedY,
                                    RestoreSize(windowedWidth, FALLBACK_WIDTH),
                                    RestoreSize(windowedHeight, FALLBACK_HEIGHT))
        && r == 0
    {
      p' := p;
      if w.Null? {
        return 0, p';
      }
      var isFullscreen := IsFullscreen(p, w);
      if enabled != 0 {
        if isFullscreen == 1 {
          return 1, p';
        }
        var monitor := p.primary;
        if monitor.None? {
          return 0, p';
        }
        var mode := monitor.value.mode;
        if mode.None? {
          return 0, p';
        }
        var ws := p.windows[w.id];
        windowedX, windowedY := ws.x, ws.y;
        windowedWidth, windowedHeight := ws.width, ws.height;
        p' := p.SetWindowMonitor(w.id, monitor, 0, 0, mode.value.width, mode.value.height);
        return IsFullscreen(p', w), p';
      }
      if isFullscreen == 0 {
        return 0, p';
      }
      var restoreWidth := if windowedWidth <= 0 then FALLBACK_WIDTH else windowedWidth;
      var restoreHeight := if windowedHeight <= 0 then FALLBACK_HEIGHT else windowedHeight;
      p' := p.SetWindowMonitor(w.id, None, windowedX, windowedY, restoreWidth, restoreHeight);
      r := IsFullscreen(p', w);
    }

    /** Entering twice: both calls report fullscreen and the second neither
        touches the provider nor overwrites the snapshot. */
    method EnterFullscreenTwice(p: Provider, w: Handle) returns (r1: int, r2: int, p2: Provider)
      requires p.Live(w) && w.Window? && (IsFullscreen(p, w) == 1 || HasVideoMode(p))
      modifies this`windowedX, this`windowedY, this`windowedWidth, this`windowedHeight
      ensures r1 == 1 && r2 == 1
      ensures IsFullscreen(p, w) == 1 ==> Snapshot() == old(Snapshot()) && p2 == p
      ensures IsFullscreen(p, w) == 0 ==>
        var ws, mode := p.windows[w.id], p.primary.value.mode.value;
        && Snapshot() == (ws.x, ws.y, ws.width, ws.height)
        && p2 == p.SetWindowMonitor(w.id, p.primary, 0, 0, mode.width, mode.height)
    {
      var p1;
      r1, p1 := SetFullscreen(p, w, 1);
      ghost var afterFirst := Snapshot();
      r2, p2 := SetFullscreen(p1, w, 1);
      assert p2 == p1 && Snapshot() == afterFirst;
    }

    /** The geometry round trip: entering and then leaving fullscreen puts the
        window back where it was, at the size it had, except that a
        non-positive size comes back as 800x600. Nothing else about the window
        changes. */
    method FullscreenRoundTrip(p: Provider, w: Handle) returns (entered: int, left: int, p2: Provider)
      requires p.Live(w) && w.Window? && IsFullscreen(p, w) == 0 && HasVideoMode(p)
      modifies this`windowedX, this`windowedY, this`windowedWidth, this`windowedHeight
      ensures entered == 1 && left == 0
      ensures p2.Live(w) && p2.windows.Keys == p.windows.Keys
      ensures var before := p.windows[w.id];
        p2.windows[w.id] == before.(width := RestoreSize(before.width, FALLBACK_WIDTH),
                                    height := RestoreSize(before.height, FALLBACK_HEIGHT))
      ensures forall id :: id in p.windows && id != w.id ==> p2.windows[id] == p.windows[id]
    {
      var p1;
      entered, p1 := SetFullscreen(p, w, 1);
      left, p2 := SetFullscreen(p1, w, 0);
    }

    // ---- Window creation ----

    /** Create a window: convert the title, hand it to the provider, and make
        the provider's answer (possibly NULL) the focused window with both
        scroll totals zeroed. `created` is what glfwCreateWindow returns. */
    method CreateWindowSafe(title: Option<seq<uint16>>, created: Handle) returns (w: Handle, name: string)
      requires title.Some? ==> Readable(title.value)
      modifies this`inputWindow, this`scrollX, this`scrollY
      ensures name == TitleFrom(title)
      ensures w == created && inputWindow == created
      ensures scrollX == 0.0 && scrollY == 0.0
    {
      name := ConvertTitle(title);
      w := created;
      inputWindow := w;
      scrollX, scrollY := 0.0, 0.0;
    }

    /** A second window takes the focus: from then on scroll events for the
        first one are discarded and its takes read 0. */
    method SecondWindowTakesFocus(first: Handle, second: Handle, dx: real, dy: real) returns (taken: real)
      requires first != second
      modifies this`inputWindow, this`scrollX, this`scrollY
      ensures inputWindow == second && scrollX == 0.0 && scrollY == 0.0
      ensures taken == 0.0
    {
      var w, name := CreateWindowSafe(None, first);
      w, name := CreateWindowSafe(None, second);
      ScrollCallback(first, dx, dy);
      taken := TakeScrollX(first);
    }
  }
}
