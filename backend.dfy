/**
 * The stateful part of the Wayland backend: the window records
 * (OS_LNX_Window), the session singleton (OS_LNX_GfxState) with its live
 * and free window lists, the listener callbacks that update them, and the
 * event list the callbacks append to.  Requests sent to the compositor are
 * not executed; they are appended to an abstract request log so that the
 * contracts can say which request a callback issues.
 */
module Backend {
  import opened Protocol
  import opened Decoration
  import opened Input
  import opened Cursors

  /** OS_EventKind, restricted to the kinds this backend emits. */
  datatype EventKind = MouseMove | Press | Release | Scroll | Text | WindowClose

  /**
   * One OS_Event: the kind, the window handle (null is the zero handle) and
   * modifier snapshot that os_lnx_push_event fills in, and the payload the
   * caller sets (key, position in device pixels, vertical scroll delta,
   * character).  Fields a callback does not set stay zero; the horizontal
   * scroll delta is always zero and is left out.
   */
  datatype Event = Event(kind: EventKind, window: Window?, modifiers: bv32, key: Key,
                         x: real, y: real, deltaY: real, character: Uint32)

  /** The requests the backend sends to the compositor, as entries of an abstract log. */
  datatype Request =
    | SetMaximized(window: Window)
    | UnsetMaximized(window: Window)
    | SetFullscreen(window: Window)
    | UnsetFullscreen(window: Window)
    | ToplevelResize(window: Window, serial: Uint32, edge: Edge)
    | ToplevelMove(window: Window, serial: Uint32)
    | ShowWindowMenu(window: Window, serial: Uint32, x: int, y: int)
    | SetPointerCursor(serial: Uint32, name: string)
    | ResizeSurface(window: Window, width: int, height: int, framebufferWidth: int, framebufferHeight: int)
    | Commit(window: Window)
    | CreateToplevel(window: Window, title: string)
    | DestroyToplevel(window: Window)
    | Roundtrip
    | GetPointer
    | ReleasePointer
    | GetKeyboard
    | ReleaseKeyboard

  /** The toplevel request that a button decision stands for, with its window and serial. */
  function RequestsFor(w: Window, serial: Uint32, a: WmAction): (rs: seq<Request>)
    ensures a == NoAction <==> rs == []
    ensures |rs| <= 1
  {
    match a
    case NoAction => []
    case Maximize => [SetMaximized(w)]
    case Unmaximize => [UnsetMaximized(w)]
    case ResizeFrom(e) => [ToplevelResize(w, serial, e)]
    case DragMove => [ToplevelMove(w, serial)]
    case WindowMenu(x, y) => [ShowWindowMenu(w, serial, x, y)]
  }

  /** The press or release event pointer_handle_button appends: one for left, middle and right, none otherwise. */
  function ButtonEvents(w: Window, mods: bv32, x: real, y: real, button: Uint32, state: Uint32): (es: seq<Event>)
    ensures |es| == (if button == BtnLeft || button == BtnMiddle || button == BtnRight then 1 else 0)
    ensures forall e :: e in es ==> e.window == w && e.x == x && e.y == y && e.key == ButtonKey(button)
                                    && (e.kind == Press) == (state == ButtonStatePressed)
                                    && (e.kind == Press || e.kind == Release)
  {
    if ButtonKey(button) == Key.Null then []
    else [Event(if state == ButtonStatePressed then Press else Release, w, mods, ButtonKey(button), x, y, 0.0, 0)]
  }

  /** One Text event per codepoint, in order. */
  function TextEvents(cps: seq<Uint32>, w: Window?, mods: bv32): seq<Event> {
    seq(|cps|, k requires 0 <= k < |cps| => Event(Text, w, mods, Key.Null, 0.0, 0.0, 0.0, cps[k]))
  }

  /**
   * The vertical delta of pointer_handle_axis: a tenth of the axis value on
   * the vertical axis, zero on any other.
   */
  function ScrollDelta(axis: Uint32, value: real): (d: real)
    ensures axis != AxisVerticalScroll ==> d == 0.0
    ensures axis == AxisVerticalScroll ==> d * 10.0 == value
  {
    if axis == AxisVerticalScroll then value / 10.0 else 0.0
  }

  /** The press or release event of keyboard_handle_key. */
  function KeyEvent(code: Uint32, state: Uint32, w: Window?, mods: bv32): Event {
    Event(if state == KeyStatePressed then Press else Release, w, mods, KeyFromCode(code), 0.0, 0.0, 0.0, 0)
  }

  /** The client-area scan of pointer_handle_button: is (x, y) inside one of the areas? */
  method ScanClientAreas(areas: seq<Rect>, x: real, y: real) returns (over: bool)
    ensures over == InClientArea(areas, x, y)
  {
    over := false;
    var i := 0;
    while i < |areas|
      invariant 0 <= i <= |areas|
      invariant forall j :: 0 <= j < i ==> !InRect(areas[j], x, y)
    {
      if InRect(areas[i], x, y) {
        over := true;
        break;
      }
      i := i + 1;
    }
  }

  /** An OS_LNX_Window, without its native object handles. */
  class Window {
    var width: int
    var height: int
    var scale: real
    var mouseX: real
    var mouseY: real
    var lastClickTime: Uint32
    var lastClickX: real
    var lastClickY: real
    var isMaximized: bool
    var isFullscreen: bool
    var titleBarThickness: real
    var edgeThickness: real
    var clientAreas: seq<Rect>

    /** The scale factor and both dimensions stay positive. */
    ghost predicate Valid()
      reads this
    {
      scale > 0.0 && width > 0 && height > 0
    }

    /** The window's fields as a value. */
    function State(): WindowState
      reads this
    {
      WindowState(width, height, scale, mouseX, mouseY, lastClickTime, lastClickX, lastClickY,
                  isMaximized, isFullscreen, titleBarThickness, edgeThickness, clientAreas)
    }

    /** MemoryZeroStruct followed by the defaults os_window_open writes. */
    method Reset()
      modifies this
      ensures width == DefaultWidth && height == DefaultHeight && scale == 1.0
      ensures mouseX == 0.0 && mouseY == 0.0 && lastClickTime == 0 && lastClickX == 0.0 && lastClickY == 0.0
      ensures !isMaximized && !isFullscreen
      ensures titleBarThickness == 0.0 && edgeThickness == 0.0 && clientAreas == []
    {
      width, height, scale := DefaultWidth, DefaultHeight, 1.0;
      mouseX, mouseY, lastClickTime, lastClickX, lastClickY := 0.0, 0.0, 0, 0.0, 0.0;
      isMaximized, isFullscreen := false, false;
      titleBarThickness, edgeThickness, clientAreas := 0.0, 0.0, [];
    }
  }

  /** No element occurs twice. */
  ghost predicate Distinct<T>(s: seq<T>) {
    forall i, j :: 0 <= i < j < |s| ==> s[i] != s[j]
  }

  /** OS_LNX_GfxState together with the global event list. */
  class Session {
    var focused: Window?
    var pointerSerial: Uint32
    var forceBorderCursor: bool
    var hasPointer: bool
    var hasKeyboard: bool
    var hasXkbState: bool
    // The effective Shift, Ctrl and Alt state of the compiled keyboard state.
    var shiftActive: bool
    var ctrlActive: bool
    var altActive: bool
    var live: seq<Window>
    var free: seq<Window>
    var lastSetCursor: Cursor
    var events: seq<Event>
    var requests: seq<Request>

    /** A window sits at most once in the live list, at most once in the free list, and never in both. */
    ghost predicate Valid()
      reads this`live, this`free
    {
      Distinct(live) && Distinct(free) && forall w :: w in live ==> w !in free
    }

    /** The zeroed state os_gfx_init starts from. */
    constructor ()
      ensures Valid()
      ensures focused == null && pointerSerial == 0 && !forceBorderCursor
      ensures !hasPointer && !hasKeyboard && !hasXkbState
      ensures !shiftActive && !ctrlActive && !altActive
      ensures live == [] && free == [] && lastSetCursor == Pointer
      ensures events == [] && requests == []
    {
      focused := null;
      pointerSerial := 0;
      forceBorderCursor := false;
      hasPointer, hasKeyboard, hasXkbState := false, false, false;
      shiftActive, ctrlActive, altActive := false, false, false;
      live, free := [], [];
      lastSetCursor := Pointer;
      events, requests := [], [];
    }

    /** os_get_modifiers: one bit per active Shift, Ctrl and Alt modifier, nothing else. */
    function Modifiers(): (m: bv32)
      reads this`shiftActive, this`ctrlActive, this`altActive
      ensures (m & ModifierShift != 0) == shiftActive
      ensures (m & ModifierCtrl != 0) == ctrlActive
      ensures (m & ModifierAlt != 0) == altActive
      ensures m & !(ModifierShift | ModifierCtrl | ModifierAlt) == 0
    {
      ModifierMask(shiftActive, ctrlActive, altActive)
    }

    /** os_lnx_push_event with the payload the caller fills in. */
    method PushEvent(kind: EventKind, w: Window?, key: Key, x: real, y: real, deltaY: real, character: Uint32)
      modifies this`events
      ensures events == old(events) + [Event(kind, w, Modifiers(), key, x, y, deltaY, character)]
    {
      events := events + [Event(kind, w, Modifiers(), key, x, y, deltaY, character)];
    }

    /** set_cursor: shows a theme cursor, only while some window has the pointer. */
    method ShowCursor(name: string)
      modifies this`requests
      ensures requests == old(requests) + (if focused != null then [SetPointerCursor(pointerSerial, name)] else [])
    {
      if focused != null {
        requests := requests + [SetPointerCursor(pointerSerial, name)];
      }
    }

    // -------------------------------------------------------------------
    // Pointer listener.

    /** pointer_handle_enter. */
    method PointerEnter(serial: Uint32, w: Window?)
      modifies this`focused, this`pointerSerial
      ensures focused == w && pointerSerial == serial
    {
      focused := w;
      pointerSerial := serial;
    }

    /** pointer_handle_leave. */
    method PointerLeave()
      modifies this`focused
      ensures focused == null
    {
      focused := null;
    }

    /**
     * pointer_handle_motion, for a surface-local position (sx, sy): with no
     * focused window nothing happens; otherwise the position scaled to
     * device pixels is stored, a move event is appended there and the border
     * cursor is tracked.
     */
    method PointerMotion(sx: real, sy: real)
      modifies this`events, this`requests, this`forceBorderCursor, focused
      ensures focused == null ==> events == old(events) && requests == old(requests)
                                  && forceBorderCursor == old(forceBorderCursor)
      ensures focused != null ==>
                && focused.State() == AfterMotion(old(focused.State()), sx, sy)
                && events == old(events) + [Event(MouseMove, focused, Modifiers(), Key.Null,
                                                  focused.mouseX, focused.mouseY, 0.0, 0)]
                && forceBorderCursor == ForcesBorderCursor(focused.State())
                && requests == old(requests) + BorderCursorRequests(focused.State())
    {
      var w := focused;
      if w == null {
        return;
      }
      ghost var before := w.State();
      var x, y := sx * w.scale, sy * w.scale;
      w.mouseX := x;
      w.mouseY := y;
      assert w.State() == AfterMotion(before, sx, sy);
      events := events + [Event(MouseMove, w, Modifiers(), Key.Null, x, y, 0.0, 0)];
      TrackBorderCursor();
    }

    /** The set_cursor request of pointer_handle_motion: the edge's border cursor when it is forced, else none. */
    function BorderCursorRequests(s: WindowState): (rs: seq<Request>)
      reads this`pointerSerial
      ensures ForcesBorderCursor(s) <==> rs != []
      ensures rs != [] ==> rs == [SetPointerCursor(pointerSerial, BorderCursorName(EdgeUnderPointer(s)))]
    {
      if ForcesBorderCursor(s) then [SetPointerCursor(pointerSerial, BorderCursorName(EdgeUnderPointer(s)))] else []
    }

    /**
     * The end of pointer_handle_motion: on a resize edge of a window that is
     * neither maximized nor fullscreen, show the edge's border cursor and
     * force it; otherwise stop forcing.
     */
    method TrackBorderCursor()
      requires focused != null
      modifies this`requests, this`forceBorderCursor
      ensures forceBorderCursor == ForcesBorderCursor(focused.State())
      ensures requests == old(requests) + BorderCursorRequests(focused.State())
    {
      var w := focused;
      var edge := EdgeUnderPointer(w.State());
      if edge != None && !w.isMaximized && !w.isFullscreen {
        ShowCursor(BorderCursorName(edge));
        forceBorderCursor := true;
      } else {
        forceBorderCursor := false;
      }
    }

    /**
     * pointer_handle_button.  The source dereferences the focused window
     * without a check, so a focused window is required.  The request issued
     * is the one ButtonAction chooses from the state before the call; any
     * left-button event restarts the double-click clock; left, middle and
     * right buttons append a press or release event at the pointer.
     */
    method PointerButton(serial: Uint32, time: Uint32, button: Uint32, state: Uint32)
      requires focused != null && focused.Valid()
      modifies this`events, this`requests, focused
      ensures focused.Valid()
      ensures focused.State() == AfterButton(old(focused.State()), time, button)
      ensures requests == old(requests) + RequestsFor(focused, serial, ButtonAction(old(focused.State()), time, button, state))
      ensures events == old(events) + ButtonEvents(focused, Modifiers(), focused.mouseX, focused.mouseY, button, state)
    {
      var w := focused;
      ghost var before := w.State();
      ButtonRequest(serial, time, button, state);

      if button == BtnLeft {
        w.lastClickTime := time;
        w.lastClickX := w.mouseX;
        w.lastClickY := w.mouseY;
      }
      assert w.State() == AfterButton(before, time, button);
      PushButtonEvent(button, state);
    }

    /** The end of pointer_handle_button: a press or release event at the pointer for the left, middle and right buttons. */
    method PushButtonEvent(button: Uint32, state: Uint32)
      requires focused != null
      modifies this`events
      ensures events == old(events) + ButtonEvents(focused, Modifiers(), focused.mouseX, focused.mouseY, button, state)
    {
      var w := focused;
      var key := ButtonKey(button);
      if key != Key.Null {
        events := events + [Event(if state == ButtonStatePressed then Press else Release, w, Modifiers(), key, w.mouseX, w.mouseY, 0.0, 0)];
      }
    }

    /**
     * The window-management half of pointer_handle_button: a left press
     * toggles maximize on a double click, else resizes from the edge under
     * the pointer, else moves the window from the title bar outside its
     * client areas; a right press in the title bar opens the window menu.
     */
    method ButtonRequest(serial: Uint32, time: Uint32, button: Uint32, state: Uint32)
      requires focused != null && focused.Valid()
      modifies this`requests
      ensures requests == old(requests) + RequestsFor(focused, serial, ButtonAction(focused.State(), time, button, state))
    {
      var w := focused;
      var deltaTime := ClickDelta(time, w.lastClickTime);
      if button == BtnLeft && state == ButtonStatePressed {
        if deltaTime < DoubleClickMillis && w.lastClickX == w.mouseX && w.lastClickY == w.mouseY {
          if w.isMaximized {
            requests := requests + [UnsetMaximized(w)];
          } else {
            requests := requests + [SetMaximized(w)];
          }
        } else {
          var edge := ResizeEdge(Trunc(w.mouseX), Trunc(w.mouseY), w.width, w.height, w.edgeThickness, w.scale);
          if edge != None {
            requests := requests + [ToplevelResize(w, serial, edge)];
          } else if w.mouseY < w.titleBarThickness {
            var overClientArea := ScanClientAreas(w.clientAreas, w.mouseX, w.mouseY);
            if !overClientArea {
              requests := requests + [ToplevelMove(w, serial)];
            }
          }
        }
      } else if button == BtnRight && state == ButtonStatePressed && w.mouseY < w.titleBarThickness {
        requests := requests + [ShowWindowMenu(w, serial, Trunc(w.mouseX / w.scale), Trunc(w.mouseY / w.scale))];
      }
    }

    /**
     * pointer_handle_axis: a scroll event at the pointer (focused window
     * required, as in the source) whose vertical delta is a tenth of the
     * value for the vertical axis and zero for any other axis.
     */
    method PointerAxis(time: Uint32, axis: Uint32, value: real)
      requires focused != null
      modifies this`events
      ensures events == old(events) + [Event(Scroll, focused, Modifiers(), Key.Null, focused.mouseX, focused.mouseY,
                                             ScrollDelta(axis, value), 0)]
    {
      var delta := 0.0;
      if axis == AxisVerticalScroll {
        delta := value / 10.0;
      }
      PushEvent(Scroll, focused, Key.Null, focused.mouseX, focused.mouseY, delta, 0);
    }

    /**
     * os_set_cursor: ignored while the border cursor is forced; otherwise
     * records the cursor and shows its theme cursor.
     */
    method SetCursor(cursor: Cursor)
      modifies this`lastSetCursor, this`requests
      ensures old(forceBorderCursor) ==> lastSetCursor == old(lastSetCursor) && requests == old(requests)
      ensures !old(forceBorderCursor) ==>
                && lastSetCursor == cursor
                && requests == old(requests) + (if focused != null then [SetPointerCursor(pointerSerial, ThemeCursorName(cursor))] else [])
    {
      if forceBorderCursor {
        return;
      }
      lastSetCursor := cursor;
      ShowCursor(ThemeCursorName(cursor));
    }

    // -------------------------------------------------------------------
    // Keyboard listener.

    /**
     * keyboard_handle_keymap: whether compiling the layout produced a
     * keyboard state.  The state is new either way, so no modifier is
     * active until the next modifiers event.
     */
    method KeyboardKeymap(stateCreated: bool)
      modifies this`hasXkbState, this`shiftActive, this`ctrlActive, this`altActive
      ensures hasXkbState == stateCreated
      ensures !shiftActive && !ctrlActive && !altActive
    {
      hasXkbState := stateCreated;
      shiftActive, ctrlActive, altActive := false, false, false;
    }

    /**
     * keyboard_handle_modifiers: the effective Shift, Ctrl and Alt state
     * after the mask update.  The source updates the keyboard state without
     * a check, so one is required.
     */
    method KeyboardModifiers(shift: bool, ctrl: bool, alt: bool)
      requires hasXkbState
      modifies this`shiftActive, this`ctrlActive, this`altActive
      ensures shiftActive == shift && ctrlActive == ctrl && altActive == alt
    {
      shiftActive, ctrlActive, altActive := shift, ctrl, alt;
    }

    /**
     * keyboard_handle_key.  `decoded[i]` is the UTF-8 decoder's result for
     * the bytes of the key's text from offset i on.  Exactly one press or
     * release event is appended, carrying the table's key; a press with a
     * keyboard state then appends one Text event per codepoint of the text
     * loop.
     */
    method KeyboardKey(code: Uint32, state: Uint32, decoded: seq<Decode>)
      modifies this`events
      ensures events == old(events) + [KeyEvent(code, state, focused, Modifiers())]
                        + (if hasXkbState && state == KeyStatePressed
                           then TextEvents(TextCodepoints(decoded, 0), focused, Modifiers())
                           else [])
    {
      var w, mods := focused, Modifiers();
      events := events + [KeyEvent(code, state, w, mods)];
      if hasXkbState && state == KeyStatePressed {
        var text := TextLoop(decoded);
        events := events + TextEvents(text, w, mods);
      }
    }

    // -------------------------------------------------------------------
    // Seat and toplevel listeners.

    /**
     * seat_handle_capabilities: the pointer and keyboard objects exist
     * exactly when their capability bit is set; an object is created only
     * if missing and released only if present, so a repeated call issues
     * nothing.
     */
    method SeatCapabilities(caps: bv32)
      modifies this`hasPointer, this`hasKeyboard, this`requests
      ensures hasPointer == (caps & CapabilityPointer != 0)
      ensures hasKeyboard == (caps & CapabilityKeyboard != 0)
      ensures requests == old(requests)
                          + (if hasPointer == old(hasPointer) then [] else if hasPointer then [GetPointer] else [ReleasePointer])
                          + (if hasKeyboard == old(hasKeyboard) then [] else if hasKeyboard then [GetKeyboard] else [ReleaseKeyboard])
    {
      if caps & CapabilityPointer != 0 {
        if !hasPointer {
          requests := requests + [GetPointer];
          hasPointer := true;
        }
      } else if hasPointer {
        requests := requests + [ReleasePointer];
        hasPointer := false;
      }

      if caps & CapabilityKeyboard != 0 {
        if !hasKeyboard {
          requests := requests + [GetKeyboard];
          hasKeyboard := true;
        }
      } else if hasKeyboard {
        requests := requests + [ReleaseKeyboard];
        hasKeyboard := false;
      }
    }

    /**
     * toplevel_configure: the flags are recomputed from the state array,
     * positive dimensions replace the stored ones, then the surface is
     * resized to the scaled framebuffer size and committed.
     */
    method ToplevelConfigure(w: Window, width: int, height: int, states: seq<Uint32>)
      requires w.Valid()
      modifies w, this`requests
      ensures w.Valid()
      ensures w.State() == AfterConfigure(old(w.State()), width, height, states)
      ensures requests == old(requests)
                          + [ResizeSurface(w, w.width, w.height, DevicePx(w.width as real, w.scale), DevicePx(w.height as real, w.scale)),
                             Commit(w)]
    {
      ghost var s0 := w.State();
      w.isMaximized := false;
      w.isFullscreen := false;
      var i := 0;
      while i < |states|
        invariant 0 <= i <= |states|
        invariant requests == old(requests)
        invariant w.State() == s0.(isMaximized := StateMaximized in states[..i], isFullscreen := StateFullscreen in states[..i])
      {
        if states[i] == StateMaximized {
          w.isMaximized := true;
        } else if states[i] == StateFullscreen {
          w.isFullscreen := true;
        }
        assert states[..i + 1] == states[..i] + [states[i]];
        i := i + 1;
      }
      assert states[..i] == states;

      if width > 0 {
        w.width := width;
      }
      if height > 0 {
        w.height := height;
      }

      var fbWidth := DevicePx(w.width as real, w.scale);
      var fbHeight := DevicePx(w.height as real, w.scale);
      requests := requests + [ResizeSurface(w, w.width, w.height, fbWidth, fbHeight), Commit(w)];
    }

    /** toplevel_close: a window-close event for the window. */
    method ToplevelClose(w: Window)
      modifies this`events
      ensures events == old(events) + [Event(WindowClose, w, Modifiers(), Key.Null, 0.0, 0.0, 0.0, 0)]
    {
      PushEvent(WindowClose, w, Key.Null, 0.0, 0.0, 0.0, 0);
    }

    // -------------------------------------------------------------------
    // Window registry.

    /**
     * os_window_open: reuses the head of the free list or allocates a new
     * window, resets it to the defaults, appends it to the live list, creates
     * its toplevel with the title and waits for a round trip.
     */
    method OpenWindow(title: string) returns (w: Window)
      requires Valid()
      modifies this`live, this`free, this`requests, if free != [] then {free[0]} else {}
      ensures Valid()
      ensures w.Valid() && w.State() == OpenedState
      ensures old(free) != [] ==> w == old(free)[0] && free == old(free)[1..]
      ensures old(free) == [] ==> fresh(w) && free == []
      ensures live == old(live) + [w]
      ensures requests == old(requests) + [CreateToplevel(w, title), Roundtrip]
    {
      if free != [] {
        w := free[0];
        free := free[1..];
        assert w !in free by {
          forall j | 0 <= j < |free| ensures free[j] != w {
            assert free[j] == old(free)[j + 1];
          }
        }
      } else {
        w := new Window;
      }
      assert w !in live;
      w.Reset();
      assert w.State() == OpenedState;
      live := live + [w];
      assert forall k :: 0 <= k < |live| - 1 ==> live[k] == old(live)[k];
      requests := requests + [CreateToplevel(w, title), Roundtrip];
    }

    /**
     * os_window_close: destroys the native objects of a non-zero handle and
     * waits for a round trip.  The window stays in the live list and is not
     * put on the free list.
     */
    method CloseWindow(h: Window?)
      modifies this`requests
      ensures live == old(live) && free == old(free)
      ensures requests == old(requests) + (if h == null then [] else [DestroyToplevel(h), Roundtrip])
    {
      if h == null {
        return;
      }
      requests := requests + [DestroyToplevel(h), Roundtrip];
    }

    /** os_window_set_maximized: the request, then a round trip. */
    method SetMaximizedState(h: Window?, maximized: bool)
      modifies this`requests
      ensures requests == old(requests) +
                (if h == null then [] else [if maximized then SetMaximized(h) else UnsetMaximized(h), Roundtrip])
    {
      if h == null {
        return;
      }
      if maximized {
        requests := requests + [SetMaximized(h)];
      } else {
        requests := requests + [UnsetMaximized(h)];
      }
      requests := requests + [Roundtrip];
    }

    /** os_window_set_fullscreen: the request, without a round trip. */
    method SetFullscreenState(h: Window?, fullscreen: bool)
      modifies this`requests
      ensures requests == old(requests) +
                (if h == null then [] else [if fullscreen then SetFullscreen(h) else UnsetFullscreen(h)])
    {
      if h == null {
        return;
      }
      if fullscreen {
        requests := requests + [SetFullscreen(h)];
      } else {
        requests := requests + [UnsetFullscreen(h)];
      }
    }
  }

  // ---------------------------------------------------------------------
  // Per-window queries and custom-border data; a null handle is the zero handle.

  /** os_window_is_maximized. */
  function IsMaximized(h: Window?): (b: bool)
    reads h
    ensures b <==> h != null && h.isMaximized
  {
    if h == null then false else h.isMaximized
  }

  /** os_window_is_fullscreen. */
  function IsFullscreen(h: Window?): (b: bool)
    reads h
    ensures b <==> h != null && h.isFullscreen
  {
    if h == null then false else h.isFullscreen
  }

  /** os_window_clear_custom_border_data: no client areas and both thicknesses zero. */
  method ClearCustomBorderData(h: Window?)
    modifies h
    ensures h != null ==> h.State() == AfterClearBorder(old(h.State()))
  {
    if h == null {
      return;
    }
    h.clientAreas := [];
    h.titleBarThickness := 0.0;
    h.edgeThickness := 0.0;
  }

  /** os_window_push_custom_title_bar. */
  method PushCustomTitleBar(h: Window?, thickness: real)
    modifies h
    ensures h != null ==> h.State() == old(h.State()).(titleBarThickness := thickness)
  {
    if h == null {
      return;
    }
    h.titleBarThickness := thickness;
  }

  /** os_window_push_custom_edges. */
  method PushCustomEdges(h: Window?, thickness: real)
    modifies h
    ensures h != null ==> h.State() == old(h.State()).(edgeThickness := thickness)
  {
    if h == null {
      return;
    }
    h.edgeThickness := thickness;
  }

  /**
   * os_window_push_custom_title_bar_client_area: appends the rectangle at
   * the tail of the list, unless the arena returned no memory.
   */
  method PushCustomTitleBarClientArea(h: Window?, rect: Rect, areaAllocated: bool)
    modifies h
    ensures h != null ==> h.State() == old(h.State()).(clientAreas := old(h.clientAreas) + (if areaAllocated then [rect] else []))
  {
    if h == null {
      return;
    }
    if areaAllocated {
      h.clientAreas := h.clientAreas + [rect];
    }
  }

  /** os_rect_from_window: the scaled size anchored at the origin, or the zero rectangle. */
  function RectFromWindow(h: Window?): (r: Rect)
    reads h
    ensures r.x0 == 0.0 && r.y0 == 0.0
    ensures h == null ==> r == ZeroRect
    ensures h != null ==> r.x1 == h.width as real * h.scale && r.y1 == h.height as real * h.scale
  {
    if h == null then ZeroRect
    else Rect(0.0, 0.0, h.width as real * h.scale, h.height as real * h.scale)
  }

  /** os_client_rect_from_window, which has no zero-handle check. */
  function ClientRectFromWindow(h: Window): (r: Rect)
    reads h
    ensures r == RectFromWindow(h)
  {
    Rect(0.0, 0.0, h.width as real * h.scale, h.height as real * h.scale)
  }

  /** os_mouse_from_window: the pointer position, or (0, 0) for the zero handle. */
  function MouseFromWindow(h: Window?): (p: (real, real))
    reads h
    ensures h == null ==> p == (0.0, 0.0)
    ensures h != null ==> p == (h.mouseX, h.mouseY)
  {
    if h == null then (0.0, 0.0) else (h.mouseX, h.mouseY)
  }

  /** A window of positive size and scale has a non-empty rectangle. */
  lemma RectOfValidWindow(h: Window)
    requires h.Valid()
    ensures RectFromWindow(h).x1 > 0.0 && RectFromWindow(h).y1 > 0.0
  {
  }
}
