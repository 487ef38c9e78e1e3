/**
 * The client-side decoration logic of the Wayland backend, as pure values:
 * the resize-edge hit tester, the title-bar and client-area tests, the
 * double-click rule and the choice of toplevel request a pointer button
 * makes.  The window fields the pointer listeners read and write are
 * gathered in `WindowState`; the listener methods of the `Backend` module
 * are specified by the transition functions at the end of this module.
 */
module Decoration {
  import opened Protocol

  /** xdg_toplevel.resize_edge. */
  datatype Edge = None | Top | Bottom | Left | TopLeft | BottomLeft | Right | TopRight | BottomRight
  {
    predicate HasTop() { Top? || TopLeft? || TopRight? }
    predicate HasBottom() { Bottom? || BottomLeft? || BottomRight? }
    predicate HasLeft() { Left? || TopLeft? || BottomLeft? }
    predicate HasRight() { Right? || TopRight? || BottomRight? }

    /** The value the edge has on the wire. */
    function Code(): bv32 {
      match this
      case None => 0
      case Top => 1
      case Bottom => 2
      case Left => 4
      case TopLeft => 5
      case BottomLeft => 6
      case Right => 8
      case TopRight => 9
      case BottomRight => 10
    }
  }

  /**
   * The classification of get_resize_edge once the four margin tests are
   * known: top is tested before bottom and left before right, so a corner
   * wins over a side and top/left win over bottom/right.
   */
  function EdgeFromSides(top: bool, bottom: bool, left: bool, right: bool): (e: Edge)
    ensures e.HasTop() == top
    ensures e.HasBottom() == (bottom && !top)
    ensures e.HasLeft() == left
    ensures e.HasRight() == (right && !left)
  {
    if top then
      if left then TopLeft else if right then TopRight else Top
    else if bottom then
      if left then BottomLeft else if right then BottomRight else Bottom
    else if left then Left
    else if right then Right
    else None
  }

  /** An edge is determined by which of the four sides it touches. */
  lemma EdgeDeterminedBySides(e1: Edge, e2: Edge)
    requires e1.HasTop() == e2.HasTop() && e1.HasBottom() == e2.HasBottom()
    requires e1.HasLeft() == e2.HasLeft() && e1.HasRight() == e2.HasRight()
    ensures e1 == e2
  {
  }

  /** The wire value of an edge is the OR of its side bits (top 1, bottom 2, left 4, right 8). */
  lemma EdgeCodeIsSideBits(e: Edge)
    ensures e.Code() == (if e.HasTop() then 1 else 0) | (if e.HasBottom() then 2 else 0)
                        | (if e.HasLeft() then 4 else 0) | (if e.HasRight() then 8 else 0)
  {
  }

  /** A length in logical pixels converted to device pixels with the `int` cast of get_resize_edge. */
  function DevicePx(v: real, scale: real): int {
    Trunc(v * scale)
  }

  /**
   * The margin tests of get_resize_edge on device pixels: the pointer (x, y)
   * against a window of w by h pixels with an edge margin of m pixels.
   */
  function EdgeAt(x: int, y: int, w: int, h: int, m: int): (e: Edge)
    ensures e == None <==> !(y < m || y > h - m || x < m || x > w - m)
    ensures e.HasTop() <==> y < m
    ensures e.HasBottom() <==> !(y < m) && y > h - m
    ensures e.HasLeft() <==> x < m
    ensures e.HasRight() <==> !(x < m) && x > w - m
  {
    EdgeFromSides(y < m, y > h - m, x < m, x > w - m)
  }

  /** The corner tie-breaks of get_resize_edge: top wins over bottom, left over right. */
  lemma EdgeAtCorners(x: int, y: int, w: int, h: int, m: int)
    ensures y < m && x < m ==> EdgeAt(x, y, w, h, m) == TopLeft
    ensures y < m && !(x < m) && x > w - m ==> EdgeAt(x, y, w, h, m) == TopRight
    ensures !(y < m) && y > h - m && x < m ==> EdgeAt(x, y, w, h, m) == BottomLeft
    ensures !(y < m) && y > h - m && !(x < m) && x > w - m ==> EdgeAt(x, y, w, h, m) == BottomRight
  {
  }

  /**
   * get_resize_edge: the pointer (x, y), already cast to `int`, against the
   * window size and edge margin scaled to device pixels and cast to `int`.
   */
  function ResizeEdge(x: int, y: int, width: int, height: int, edgeThickness: real, scale: real): (e: Edge)
    ensures var w, h, m := DevicePx(width as real, scale), DevicePx(height as real, scale), DevicePx(edgeThickness, scale);
            && (e == None <==> !(y < m || y > h - m || x < m || x > w - m))
            && (e.HasTop() <==> y < m)
            && (e.HasBottom() <==> !(y < m) && y > h - m)
            && (e.HasLeft() <==> x < m)
            && (e.HasRight() <==> !(x < m) && x > w - m)
  {
    EdgeAt(x, y, DevicePx(width as real, scale), DevicePx(height as real, scale), DevicePx(edgeThickness, scale))
  }

  /** With no edge margin, a pointer anywhere on the scaled window is on no edge. */
  lemma NoMarginNoEdge(x: int, y: int, width: int, height: int, scale: real)
    requires 0 <= x <= DevicePx(width as real, scale)
    requires 0 <= y <= DevicePx(height as real, scale)
    ensures ResizeEdge(x, y, width, height, 0.0, scale) == None
  {
    assert DevicePx(0.0, scale) == 0;
  }

  /**
   * The fields of an OS_LNX_Window that the listeners and the custom-border
   * operations read or write (everything but the native object handles).
   * The pointer position is in device pixels, as the source's `double`.
   */
  datatype WindowState = WindowState(
    width: int, height: int, scale: real,
    mouseX: real, mouseY: real,
    lastClickTime: Uint32, lastClickX: real, lastClickY: real,
    isMaximized: bool, isFullscreen: bool,
    titleBarThickness: real, edgeThickness: real,
    clientAreas: seq<Rect>)

  const DefaultWidth: int := 1280
  const DefaultHeight: int := 720

  /** os_window_open: a zeroed window with the default size and unit scale. */
  const OpenedState: WindowState :=
    WindowState(DefaultWidth, DefaultHeight, 1.0, 0.0, 0.0, 0, 0.0, 0.0, false, false, 0.0, 0.0, [])

  /** get_resize_edge applied to a window: the pointer position is truncated to `int` first. */
  function EdgeUnderPointer(s: WindowState): (e: Edge)
    ensures e.HasTop() <==> Trunc(s.mouseY) < DevicePx(s.edgeThickness, s.scale)
    ensures e.HasLeft() <==> Trunc(s.mouseX) < DevicePx(s.edgeThickness, s.scale)
  {
    ResizeEdge(Trunc(s.mouseX), Trunc(s.mouseY), s.width, s.height, s.edgeThickness, s.scale)
  }

  /** The half-open rectangle test of the client-area scan. */
  predicate InRect(r: Rect, x: real, y: real) {
    r.x0 <= x < r.x1 && r.y0 <= y < r.y1
  }

  /** Some registered title-bar client area contains (x, y). */
  predicate InClientArea(areas: seq<Rect>, x: real, y: real) {
    exists i :: 0 <= i < |areas| && InRect(areas[i], x, y)
  }

  /** The pointer is above the title-bar thickness (unscaled, as in the source). */
  predicate InTitleBar(s: WindowState) {
    s.mouseY < s.titleBarThickness
  }

  const DoubleClickMillis: int := 200

  /** `uint32_t delta_time = time - w->last_click_time`: the difference modulo 2^32. */
  function ClickDelta(time: Uint32, last: Uint32): (d: Uint32)
    ensures time >= last ==> d == time - last
    ensures time < last ==> d == time - last + Uint32Modulus
  {
    (time - last) % Uint32Modulus
  }

  /** A press this soon after the last click, at exactly the same position, is a double click. */
  predicate IsDoubleClick(s: WindowState, time: Uint32) {
    ClickDelta(time, s.lastClickTime) < DoubleClickMillis
    && s.lastClickX == s.mouseX && s.lastClickY == s.mouseY
  }

  /** The toplevel request a pointer button asks for, before the window and serial are attached. */
  datatype WmAction = NoAction | Maximize | Unmaximize | ResizeFrom(edge: Edge) | DragMove | WindowMenu(x: int, y: int)

  /** The left-press branch of pointer_handle_button. */
  function LeftPressAction(s: WindowState, time: Uint32): (a: WmAction)
    ensures (a == Maximize || a == Unmaximize) <==> IsDoubleClick(s, time)
    ensures a.ResizeFrom? ==> a.edge != None
    ensures !a.WindowMenu?
  {
    if IsDoubleClick(s, time) then
      (if s.isMaximized then Unmaximize else Maximize)
    else if EdgeUnderPointer(s) != None then
      ResizeFrom(EdgeUnderPointer(s))
    else if InTitleBar(s) && !InClientArea(s.clientAreas, s.mouseX, s.mouseY) then
      DragMove
    else
      NoAction
  }

  /**
   * The request pointer_handle_button issues: the left-press rules, or the
   * window menu at the unscaled pointer position for a right press in the
   * title bar.
   */
  function ButtonAction(s: WindowState, time: Uint32, button: Uint32, state: Uint32): (a: WmAction)
    requires s.scale > 0.0
    ensures a != NoAction ==> state == ButtonStatePressed && (button == BtnLeft || button == BtnRight)
    ensures a.WindowMenu? <==> button == BtnRight && state == ButtonStatePressed && InTitleBar(s)
  {
    if button == BtnLeft && state == ButtonStatePressed then
      LeftPressAction(s, time)
    else if button == BtnRight && state == ButtonStatePressed && InTitleBar(s) then
      WindowMenu(Trunc(s.mouseX / s.scale), Trunc(s.mouseY / s.scale))
    else
      NoAction
  }

  /** On a left press exactly one of toggle, resize, move or nothing applies, in this priority. */
  lemma LeftPressDecision(s: WindowState, time: Uint32)
    requires s.scale > 0.0
    ensures var a := ButtonAction(s, time, BtnLeft, ButtonStatePressed);
            && ((a == Maximize || a == Unmaximize) <==> IsDoubleClick(s, time))
            && (a == Unmaximize <==> IsDoubleClick(s, time) && s.isMaximized)
            && (a.ResizeFrom? <==> !IsDoubleClick(s, time) && EdgeUnderPointer(s) != None)
            && (a.ResizeFrom? ==> a.edge == EdgeUnderPointer(s) && a.edge != None)
            && (a == DragMove <==> (!IsDoubleClick(s, time) && EdgeUnderPointer(s) == None
                                    && InTitleBar(s) && !InClientArea(s.clientAreas, s.mouseX, s.mouseY)))
            && (a == NoAction <==> (!IsDoubleClick(s, time) && EdgeUnderPointer(s) == None
                                    && (!InTitleBar(s) || InClientArea(s.clientAreas, s.mouseX, s.mouseY))))
            && !a.WindowMenu?
  {
  }

  /** The resize branch is not suppressed for a maximized or fullscreen window. */
  lemma MaximizedWindowStillResizes(s: WindowState, time: Uint32)
    requires s.scale > 0.0 && (s.isMaximized || s.isFullscreen)
    requires !IsDoubleClick(s, time) && EdgeUnderPointer(s) != None
    ensures ButtonAction(s, time, BtnLeft, ButtonStatePressed) == ResizeFrom(EdgeUnderPointer(s))
  {
  }

  /** A right press asks for the window menu exactly in the title bar, and never moves, resizes or maximizes. */
  lemma RightPressDecision(s: WindowState, time: Uint32)
    requires s.scale > 0.0
    ensures var a := ButtonAction(s, time, BtnRight, ButtonStatePressed);
            && (a.WindowMenu? <==> InTitleBar(s))
            && (a.WindowMenu? ==> a.x == Trunc(s.mouseX / s.scale) && a.y == Trunc(s.mouseY / s.scale))
            && (!a.WindowMenu? ==> a == NoAction)
  {
  }

  /** Releases, and presses of any button but left and right, issue no request. */
  lemma OtherButtonsIssueNothing(s: WindowState, time: Uint32, button: Uint32, state: Uint32)
    requires s.scale > 0.0
    requires state != ButtonStatePressed || (button != BtnLeft && button != BtnRight)
    ensures ButtonAction(s, time, button, state) == NoAction
  {
  }

  /** pointer_handle_motion: the border cursor is forced on an edge unless maximized or fullscreen. */
  predicate ForcesBorderCursor(s: WindowState) {
    EdgeUnderPointer(s) != None && !s.isMaximized && !s.isFullscreen
  }

  // ---------------------------------------------------------------------
  // Transitions of the window state, one per operation that changes it.

  /** pointer_handle_motion stores the surface-local position (sx, sy) scaled to device pixels. */
  function AfterMotion(s: WindowState, sx: real, sy: real): (r: WindowState)
    ensures r.(mouseX := s.mouseX, mouseY := s.mouseY) == s
    ensures s.scale > 0.0 ==> r.mouseX / r.scale == sx && r.mouseY / r.scale == sy
  {
    s.(mouseX := sx * s.scale, mouseY := sy * s.scale)
  }

  /** pointer_handle_button: any left-button event, press or release, restarts the double-click clock. */
  function AfterButton(s: WindowState, time: Uint32, button: Uint32): (r: WindowState)
    ensures button != BtnLeft ==> r == s
    ensures button == BtnLeft ==> r.(lastClickTime := s.lastClickTime, lastClickX := s.lastClickX, lastClickY := s.lastClickY) == s
    ensures button == BtnLeft ==> ClickDelta(time, r.lastClickTime) == 0 && r.lastClickX == r.mouseX && r.lastClickY == r.mouseY
  {
    if button == BtnLeft then s.(lastClickTime := time, lastClickX := s.mouseX, lastClickY := s.mouseY)
    else s
  }

  /**
   * toplevel_configure: the flags are recomputed from the state set and a
   * dimension is replaced only when the compositor sends a positive one.
   */
  function AfterConfigure(s: WindowState, width: int, height: int, states: seq<Uint32>): (r: WindowState)
    ensures r.isMaximized <==> StateMaximized in states
    ensures r.isFullscreen <==> StateFullscreen in states
    ensures r.width == (if width > 0 then width else s.width)
    ensures r.height == (if height > 0 then height else s.height)
    ensures s.width > 0 && s.height > 0 ==> r.width > 0 && r.height > 0
    ensures r.(isMaximized := s.isMaximized, isFullscreen := s.isFullscreen, width := s.width, height := s.height) == s
  {
    s.(isMaximized := StateMaximized in states,
       isFullscreen := StateFullscreen in states,
       width := if width > 0 then width else s.width,
       height := if height > 0 then height else s.height)
  }

  /** os_window_clear_custom_border_data. */
  function AfterClearBorder(s: WindowState): (r: WindowState)
    ensures r.clientAreas == [] && r.titleBarThickness == 0.0 && r.edgeThickness == 0.0
    ensures r.(clientAreas := s.clientAreas, titleBarThickness := s.titleBarThickness, edgeThickness := s.edgeThickness) == s
    ensures r.mouseY >= 0.0 ==> !InTitleBar(r)
  {
    s.(clientAreas := [], titleBarThickness := 0.0, edgeThickness := 0.0)
  }

  /** A second left press after a left-button event at time t1 toggles maximize
      iff it comes within 200 ms (modulo 2^32) and the pointer is back at exactly the same position. */
  lemma SecondClickToggles(s: WindowState, t1: Uint32, t2: Uint32, sx: real, sy: real)
    requires s.scale > 0.0
    ensures var s2 := AfterMotion(AfterButton(s, t1, BtnLeft), sx, sy);
            var a := ButtonAction(s2, t2, BtnLeft, ButtonStatePressed);
            (a == Maximize || a == Unmaximize) <==>
              (ClickDelta(t2, t1) < DoubleClickMillis && sx * s.scale == s.mouseX && sy * s.scale == s.mouseY)
  {
    var s1 := AfterButton(s, t1, BtnLeft);
    assert s1.lastClickTime == t1 && s1.lastClickX == s.mouseX && s1.lastClickY == s.mouseY && s1.scale == s.scale;
    var s2 := AfterMotion(s1, sx, sy);
    assert s2.lastClickTime == t1 && s2.lastClickX == s.mouseX && s2.lastClickY == s.mouseY;
    assert s2.mouseX == sx * s.scale && s2.mouseY == sy * s.scale && s2.scale > 0.0;
    assert IsDoubleClick(s2, t2) <==>
      (ClickDelta(t2, t1) < DoubleClickMillis && s.mouseX == sx * s.scale && s.mouseY == sy * s.scale);
    LeftPressDecision(s2, t2);
  }

  /** The clock is restarted by the release too: press, release, press toggles by the time since the release. */
  lemma ReleaseRestartsClock(s: WindowState, t1: Uint32, t2: Uint32, t3: Uint32)
    requires s.scale > 0.0
    ensures var s3 := AfterButton(AfterButton(s, t1, BtnLeft), t2, BtnLeft);
            var a := ButtonAction(s3, t3, BtnLeft, ButtonStatePressed);
            (a == Maximize || a == Unmaximize) <==> ClickDelta(t3, t2) < DoubleClickMillis
  {
    var s3 := AfterButton(AfterButton(s, t1, BtnLeft), t2, BtnLeft);
    LeftPressDecision(s3, t3);
  }

  /** The 32-bit wrap of the timestamp does not break a double click. */
  lemma DoubleClickAcrossWrap()
    ensures ClickDelta(5, 0xFFFF_FFF0) == 21
  {
  }

  /** A configure with width 800 and height 0 on a 1280x720 window gives 800x720. */
  lemma ConfigureKeepsZeroDimension(s: WindowState)
    requires s.width == DefaultWidth && s.height == DefaultHeight
    ensures AfterConfigure(s, 800, 0, []).width == 800 && AfterConfigure(s, 800, 0, []).height == 720
    ensures !AfterConfigure(s, 800, 0, []).isMaximized && !AfterConfigure(s, 800, 0, []).isFullscreen
  {
  }
}
