# Wayland backend of the OS graphics layer, modelled in Dafny

This project models the decision logic in the Linux Wayland backend of the
OS graphics layer (`src/os/gfx/linux/os_gfx_linux_wayland.c`, with the
records of `os_gfx_linux_wayland.h`). The backend is a sequential state
machine. It is driven by compositor callbacks, and its decisions depend
only on window and session fields and the event list.

- `protocol.dfy` (module `Protocol`): the 32-bit integers libwayland
  delivers, the protocol constants the listeners compare against
  (buttons, button and key states, the scroll axis, seat capabilities,
  toplevel states), the `Rng2F32` rectangle, and C's truncating
  float-to-`int` conversion.
- `decoration.dfy` (module `Decoration`): the client-side decoration
  logic as pure functions. This covers:
  - `get_resize_edge` and its tie-break order;
  - the title-bar and client-area tests;
  - the 32-bit double-click clock;
  - the request a pointer button asks for;
  - the window-state transitions that specify the listener methods.
- `input.dfy` (module `Input`): the input decoder. This covers:
  - the literal keycode table of `keyboard_handle_key` and its inverse;
  - the pointer-button-to-key mapping;
  - the `os_get_modifiers` mask;
  - the text loop, as a `while` loop proved against a recursive
    specification.
- `cursors.dfy` (module `Cursors`): the theme cursor names of
  `get_cursor_for_type`, and the border cursor names of the motion
  handler.
- `backend.dfy` (module `Backend`): the stateful part.
  - Class `Window` (`OS_LNX_Window`) and class `Session`
    (`OS_LNX_GfxState` plus the global event list).
  - The `Session` methods cover the pointer, keyboard, seat and toplevel
    listeners, `os_set_cursor`, and the window registry (live and free
    lists).
  - The per-window queries and custom-border operations are module-level
    members. A `null` handle stands for the zero handle.
  - Requests to the compositor are entries in an abstract request log, so
    the contracts can say which request each callback issues.

Coordinates:
- Pointer positions are `real` device pixels: the source stores them as
  `double` and compares them exactly.
- The scale, thicknesses and rectangles are `real` as well.
- Each `int` conversion of the source (`get_resize_edge`, the window-menu
  position, the framebuffer size) is written out with `Trunc`.

The model follows the code where it departs from what a reader might
expect:
- `os_window_close` destroys the native objects only. The window stays in
  the live list and never goes onto the free list.
- The resize branch of the button handler also runs while the window is
  maximized or fullscreen. Only the motion handler's border cursor is
  suppressed then.
- Every left-button event updates the last-click time and position,
  release included.
- The button and axis handlers dereference the focused window without a
  check, so they require one.
- The F-key entries of the key table use `KEY_FN_F1..KEY_FN_F12`
  (0x1d2..0x1dd). The standard `KEY_F1..KEY_F12` codes map to `Null`.
- `os_client_rect_from_window` has no zero-handle check, so it takes a
  non-null window.
- The header calls the session's focused window `pointer_focus`, but the
  code uses `focused_window`. The model follows the code.
- A double click toggles maximize wherever it lands in the window. The toggle test at line 153 has no title-bar condition, so a double click in the client content toggles too.
- The double-click test compares positions by exact `double` equality, not as "the same integer pixel".
- The `OS_Modifiers` bit values (Ctrl 1, Shift 2, Alt 4) belong to the
  platform-independent graphics header. That header is not part of this
  model, so the values are stated as constants.

## Model

| member | source | states |
|---|---|---|
| Protocol.TruncBounds | src/os/gfx/linux/os_gfx_linux_wayland.c:48-52 | the `int` conversion drops the fraction toward zero and keeps the sign |
| Protocol.Trunc | src/os/gfx/linux/os_gfx_linux_wayland.c:48-52 | definition, no contract: C's conversion of a floating value to `int`, truncating toward zero (its bounds are in TruncBounds) |
| Decoration.DevicePx | src/os/gfx/linux/os_gfx_linux_wayland.c:50-52 | definition, no contract: `(int)(v * scale)`, the scaled-size casts of lines 50-52 and 522-523 |
| Decoration.EdgeFromSides | src/os/gfx/linux/os_gfx_linux_wayland.c:59-78 | the edge touches the top side iff top, left iff left, bottom iff bottom and not top, right iff right and not left |
| Decoration.EdgeDeterminedBySides | src/os/gfx/linux/os_gfx_linux_wayland.c:59-78 | the nine resize edges differ in the sides they touch, so the classification has one answer per side pattern |
| Decoration.EdgeCodeIsSideBits | src/os/gfx/linux/os_gfx_linux_wayland.c:47-79 | the wire value of the returned edge is the OR of its side bits (top 1, bottom 2, left 4, right 8) |
| Decoration.EdgeAt | src/os/gfx/linux/os_gfx_linux_wayland.c:54-78 | the result is NONE iff none of y<m, y>h-m, x<m, x>w-m holds; top iff y<m; bottom iff not top and y>h-m; left iff x<m; right iff not left and x>w-m |
| Decoration.EdgeAtCorners | src/os/gfx/linux/os_gfx_linux_wayland.c:59-72 | top∧left gives TOP_LEFT, top∧right gives TOP_RIGHT, bottom∧left gives BOTTOM_LEFT and bottom∧right gives BOTTOM_RIGHT, with top over bottom and left over right |
| Decoration.ResizeEdge | src/os/gfx/linux/os_gfx_linux_wayland.c:47-79 | with w, h and m the truncated scaled width, height and margin: NONE iff none of y<m, y>h-m, x<m, x>w-m holds, top iff y<m, bottom iff not top and y>h-m, left iff x<m, right iff not left and x>w-m |
| Decoration.EdgeUnderPointer | src/os/gfx/linux/os_gfx_linux_wayland.c:47-58 | the window's edge under the pointer, whose coordinates are truncated to `int` first: top iff the truncated y is below the truncated scaled margin, left iff the truncated x is |
| Decoration.NoMarginNoEdge | src/os/gfx/linux/os_gfx_linux_wayland.c:47-79 | with a zero edge thickness, a pointer anywhere in [0,w]×[0,h] of the scaled window is on no edge |
| Decoration.IsDoubleClick | src/os/gfx/linux/os_gfx_linux_wayland.c:150-153 | definition, no contract: `delta_time < 200 && last_click_x == mouse_x && last_click_y == mouse_y`, with the delta taken modulo 2^32 |
| Decoration.ClickDelta | src/os/gfx/linux/os_gfx_linux_wayland.c:150 | the unsigned difference of timestamps is time−last, plus 2^32 when the clock has wrapped |
| Decoration.DoubleClickAcrossWrap | src/os/gfx/linux/os_gfx_linux_wayland.c:150 | a click 21 ms after one just before the 32-bit wrap measures 21 ms |
| Decoration.InRect | src/os/gfx/linux/os_gfx_linux_wayland.c:171-172 | definition, no contract: the half-open test `x0 <= x < x1 && y0 <= y < y1` |
| Decoration.InClientArea | src/os/gfx/linux/os_gfx_linux_wayland.c:168-176 | definition, no contract: some rectangle of the client-area list passes the half-open test |
| Decoration.InTitleBar | src/os/gfx/linux/os_gfx_linux_wayland.c:164 | definition, no contract: `mouse_y < title_bar_thickness`, the test of lines 164 and 182 |
| Decoration.LeftPressAction | src/os/gfx/linux/os_gfx_linux_wayland.c:152-181 | a left press toggles maximize iff it is a double click, resizes only from a real edge, and never opens the window menu |
| Decoration.ButtonAction | src/os/gfx/linux/os_gfx_linux_wayland.c:152-184 | only presses of the left or right button ask for anything; the window menu exactly for a right press in the title bar |
| Decoration.LeftPressDecision | src/os/gfx/linux/os_gfx_linux_wayland.c:152-181 | on a left press exactly one applies, in this priority: toggle maximize (unmaximize iff maximized) on a double click; else resize with the edge under the pointer; else move iff in the title bar and in no client area; else nothing; never the window menu |
| Decoration.MaximizedWindowStillResizes | src/os/gfx/linux/os_gfx_linux_wayland.c:158-163 | a maximized or fullscreen window still gets a resize request from a left press on an edge |
| Decoration.RightPressDecision | src/os/gfx/linux/os_gfx_linux_wayland.c:182-184 | a right press asks for the window menu iff the pointer is in the title bar, at the position divided by the scale and truncated; otherwise it asks for nothing, and never for a move or resize |
| Decoration.OtherButtonsIssueNothing | src/os/gfx/linux/os_gfx_linux_wayland.c:152-184 | releases, and presses of buttons other than left and right, issue no request |
| Decoration.SecondClickToggles | src/os/gfx/linux/os_gfx_linux_wayland.c:150-190 | after a left-button event at t1 and a motion to (sx, sy), a left press at t2 toggles maximize iff (t2−t1) mod 2^32 < 200 and the scaled position equals the last-click position exactly |
| Decoration.ReleaseRestartsClock | src/os/gfx/linux/os_gfx_linux_wayland.c:186-190 | in press, release, press, the double-click test is measured from the release |
| Decoration.ForcesBorderCursor | src/os/gfx/linux/os_gfx_linux_wayland.c:119-120 | definition, no contract: `resize_edge != NONE && !is_maximized && !is_fullscreen` |
| Decoration.AfterMotion | src/os/gfx/linux/os_gfx_linux_wayland.c:112-113 | only the pointer position changes, to the surface position times the scale |
| Decoration.AfterButton | src/os/gfx/linux/os_gfx_linux_wayland.c:186-190 | only a left-button event changes the state, and then only the last click: its time becomes the event's (a zero delta) and its position the pointer's |
| Decoration.AfterConfigure | src/os/gfx/linux/os_gfx_linux_wayland.c:499-520 | maximized iff MAXIMIZED is in the state set, fullscreen iff FULLSCREEN is, each dimension replaced only by a positive one (so positive dimensions stay positive), nothing else changed |
| Decoration.AfterClearBorder | src/os/gfx/linux/os_gfx_linux_wayland.c:805-809 | no client areas and both thicknesses zero, nothing else changed, so no pointer at y >= 0 is in the title bar |
| Decoration.ConfigureKeepsZeroDimension | src/os/gfx/linux/os_gfx_linux_wayland.c:516-520 | a configure with (800, 0) on a 1280×720 window gives 800×720, with neither flag set when the state set is empty |
| Cursors.ThemeCursorName | src/os/gfx/linux/os_gfx_linux_wayland.c:993-1011 | the theme name of an application cursor; "left_ptr" exactly for the plain pointer |
| Cursors.BorderCursorName | src/os/gfx/linux/os_gfx_linux_wayland.c:121-133 | the border cursor of a resize edge; the default "left_ptr" exactly for NONE |
| Cursors.ThemeCursorNamesDistinct | src/os/gfx/linux/os_gfx_linux_wayland.c:993-1011 | distinct application cursors ask the theme for distinct cursor names |
| Cursors.BorderCursorNamesDistinct | src/os/gfx/linux/os_gfx_linux_wayland.c:122-133 | the eight resize edges show eight distinct border cursors, none of which is an application cursor name |
| Input.KeyFromCode | src/os/gfx/linux/os_gfx_linux_wayland.c:288-351 | the table gives `Null` or a keyboard key, never a mouse-button key |
| Input.KeyTableInjective | src/os/gfx/linux/os_gfx_linux_wayland.c:288-351 | every code the table maps to a key is that key's code (so every code outside the table gives `OS_Key_Null`) |
| Input.KeyTableComplete | src/os/gfx/linux/os_gfx_linux_wayland.c:288-351 | every keyboard key of the table is produced by its code |
| Input.StandardFunctionKeysUnmapped | src/os/gfx/linux/os_gfx_linux_wayland.c:325-336 | the standard KEY_F1..KEY_F12 codes (59..68, 87, 88) map to `OS_Key_Null`, because the table lists KEY_FN_F1..KEY_FN_F12 |
| Input.ButtonKey | src/os/gfx/linux/os_gfx_linux_wayland.c:192-195 | left, middle and right buttons map to the three mouse-button keys, every other button to `Null`, and never to a keyboard key |
| Input.ModifierMask | src/os/gfx/linux/os_gfx_linux_wayland.c:955-970 | the Shift, Ctrl and Alt bits are set iff the modifier is active, and no other bit is set |
| Input.IsTextCodepoint | src/os/gfx/linux/os_gfx_linux_wayland.c:363 | definition, no contract: `codepoint != 0 && (codepoint >= 32 \|\| codepoint == '\t')` |
| Input.TextRunIsTextCodepoints | src/os/gfx/linux/os_gfx_linux_wayland.c:361-372 | running the loop from offset i after emitting `acc` emits `acc` followed by the specified codepoints from i |
| Input.TextLoop | src/os/gfx/linux/os_gfx_linux_wayland.c:361-372 | the loop terminates and emits exactly the specified codepoints, in decode order |
| Input.TextCodepoints | src/os/gfx/linux/os_gfx_linux_wayland.c:361-372 | the specification of the loop; every codepoint it emits is non-zero and is at least 32 or a tab (the filter of line 363) |
| Input.TextCodepointsBound | src/os/gfx/linux/os_gfx_linux_wayland.c:361-372 | the loop emits at most one codepoint per byte of the buffer |
| Input.SingleByteText | src/os/gfx/linux/os_gfx_linux_wayland.c:361-372 | over single-byte decodes, the loop emits exactly the codepoints that pass the filter, in order |
| Input.TextScenarios | src/os/gfx/linux/os_gfx_linux_wayland.c:361-372 | 'A' then tab gives two text codepoints in that order; a lone escape gives none |
| Backend.RequestsFor | src/os/gfx/linux/os_gfx_linux_wayland.c:152-184 | a button decision issues exactly one toplevel request, or none for no action |
| Backend.ButtonEvents | src/os/gfx/linux/os_gfx_linux_wayland.c:192-202 | one event for left, middle and right, none otherwise: a press iff the button state is pressed, else a release, at the given position, carrying the button's key |
| Backend.KeyEvent | src/os/gfx/linux/os_gfx_linux_wayland.c:284-286 | definition, no contract: a press iff the key state is pressed, else a release, for the focused window, carrying the table's key (line 353) |
| Backend.TextEvents | src/os/gfx/linux/os_gfx_linux_wayland.c:364-365 | definition, no contract: one Text event per codepoint, in order, for the focused window, with the codepoint as its character |
| Backend.ScrollDelta | src/os/gfx/linux/os_gfx_linux_wayland.c:212-216 | the vertical delta is a tenth of the value on the vertical axis and zero on any other axis |
| Backend.ScanClientAreas | src/os/gfx/linux/os_gfx_linux_wayland.c:165-176 | the scan finds an area iff some half-open client-area rectangle contains the pointer |
| Backend.Window.Reset | src/os/gfx/linux/os_gfx_linux_wayland.c:630-637 | the recycled or new window is zeroed, then 1280×720 at scale 1 |
| Backend.Session.constructor | src/os/gfx/linux/os_gfx_linux_wayland.c:567 | the session starts zeroed: no focus, no pointer or keyboard, empty lists and logs |
| Backend.Session.Modifiers | src/os/gfx/linux/os_gfx_linux_wayland.c:955-970 | the Shift, Ctrl and Alt bits are set iff the modifier is active in the keyboard state, and no other bit |
| Backend.Session.PushEvent | src/os/gfx/linux/os_gfx_linux_wayland.c:20-28 | appends one event with the kind, the window and the current modifier mask |
| Backend.Session.ShowCursor | src/os/gfx/linux/os_gfx_linux_wayland.c:81-99 | sets the pointer cursor with the current serial only while some window has the pointer |
| Backend.Session.PointerEnter | src/os/gfx/linux/os_gfx_linux_wayland.c:31-38 | the entered window becomes focused and the serial is stored |
| Backend.Session.PointerLeave | src/os/gfx/linux/os_gfx_linux_wayland.c:40-45 | no window is focused afterwards |
| Backend.Session.PointerMotion | src/os/gfx/linux/os_gfx_linux_wayland.c:101-142 | with no focused window nothing changes; otherwise the scaled position is stored, a move event there is appended, and the border cursor is forced iff there is an edge and the window is neither maximized nor fullscreen |
| Backend.Session.BorderCursorRequests | src/os/gfx/linux/os_gfx_linux_wayland.c:119-141 | the motion handler sets a cursor iff it forces the border cursor, and that cursor is the edge's border cursor |
| Backend.Session.TrackBorderCursor | src/os/gfx/linux/os_gfx_linux_wayland.c:119-141 | the force flag becomes the border-cursor condition, and the request log grows by the edge's cursor exactly then |
| Backend.Session.PointerButton | src/os/gfx/linux/os_gfx_linux_wayland.c:145-203 | issues the request the pre-call state decides; a left-button event, press or release, restarts the click clock at the pointer; left, middle and right append a press or release event at the pointer |
| Backend.Session.ButtonRequest | src/os/gfx/linux/os_gfx_linux_wayland.c:150-184 | the request log grows by exactly the request the button decision names |
| Backend.Session.PushButtonEvent | src/os/gfx/linux/os_gfx_linux_wayland.c:192-202 | appends the button's press or release event at the pointer, or nothing for other buttons |
| Backend.Session.PointerAxis | src/os/gfx/linux/os_gfx_linux_wayland.c:205-218 | appends one scroll event at the pointer whose vertical delta is a tenth of the value on the vertical axis and zero otherwise |
| Backend.Session.SetCursor | src/os/gfx/linux/os_gfx_linux_wayland.c:1013-1023 | while the border cursor is forced nothing changes, not even the last set cursor; otherwise the cursor is recorded and its theme cursor is shown |
| Backend.Session.KeyboardKeymap | src/os/gfx/linux/os_gfx_linux_wayland.c:252-266 | records whether a keyboard state was created from the keymap; the new state has no active modifier |
| Backend.Session.KeyboardModifiers | src/os/gfx/linux/os_gfx_linux_wayland.c:376-384 | with a keyboard state (the source updates it without a check), the effective Shift, Ctrl and Alt state becomes the given state |
| Backend.Session.KeyboardKey | src/os/gfx/linux/os_gfx_linux_wayland.c:279-374 | appends exactly one press or release event carrying the table's key; then, on a press with a keyboard state, one text event per filtered codepoint in decode order |
| Backend.Session.SeatCapabilities | src/os/gfx/linux/os_gfx_linux_wayland.c:400-430 | pointer and keyboard exist iff their capability bit is set; one is created only if missing and released only if present, so a repeated call issues nothing |
| Backend.Session.ToplevelConfigure | src/os/gfx/linux/os_gfx_linux_wayland.c:494-531 | maximized iff MAXIMIZED is in the state set, fullscreen iff FULLSCREEN is; each dimension is replaced only when positive; then the surface is resized to the truncated scaled size and committed |
| Backend.Session.ToplevelClose | src/os/gfx/linux/os_gfx_linux_wayland.c:533-538 | appends one window-close event for the window |
| Backend.Session.OpenWindow | src/os/gfx/linux/os_gfx_linux_wayland.c:615-672 | takes the head of the free list or a fresh window, resets it to the defaults, appends it as the new tail of the live list, keeps the lists duplicate-free and disjoint, and creates the toplevel with a round trip |
| Backend.Session.CloseWindow | src/os/gfx/linux/os_gfx_linux_wayland.c:674-685 | both window lists are unchanged; a non-zero handle destroys its toplevel with a round trip; the zero handle issues nothing |
| Backend.Session.SetMaximizedState | src/os/gfx/linux/os_gfx_linux_wayland.c:754-767 | a non-zero handle issues set or unset maximized, then a round trip; the zero handle issues nothing |
| Backend.Session.SetFullscreenState | src/os/gfx/linux/os_gfx_linux_wayland.c:734-744 | a non-zero handle issues set or unset fullscreen, without a round trip; the zero handle issues nothing |
| Backend.IsMaximized | src/os/gfx/linux/os_gfx_linux_wayland.c:746-752 | true iff the handle is non-zero and the window is maximized |
| Backend.IsFullscreen | src/os/gfx/linux/os_gfx_linux_wayland.c:726-732 | true iff the handle is non-zero and the window is fullscreen |
| Backend.ClearCustomBorderData | src/os/gfx/linux/os_gfx_linux_wayland.c:800-810 | the client-area list is emptied and both thicknesses are zero; nothing else changes; the zero handle changes nothing |
| Backend.PushCustomTitleBar | src/os/gfx/linux/os_gfx_linux_wayland.c:812-818 | only the title-bar thickness changes; the zero handle changes nothing |
| Backend.PushCustomEdges | src/os/gfx/linux/os_gfx_linux_wayland.c:820-826 | only the edge thickness changes; the zero handle changes nothing |
| Backend.PushCustomTitleBarClientArea | src/os/gfx/linux/os_gfx_linux_wayland.c:828-839 | the rectangle is appended at the tail (FIFO) when the arena provides memory; nothing else changes |
| Backend.RectFromWindow | src/os/gfx/linux/os_gfx_linux_wayland.c:841-848 | the zero handle gives (0,0,0,0); otherwise the rectangle runs from the origin to the scaled size |
| Backend.ClientRectFromWindow | src/os/gfx/linux/os_gfx_linux_wayland.c:850-857 | for a non-zero handle, the client rectangle equals the window rectangle |
| Backend.MouseFromWindow | src/os/gfx/linux/os_gfx_linux_wayland.c:979-988 | the pointer position of the window, or (0,0) for the zero handle |
| Backend.RectOfValidWindow | src/os/gfx/linux/os_gfx_linux_wayland.c:841-848 | a valid window (positive size and scale, which the reset establishes and the configure handler keeps) has a non-empty rectangle |

## Left out

- The libwayland, xdg-shell, viewporter, EGL and GL calls are foreign code. They appear only as entries of the request log:
  - `CreateToplevel`: the surface, viewport, fractional-scale object, xdg surface, toplevel and title that `os_window_open` creates (lines 639-662);
  - `SetPointerCursor`: the whole of `set_cursor`, that is the cursor request, the attach, the damage and the cursor-surface commit (lines 90-98);
  - `ResizeSurface`: the viewport destination, `wl_egl_window_resize` and `glViewport` of `toplevel_configure` (lines 526-529);
  - `Commit`: the surface commit of `toplevel_configure`;
  - `DestroyToplevel`: the toplevel, xdg-surface and surface destruction of `os_window_close`;
  - `Roundtrip`: `wl_display_roundtrip`;
  - the maximize, fullscreen, resize, move and window-menu requests, and the seat's get and release requests, one entry each.
- The model does not log the surface commit of `os_window_open` (line 666), `wl_egl_window_create`, or display dispatch.
- xkbcommon and `utf8_decode` are foreign code, so their results become parameters:
  - the text loop runs over a given sequence of `(codepoint, inc)` decoder results, one per byte offset;
  - the effective modifier state is three booleans;
  - `keyboard_handle_keymap` records only whether a keyboard state was created.
- The mmap of the keymap and the keysym-to-UTF-8 conversion are I/O and foreign code, and are not part of this model.
- Floating point: `double` positions and the `float` scale and thicknesses are `real`, so float rounding is not modelled. The C `int` conversions are modelled by truncation. The model does not capture their undefined behaviour on out-of-range values.
- Backend.Session.PointerAxis: the event's horizontal delta is always zero and is not a field of the event. The `wl_fixed_t` conversion is exact.
- Backend.Session.KeyboardKey: it appends the text events after the loop instead of inside it. The events and their order are the same, because the loop itself appends nothing else.
- `fractional_preferred_scale` is left out. It is a float division and a cursor-theme reload. As a result, no model operation changes a window's scale.
- Cursor theme loading, and the buffer and hotspot arithmetic of `set_cursor`, are foreign code. A cursor is shown as its theme name.
- `registry_handle_global` binds foreign globals by string matching, and `os_gfx_init` connects to the display. Both are left out. The session constructor models only the zeroed state.
- `xdg_surface_configure` (the acknowledgement), `wm_ping` and `os_get_events` (the event-arena reset and display dispatch) are protocol plumbing.
- `os_get_modifiers` reads the keyboard state without a check, and `os_lnx_push_event` calls it for every event. So on a seat with no keyboard state, every event the source pushes would hand a null state to `xkb_state_mod_name_is_active`. That includes the first pointer motion. The model has no null state, so it gives the empty mask instead. The constructor and `KeyboardKeymap` clear the modifier flags, and `KeyboardModifiers` requires a keyboard state, so with no keyboard state the flags are all false.
- The window list is modelled as sequences of windows, not as linked nodes:
  - the `next`/`prev` links of the live list and the free-list stack;
  - the title-bar arena and its client-area list.
- The GLib and DBus file chooser, the custom `GSource`, `os_show_in_filesystem_ui`, `os_open_in_browser` and `os_graphical_message` are desktop I/O.
- Stubs that return constants or do nothing are left out: clipboard, monitors, DPI, window focus, the minimized query, bring-to-front, set-monitor, external windows and `os_key_is_down`.
- Three single-request wrappers are left out of the core: `os_window_set_title` sends `xdg_toplevel_set_title`, `os_window_first_paint` commits the surface, and `os_window_set_minimized` sends `xdg_toplevel_set_minimized` on a minimize.
