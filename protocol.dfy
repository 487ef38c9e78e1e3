/**
 * Wire-level vocabulary of the Wayland backend: the 32-bit integers the
 * compositor hands to the listeners, the protocol constants the listeners
 * compare them with, and the float rectangle type of the window layer.
 */
module Protocol {

  /** A `uint32_t` as delivered by libwayland. */
  type Uint32 = x: int | 0 <= x < 0x1_0000_0000

  const Uint32Modulus: int := 0x1_0000_0000

  // Pointer buttons, from linux/input-event-codes.h.
  const BtnLeft: Uint32 := 0x110
  const BtnRight: Uint32 := 0x111
  const BtnMiddle: Uint32 := 0x112

  // wl_pointer.button_state.pressed and wl_keyboard.key_state.pressed.
  const ButtonStatePressed: Uint32 := 1
  const KeyStatePressed: Uint32 := 1

  // wl_pointer.axis.vertical_scroll.
  const AxisVerticalScroll: Uint32 := 0

  // wl_seat.capability bits.
  const CapabilityPointer: bv32 := 1
  const CapabilityKeyboard: bv32 := 2

  // xdg_toplevel.state values.
  const StateMaximized: Uint32 := 1
  const StateFullscreen: Uint32 := 2

  /** Rng2F32: a rectangle from (x0, y0) to (x1, y1); F32 is modelled as `real`. */
  datatype Rect = Rect(x0: real, y0: real, x1: real, y1: real)

  /** The rectangle every zero-handle query of the window layer returns. */
  const ZeroRect: Rect := Rect(0.0, 0.0, 0.0, 0.0)

  /**
   * C's implicit conversion of a floating value to `int`: truncation
   * toward zero (the `int x = w->mouse_x` family of assignments).
   */
  function Trunc(r: real): int {
    if r >= 0.0 then r.Floor else -((-r).Floor)
  }

  /** Truncation drops the fraction toward zero: |Trunc(r)| <= |r| < |Trunc(r)| + 1, with the sign of r. */
  lemma TruncBounds(r: real)
    ensures r >= 0.0 ==> 0 <= Trunc(r) && Trunc(r) as real <= r < Trunc(r) as real + 1.0
    ensures r < 0.0 ==> Trunc(r) <= 0 && Trunc(r) as real - 1.0 < r <= Trunc(r) as real
  {
  }
}
