/**
 * What the native window layer hands to the adapter: the input events whose
 * callbacks it runs, the input snapshot it returns from its own event pump,
 * and the window rectangle. Nothing of the native layer's behaviour is
 * modelled beyond these values.
 */
module Native {

  /** The native mouse buttons: the three the adapter knows and the numbered extras. */
  datatype MouseButton = Left | Middle | Right | Extra(index: nat)

  /** One native callback invocation, in the order the native pump runs them. */
  datatype NativeEvent =
    | KeyDown(key: int)
    | KeyUp(key: int)
    | MouseDown(button: MouseButton)
    | MouseUp(button: MouseButton)
    | MouseMove(x: int, y: int)
    | MouseWheel(delta: real)
    | Resized
    | Closing

  /** The pointer position the native pump reports once it has run every callback. */
  datatype InputSnapshot = InputSnapshot(mouseX: real, mouseY: real)

  /** A window rectangle: position and size. */
  datatype Rectangle = Rectangle(x: int, y: int, width: int, height: int)

  /**
   * The `(int)` cast of a floating-point value: the fraction is discarded,
   * rounding toward zero on both sides of the origin.
   */
  function Truncate(v: real): (r: int)
    ensures 0.0 <= v ==> 0 <= r && r as real <= v < r as real + 1.0
    ensures v < 0.0 ==> r <= 0 && r as real - 1.0 < v <= r as real
  {
    if 0.0 <= v then v.Floor else -((-v).Floor)
  }
}
