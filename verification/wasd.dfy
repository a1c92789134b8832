/**
 * The four movement keys the camera and the observer read. They come from
 * a different revision of the input handler than the arrow-key latch, so
 * they are given here as plain flags.
 */
module Wasd {

  datatype WasdKeys = WasdKeys(w: bool, a: bool, s: bool, d: bool)

  /** +1 when only `plus` is held, -1 when only `minus` is, 0 otherwise. */
  function Axis(minus: bool, plus: bool): (r: int)
    ensures -1 <= r <= 1
    ensures r == 0 <==> minus == plus
    ensures r == 1 <==> plus && !minus
  {
    (if plus then 1 else 0) - (if minus then 1 else 0)
  }
}
