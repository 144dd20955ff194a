/**
 * Small value types shared by every variant of the forecast programs:
 * Rust's `u8`, `Option`, and the `Ord::clamp` used on day counts.
 */
module Primitives {

  /** Rust's `u8`: the type of every day count in the programs. */
  newtype u8 = x: int | 0 <= x < 256

  /** Rust's `Option`; `GetOr` is `unwrap_or`. */
  datatype Option<+T> = None | Some(value: T) {
    function GetOr(default: T): T {
      match this
      case Some(v) => v
      case None => default
    }
  }

  function Min(a: int, b: int): int {
    if a <= b then a else b
  }

  /**
   * `Ord::clamp(x, lo, hi)`. Rust panics when `lo > hi`; every call site
   * uses constant bounds that satisfy the precondition.
   */
  function Clamp(x: int, lo: int, hi: int): (r: int)
    requires lo <= hi
    ensures lo <= r <= hi
    ensures lo <= x <= hi ==> r == x
    ensures x < lo ==> r == lo
    ensures hi < x ==> r == hi
  {
    if x < lo then lo else if hi < x then hi else x
  }
}
