/** Small shared definitions: an optional value and two arithmetic helpers. */
module Basics {

  /** Rust's `Option<T>`. */
  datatype Option<+T> = None | Some(value: T)

  /** Absolute value, `f64::abs` on reals. */
  function Abs(x: real): real
  {
    if x < 0.0 then -x else x
  }

  function Min(a: int, b: int): int
  {
    if a <= b then a else b
  }
}
