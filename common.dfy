/** Small pieces shared by the screens: an optional value, and the
    `Math.min` / `Math.max` the handlers clamp with. */
module Common {

  /** A value that may be absent: an optional property, a `null` reference
      or an `undefined` lookup. */
  datatype Option<T> = None | Some(value: T)

  function Min(a: int, b: int): int {
    if a <= b then a else b
  }

  function Max(a: int, b: int): int {
    if a >= b then a else b
  }

  function MinReal(a: real, b: real): real {
    if a <= b then a else b
  }
}
