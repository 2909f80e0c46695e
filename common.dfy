/** Small value types shared by the modules of the model. */
module Common {

  /** A value that may be absent: JavaScript's `undefined` / `null`. */
  datatype Option<T> = None | Some(value: T)

  /** The outcome of a call into an external service: a value, or a thrown error
      whose details the caller ignores (it only reaches a `catch` block). */
  datatype Reply<T> = Ok(value: T) | Failed

  /** An element of a `Uint8Array`. */
  newtype uint8 = x: int | 0 <= x < 256

  /** JavaScript truthiness of an optional boolean option (`undefined` is falsy). */
  predicate Truthy(b: Option<bool>)
  {
    b == Some(true)
  }

  function Min(a: int, b: int): (m: int)
  {
    if a <= b then a else b
  }
}
