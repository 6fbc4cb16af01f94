/** Small value wrappers shared by every module of the model. */
module Common {

  /** A value that may be missing: JavaScript's `null` / `undefined`. */
  datatype Option<T> = None | Some(value: T)

  /** The outcome of a backend call: the data, or the error message it reported. */
  datatype Result<T> = Ok(value: T) | Err(message: string)

  /** The smaller of two integers. */
  function Min(a: int, b: int): int { if a <= b then a else b }

  /** The larger of two integers. */
  function Max(a: int, b: int): int { if a <= b then b else a }
}
