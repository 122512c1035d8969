/** Values that stand for the source's `None` returns and raised exceptions. */
module Common {

  /** A value that may be absent (Python's `None`). */
  datatype Option<+T> = None | Some(value: T)

  /** A value, or the error that was raised instead of producing it. */
  datatype Result<+T, +E> = Ok(value: T) | Err(error: E)

  /** Completion of an operation that returns nothing, or the error it raised. */
  datatype Outcome<+E> = Pass | Fail(error: E)
}
