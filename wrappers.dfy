/** Failure-carrying values: Python's `None` and raised exceptions become data. */
module Wrappers {

  /** A value that may be absent, as Python's `Optional[T]`. */
  datatype Option<+T> = None | Some(value: T)

  /** A computation that returns a value or raises an exception. */
  datatype Result<+T, +E> = Ok(value: T) | Err(error: E)
}
