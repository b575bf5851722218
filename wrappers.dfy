/** Failure-carrying values standing in for Python's raised exceptions. */
module Wrappers {

  datatype Option<+T> = None | Some(value: T)

  /** A value, or the error the source would have raised instead. */
  datatype Result<+T, +E> = Ok(value: T) | Err(error: E)

  /** A check that returns nothing on success and raises on failure. */
  datatype Outcome<+E> = Pass | Fail(error: E)
}
