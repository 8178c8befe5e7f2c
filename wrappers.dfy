/** Failure-compatible wrappers shared by the other modules. */
module Wrappers {

  /** Python's `None`-or-value, as returned by `dict.get`. */
  datatype Option<+T> = None | Some(value: T)

  /** A value, or the exception the Python code would raise instead. */
  datatype Result<+R, +E> = Success(value: R) | Failure(error: E)
}
