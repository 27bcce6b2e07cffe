module Wrappers {
  /** Python's `None`-or-value, used for every attribute that may be missing. */
  datatype Option<T> = None | Some(value: T)

  /** A value, or the exception an operation raises instead. */
  datatype Result<T, E> = Success(value: T) | Failure(error: E)
}
