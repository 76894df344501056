/** Absent values and failing calls, shared by the response modules. */
module Wrappers {

  /** A PHP property that may hold `null`: `None` is null, `Some(v)` a value. */
  datatype Option<+T> = None | Some(value: T)

  /** The outcome of a PHP call that either returns a value or raises. */
  datatype Result<+T, +E> = Success(value: T) | Failure(error: E)
}
