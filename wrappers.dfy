/** Optional values and success-or-exception results used throughout the model. */
module Wrappers {

  /** An optional value: Python's `None` versus a present value. */
  datatype Option<+T> = None | Some(value: T)

  /** A computation that either produced a value or raised an exception. */
  datatype Result<+R, +E> = Success(value: R) | Failure(error: E)

  /** A check that either passed or raised an exception. */
  datatype Outcome<+E> = Pass | Fail(error: E)
}
