/** Option, Outcome and Result: the error paths of the executor and the script. */
module Wrappers {

  datatype Option<+T> = None | Some(value: T)

  /** The end of an operation that returns nothing when it succeeds. */
  datatype Outcome<+E> = Pass | Fail(error: E)

  datatype Result<+T, +E> = Success(value: T) | Failure(error: E)
}
