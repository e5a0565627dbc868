/** Small failure-compatible datatypes shared by the other modules. */
module Wrappers {

  /** A value that may be absent: PHP's `null` when it stands for "not set". */
  datatype Option<+T> = None | Some(value: T)

  /** The outcome of an operation that either yields a value or throws. */
  datatype Result<+R, +E> = Success(value: R) | Failure(error: E)
}
