/** Failure-compatible wrappers: `None` stands for Python's `None` result,
    `Failure` for an exception that the caller catches. */
module Wrappers {

  datatype Option<+T> = None | Some(value: T)

  datatype Result<+R, +E> = Success(value: R) | Failure(error: E)
}
