/** Failure-carrying results used wherever the C++ code throws or the
    Python script would stop. */
module Wrappers {

  datatype Option<+T> = None | Some(value: T)

  datatype Result<+R, +E> = Success(value: R) | Failure(error: E)
}
