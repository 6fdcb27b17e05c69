/** Failure-compatible wrappers used by the model: a C# reference that may be
    null becomes an Option, an operation that may throw returns a Result. */
module Wrappers {

  datatype Option<+T> = None | Some(value: T)

  datatype Result<+R, +E> = Success(value: R) | Failure(error: E)
}
