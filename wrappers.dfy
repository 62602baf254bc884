/** Failure-carrying values used across the model: `Option` stands for a
    pointer that may be null, `Result` for a call that may raise. */
module Wrappers {

  datatype Option<+T> = None | Some(value: T)

  datatype Result<+R, +E> = Success(value: R) | Failure(error: E)
}
