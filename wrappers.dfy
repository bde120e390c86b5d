/** The two wrapper types of the model: `Option` for a nullable reference or
    an absent keyword argument, `Result` for an operation that can raise. */
module Wrappers {

  datatype Option<+T> = None | Some(value: T)

  datatype Result<+T, +E> = Success(value: T) | Failure(error: E)
}
