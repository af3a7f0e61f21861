/** `Option` for a JavaScript null-or-value, `Result` for an operation that
    can throw. */
module Wrappers {

  datatype Option<+T> = None | Some(value: T)

  datatype Result<+R, +E> = Success(value: R) | Failure(error: E)
}
