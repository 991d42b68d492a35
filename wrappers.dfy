/** The optional-value datatype used throughout the model, standing for a
    value that may be `null`/`undefined` in the application. */
module Wrappers {

  datatype Option<+T> = None | Some(value: T)

  /** The outcome of an operation that may throw. */
  datatype Result<+R, +E> = Success(value: R) | Failure(error: E)
}
