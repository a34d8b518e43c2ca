/** The `Option` and `Result` datatypes shared by the rest of the model. */
module Wrappers {

  /** An optional value: an absent (undefined or null) attribute is `None`. */
  datatype Option<+T> = None | Some(value: T)

  /** The outcome of an operation that either yields a value or fails. */
  datatype Result<+R, +E> = Success(value: R) | Failure(error: E)
}
