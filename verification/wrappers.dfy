/** Failure-carrying return values used in place of Rust's `Option` and
    `Result`, including `Result<(), E>` (here `Outcome<E>`). */
module Wrappers {

  datatype Option<+T> = None | Some(value: T)

  /** `Result<T, E>`: either a value or the error that `?` would propagate. */
  datatype Result<+T, +E> = Success(value: T) | Failure(error: E)

  /** `Result<(), E>`: success carries no value. */
  datatype Outcome<+E> = Pass | Fail(error: E)
}
