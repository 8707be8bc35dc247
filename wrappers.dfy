/** Failure-compatible value types shared by the model. */
module Wrappers {

  /** A value that may be missing (None plays the role of pandas' NaN / Python's None). */
  datatype Option<T> = None | Some(value: T)

  /** The outcome of an operation that either yields a value or raises. */
  datatype Result<T, E> = Ok(value: T) | Err(error: E)

  /** The outcome of an operation that yields nothing or raises. */
  datatype Outcome<E> = Pass | Fail(error: E)
}
