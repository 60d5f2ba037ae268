/** Failure-carrying datatypes used for the wrapper's thrown errors and its nullable values. */
module Wrappers {

  /** A value that may be absent (JavaScript `null` or `undefined`). */
  datatype Option<+T> = None | Some(value: T)

  /** The value of an operation that either returns or throws an `Error` with the given message. */
  datatype Result<+T, +E> = Ok(value: T) | Err(error: E)

  /** The completion of an operation that returns nothing or throws. */
  datatype Outcome<+E> = Pass | Fail(error: E)
}
