/** Option and result wrappers shared by the model's modules. */
module Wrappers {

  /** A value that may be absent: JavaScript's `null`, Java's `null` and `Optional`. */
  datatype Option<+T> = None | Some(value: T)

  /** The result of a Java `void` method that may throw: it completes, or throws `error`. */
  datatype Outcome<+E> = Pass | Fail(error: E)

  /** The result of a Java method that returns a value or throws `error`. */
  datatype Result<+R, +E> = Success(value: R) | Failure(error: E)
}
