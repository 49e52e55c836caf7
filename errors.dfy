/** The exceptions the debug stream throws, and the values that stand for a call that may throw. */
module Errors {
  datatype Option<T> = None | Some(value: T)

  /** `std::invalid_argument` and `std::runtime_error`, each with its `what()` message. */
  datatype Exception = InvalidArgument(what: string) | RuntimeError(what: string)

  /** A call that returns a value or throws. */
  datatype Result<T> = Ok(value: T) | Err(error: Exception)

  /** A call that returns nothing or throws. */
  datatype Outcome = Pass | Fail(error: Exception)
}
