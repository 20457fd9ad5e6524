/** The values the engine's operations return: the error conditions it
    raises with `throw`, the results of operations that may throw, and
    optional values for nullable references. */
module Wrappers {

  /** The two exceptions of the engine: the price guard of `Stock` and the
      `default` branch of the periodicity lookup. */
  datatype Error = NegativePrice | UnsupportedPeriodicity

  /** The value of an operation that may throw. */
  datatype Result<T> = Ok(value: T) | Err(error: Error)

  /** The outcome of an operation that may throw and returns nothing. */
  datatype Outcome = Pass | Fail(error: Error)

  /** A value that may be absent (a nullable reference or an optional shape). */
  datatype Option<T> = None | Some(value: T)
}
