/** Failure-compatible result types used across the registry model. */
module Wrappers {

  /** A value that may be absent: TypeScript's `T | undefined` or `T | null`. */
  datatype Option<+T> = None | Some(value: T) {
    function GetOr(default: T): T {
      match this
      case Some(v) => v
      case None => default
    }
  }

  /** The outcome of an operation that may throw: `Err` carries the error message. */
  datatype Result<+T> = Ok(value: T) | Err(error: string)

  /** The outcome of a check that returns nothing or throws. */
  datatype Outcome = Pass | Fail(error: string)
}
