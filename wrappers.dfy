/** Optional values and error-carrying results, standing in for JavaScript's
    `null`/`undefined` and for the `throw new Error(...)` paths of the catalogue code. */
module Wrappers {

  /** A value that may be absent (`null` or `undefined` in the source). */
  datatype Option<+T> = None | Some(value: T)

  /** The outcome of an operation that either returns a value or throws an `Error` with a message. */
  datatype Result<+T> = Ok(value: T) | Err(error: string)

  /** The outcome of an operation that returns nothing or throws an `Error` with a message. */
  datatype Outcome = Pass | Fail(error: string)
}
