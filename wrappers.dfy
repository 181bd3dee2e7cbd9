/** Option and Result values standing for JavaScript's `null`/`undefined` and for rejected promises. */
module Wrappers {

  /** A value that may be missing (`null` or `undefined` in the source). */
  datatype Option<+T> = None | Some(value: T)

  /** The outcome of an operation that may throw: `Failure` carries the error message. */
  datatype Result<+R> = Success(value: R) | Failure(error: string)
}
