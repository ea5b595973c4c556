/** Option and Result, the two shapes the store client's values and failures take. */
module Wrappers {

  /** A value that may be absent: TypeScript's `T | null`. */
  datatype Option<+T> = None | Some(value: T)

  /** Either a value or the error a promise is rejected with. */
  datatype Result<+R, +E> = Success(value: R) | Failure(error: E)
}
