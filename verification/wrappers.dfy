/** Failure-compatible results shared by the two services. */
module Wrappers {

  /** A value that may be absent (a JavaScript `undefined` or `null`). */
  datatype Option<+T> = None | Some(value: T)

  /** The `{ success: true, ... }` / `{ success: false, error }` records the services return. */
  datatype Result<+R, +E> = Success(value: R) | Failure(error: E)
}
