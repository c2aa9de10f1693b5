/** Failure-compatible wrappers shared by the modules of the model. */
module Wrappers {

  /** A value that may be absent: JavaScript's `null`/`undefined` results. */
  datatype Option<+T> = None | Some(value: T)

  /** The settlement of a promise or a call that may throw. */
  datatype Result<+R, +E> = Success(value: R) | Failure(error: E)

  /** The settlement of a `Promise<void>`: resolved, or rejected with a reason. */
  datatype Outcome<+E> = Pass | Fail(error: E)
}
