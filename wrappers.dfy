/** Failure-carrying result types shared by the emitter modules. */
module Wrappers {

  /** A value that may be absent (JavaScript's `undefined`). */
  datatype Option<+T> = None | Some(value: T)

  /** A computed value, or the error the computation threw instead. */
  datatype Result<+T, +E> = Success(value: T) | Failure(error: E)

  /** An operation with no result that either completes or throws. */
  datatype Outcome<+E> = Pass | Fail(error: E)
}
