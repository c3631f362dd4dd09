/** Optional values and pass/fail outcomes. */
module Wrappers {

  /** A value that may be missing (`undefined`/`null` in the source). */
  datatype Option<+T> = None | Some(value: T)

  /** The outcome of an operation that either succeeds or throws an `Error`
      carrying a message. */
  datatype Outcome<+E> = Pass | Fail(error: E)
}
