/** Python-level values the trainer passes around: optional arguments and the
    exceptions that abort a call. */
module Outcomes {

  /** A Python value that may be `None`. */
  datatype Option<+T> = None | Some(value: T)

  /** The exception kinds the core can raise. */
  datatype Error =
    | TypeError       // arithmetic on a `None` configuration value
    | IndexError      // indexing an empty tuple
    | AssertionError  // a failed `assert` or shape check

  /** A call that either returns a value or raises. */
  datatype Result<+T> = Success(value: T) | Failure(error: Error)

  /** A call that returns nothing or raises. */
  datatype Outcome = Pass | Fail(error: Error)
}
