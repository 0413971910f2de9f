/** Failure-carrying wrappers used in place of Java's null results and exceptions. */
module Wrappers {

  /** A possibly absent value; `None` stands for a Java `null`. */
  datatype Option<+T> = None | Some(value: T)

  /** A value or the error that a Java method would have thrown instead. */
  datatype Result<+R, +E> = Success(value: R) | Failure(error: E)

  /** Completion of a `void` Java method: normal return or the exception it threw. */
  datatype Outcome<+E> = Pass | Fail(error: E)
}
