/** Option, Result and Outcome: the stand-ins for C#'s null and for thrown exceptions. */
module Wrappers {

  /** A value that may be absent; `None` plays the part of a null reference. */
  datatype Option<+T> = None | Some(value: T)

  /** A value, or the exception that was thrown instead of producing it. */
  datatype Result<+R, +E> = Success(value: R) | Failure(error: E)

  /** A call that returns nothing: it completed, or it threw `error`. */
  datatype Outcome<+E> = Pass | Fail(error: E)
}
