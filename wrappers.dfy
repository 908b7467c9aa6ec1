/** Wrappers shared by the model: Java's nullable references become Option,
    a call that returns a value or throws becomes Result, and a void call that
    returns or throws becomes Outcome. */
module Wrappers {

  /** A Java reference that may be null. */
  datatype Option<+T> = None | Some(value: T)

  /** A call that either returns a value or throws `error`. */
  datatype Result<+T, +E> = Success(value: T) | Failure(error: E)

  /** A void call that either returns normally or throws `error`. */
  datatype Outcome<+E> = Pass | Fail(error: E)
}
