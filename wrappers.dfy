/** Option, Result and Outcome: Java's nullable references and thrown exceptions,
    made explicit as values. */
module Wrappers {

  datatype Option<+T> = None | Some(value: T)

  datatype Result<+R, +E> = Success(value: R) | Failure(error: E)

  /** The outcome of a check that returns nothing or throws. */
  datatype Outcome<+E> = Pass | Fail(error: E)
}
