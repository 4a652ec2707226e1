/** Option, Result and Outcome: the error paths of the model. A Python exception
    raised by the modelled code becomes a `Failure` or `Fail` carrying an `Error`. */
module Wrappers {

  datatype Option<+T> = None | Some(value: T)

  datatype Result<+T, +E> = Success(value: T) | Failure(error: E)

  /** The result of an operation that returns nothing but may raise. */
  datatype Outcome<+E> = Pass | Fail(error: E)
}
