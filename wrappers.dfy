/** Option and Result: null references and thrown exceptions of the modelled code are values here. */
module Wrappers {

  /** None stands for a null reference. */
  datatype Option<+T> = None | Some(value: T)

  /** Failure stands for an exception thrown out of the operation. */
  datatype Result<+R, +E> = Success(value: R) | Failure(error: E)
}
