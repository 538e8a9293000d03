/** The Option and Result datatypes used throughout the model. */
module Wrappers {

  /** An optional value; `None` stands for an absent result. */
  datatype Option<+T> = None | Some(value: T)

  /** A computation that either produced a value or failed with an error. */
  datatype Result<+R, +E> = Success(value: R) | Failure(error: E)
}
