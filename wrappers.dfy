/** Failure-compatible result types shared by the modules of this project. */
module Wrappers {

  /** The value of an operation, or the error that stopped it. */
  datatype Result<+R, +E> = Success(value: R) | Failure(error: E)

  /** The outcome of a check that produces no value. */
  datatype Outcome<+E> = Pass | Fail(error: E)
}
