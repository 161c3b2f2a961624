/** Failure-carrying values shared by every module of the model. */
module Wrappers {

  datatype Option<T> = None | Some(value: T)

  /** A value or an error the code reports to its caller. */
  datatype Result<T, E> = Success(value: T) | Failure(error: E)

  /** The outcome of code that may raise an exception nobody catches:
      the value it returns, or the name of the exception it raises. */
  datatype Outcome<T> = Returns(value: T) | Raises(exception: string)
}
