/** Values that stand for the source's nullable references and thrown exceptions. */
module Failures {

  /** A reference that may be null: `None` is the null reference. */
  datatype Option<+T> = None | Some(value: T)

  /** The outcome of an operation that either returns a value or throws. */
  datatype Result<+T, +E> = Success(value: T) | Failure(error: E)

  /** `ArgumentNullException`, carrying the name of the parameter that was null. */
  datatype ArgumentNull = ArgumentNull(paramName: string)
}
