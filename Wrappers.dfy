/** Values that stand for the .NET exceptions the tracker throws and for
    nullable references to immutable values. */
module Wrappers {

  /** The exception kinds the core raises; each carries the parameter name the
      source passes to the exception (`nameof(...)`). */
  datatype Error =
    | ArgumentNull(param: string)        // System.ArgumentNullException
    | ArgumentOutOfRange(param: string)  // System.ArgumentOutOfRangeException
    | Storage                            // I/O or (de)serialisation failure of the repository

  /** Outcome of an operation that returns nothing (`void`) but may throw. */
  datatype Outcome = Pass | Fail(error: Error)

  /** Outcome of an operation that returns a value or throws. */
  datatype Result<+T> = Success(value: T) | Failure(error: Error)

  /** A possibly null reference to an immutable value, such as a .NET `string`. */
  datatype Option<+T> = None | Some(value: T)
}
