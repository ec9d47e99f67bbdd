/** Failure-compatible wrappers shared by the modules of this model. */
module Wrappers {

  /** An optional value: Java's nullable references. */
  datatype Option<+T> = None | Some(value: T)

  /** A value or the exception that stopped its computation. */
  datatype Result<+R, +E> = Success(value: R) | Failure(error: E)

  /** The outcome of an operation that returns nothing but may throw. */
  datatype Outcome<+E> = Pass | Fail(error: E) {

    predicate IsFailure() {
      Fail?
    }

    function PropagateFailure(): Outcome<E>
      requires Fail?
    {
      this
    }
  }
}
