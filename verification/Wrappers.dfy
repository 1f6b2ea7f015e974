/** Failure-compatible datatypes shared by every module. */
module Wrappers {
  datatype Option<+T> = None | Some(value: T)

  /** A call that may raise. `:-` propagates the error as an exception would. */
  datatype Outcome<+E> = Done | Raised(error: E) {
    predicate IsFailure() {
      Raised?
    }

    function PropagateFailure(): Outcome<E>
      requires Raised?
    {
      this
    }
  }
}
