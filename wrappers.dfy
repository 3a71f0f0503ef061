/** Option and Result: a missing annotation and a thrown `Error` respectively. */
module Wrappers {

  datatype Option<+T> = None | Some(value: T)

  /** `Failure` stands for a JavaScript `throw`: it aborts the whole computation. */
  datatype Result<+T, +E> = Success(value: T) | Failure(error: E) {
    predicate IsFailure() {
      Failure?
    }

    function PropagateFailure<U>(): Result<U, E>
      requires Failure?
    {
      Failure(error)
    }

    function Extract(): T
      requires Success?
    {
      value
    }
  }
}
