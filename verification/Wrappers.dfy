/** Option and Result, the latter usable with `:-` so that a thrown error skips the rest of a transaction. */
module Wrappers {

  datatype Option<+T> = None | Some(value: T)

  datatype Result<+T, +E> = Success(value: T) | Failure(error: E) {
    predicate IsFailure() {
      Failure?
    }

    function PropagateFailure<U>(): Result<U, E>
      requires Failure?
    {
      Failure(error)
    }

    function Extract(): T
      requires Success?
    {
      value
    }
  }

  /** Two outcomes a caller of a rolled-back transaction cannot tell apart in the database. */
  ghost predicate SameEffect<T, E>(a: Result<T, E>, b: Result<T, E>) {
    (a.Success? <==> b.Success?) && (a.Success? ==> a.value == b.value)
  }
}
