/** Failure-carrying wrappers used across the model: `Option` for a value that
    may be absent (a query that failed, a key that is missing) and `Result` for
    an operation that raises one of the program's exceptions instead. */
module Results {

  datatype Option<+T> = None | Some(value: T)

  datatype Result<+T, +E> = Success(value: T) | Failure(error: E) {
    predicate IsFailure() {
      Failure?
    }

    function PropagateFailure<U>(): Result<U, E>
      requires Failure?
    {
      Failure(error)
    }

    function Extract(): T
      requires Success?
    {
      value
    }
  }
}
