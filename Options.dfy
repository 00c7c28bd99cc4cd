/** Nullable values and failure results.
    `Option` stands for a nullable column value (SQL NULL is `None`);
    `Result` stands for a Python computation that either yields a value
    or raises an exception. */
module Options {

  datatype Option<+T> = None | Some(value: T)

  /** A failure-compatible result, usable with `:-`. */
  datatype Result<+T, +E> = Success(value: T) | Failure(error: E) {

    predicate IsFailure() {
      Failure?
    }

    function PropagateFailure<U>(): Result<U, E>
      requires Failure?
    {
      Failure(error)
    }

    function Extract(): T
      requires Success?
    {
      value
    }
  }
}
