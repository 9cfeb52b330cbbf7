/** Failure-compatible wrappers shared by every module of the model: `Option`
    for the source's optionals and `Result` for its throwing functions. */
module Results {

  /** An optional value, standing for a Swift optional. */
  datatype Option<+T> = None | Some(value: T)

  /** Either a value or the error a throwing function would have thrown. */
  datatype Result<+T, +E> = Success(value: T) | Failure(error: E) {

    predicate IsFailure() {
      Failure?
    }

    function PropagateFailure<U>(): Result<U, E>
      requires Failure?
    {
      Failure(error)
    }

    function Extract(): T
      requires Success?
    {
      value
    }
  }
}
