/** Failure-compatible wrappers used by every stage of the extraction pipeline. */
module Results {

  datatype Option<+T> = None | Some(value: T)

  /** A stage either produces a value or fails with an error; `:-` propagates the error. */
  datatype Result<+T, +E> = Ok(value: T) | Err(error: E) {

    predicate IsFailure() {
      Err?
    }

    function PropagateFailure<U>(): Result<U, E>
      requires Err?
    {
      Err(error)
    }

    function Extract(): T
      requires Ok?
    {
      value
    }
  }
}
