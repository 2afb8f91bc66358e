/** Optional values and failure-compatible results, used for the reply fields
    that may be absent and for the handler's early exits. */
module Wrappers {

  datatype Option<+T> = None | Some(value: T)

  /** A value, or the error that ended the computation early. */
  datatype Result<+T, +E> = Ok(value: T) | Err(error: E) {

    predicate IsFailure() {
      Err?
    }

    function PropagateFailure<U>(): Result<U, E>
      requires Err?
    {
      Err(error)
    }

    function Extract(): T
      requires Ok?
    {
      value
    }
  }
}
