/** Failure-compatible wrappers used throughout the model: a missing value,
    and a computation that either returns a value or raises an exception. */
module Results {

  datatype Option<+T> = None | Some(value: T)

  /** The outcome of a call that may throw: `Err` carries what was thrown.
      Usable with `:-`, which models the exception propagating to the caller. */
  datatype Result<+T, +E> = Ok(value: T) | Err(error: E) {

    predicate IsFailure() {
      Err?
    }

    function PropagateFailure<U>(): Result<U, E>
      requires Err?
    {
      Err(error)
    }

    function Extract(): T
      requires Ok?
    {
      value
    }

    /** The exception raised, if any. */
    function ErrorIfAny(): Option<E> {
      if Err? then Some(error) else None
    }
  }
}
