/** Option and Result wrappers shared by every module of the model. */
module Wrappers {
  /** A value that may be absent (Python's `Optional[T]`, with `None` as absence). */
  datatype Option<T> = None | Some(value: T)

  /** The outcome of an operation that either returns a value or raises an error of kind `E`. */
  datatype Result<T, E> = Ok(value: T) | Err(error: E)
  {
    predicate IsFailure()
    {
      Err?
    }

    function PropagateFailure<U>(): Result<U, E>
      requires Err?
    {
      Err(error)
    }

    function Extract(): T
      requires Ok?
    {
      value
    }
  }

  /** The outcome of an operation that returns nothing or raises an error of kind `E`. */
  datatype Outcome<E> = Pass | Fail(error: E)
}
