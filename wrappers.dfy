/** Option and Result, the way Go's `(value, error)` pairs and nil values are written here. */
module Wrappers {
  datatype Option<T> = None | Some(value: T)

  /** A Go `(T, error)` return: `Ok` when the error is nil, `Fail` otherwise. */
  datatype Result<T, E> = Ok(value: T) | Fail(error: E)
  {
    predicate IsFailure() { Fail? }

    function PropagateFailure<U>(): Result<U, E>
      requires Fail?
    {
      Fail(error)
    }

    function Extract(): T
      requires Ok?
    {
      value
    }
  }
}
