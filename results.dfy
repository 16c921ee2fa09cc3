/** Option and Result values standing in for null returns and thrown exceptions. */
module Results {

  datatype Option<+T> = None | Some(value: T)

  /** A value, or the exception that was thrown instead; `:-` propagates
      the exception the way an uncaught throw leaves the caller. */
  datatype Result<+T, +E> = Ok(value: T) | Err(error: E)
  {
    predicate IsFailure() { Err? }

    function PropagateFailure<U>(): Result<U, E>
      requires Err?
    {
      Err(error)
    }

    function Extract(): T
      requires Ok?
    {
      value
    }
  }
}
