/** Option, Result and Outcome: the values that stand for Python's exceptions. */
module Results {

  datatype Option<+T> = None | Some(value: T)

  /** Either the value a call returns, or the exception it raises. */
  datatype Result<+T, +E> = Ok(value: T) | Err(error: E)

  /** The outcome of a call that returns nothing (`-> None`) or raises. */
  datatype Outcome<+E> = Pass | Fail(error: E)
}
