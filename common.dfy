/** Failure-carrying results and the exception kinds the modelled code raises. */
module Common {

  datatype Option<+T> = None | Some(value: T)

  datatype Result<+T, +E> = Success(value: T) | Failure(error: E)

  /** The outcome of an operation that returns nothing on success (a Python `-> None`). */
  datatype Outcome<+E> = Pass | Fail(error: E)

  /** The Python exceptions raised by the modelled code, with their messages. */
  datatype Error =
    | ValueError(message: string)
    | TypeError(message: string)
    | OSError(message: string)

  /** A count that Python clamps at zero, as `range(n)` and `[x] * n` do for negative `n`. */
  function Max0(n: int): nat
  {
    if n < 0 then 0 else n
  }
}
