/** Shared vocabulary: results that may carry one of the Python exceptions the core raises. */
module Base {

  /** The exceptions the modelled code can raise. */
  datatype Error =
    | KeyError(key: int)      // a lookup in the action-to-delta dictionary missed
    | IndexError(index: int)  // an index into an empty manual action list

  /** A value, or the exception that aborted the computation. */
  datatype Result<T> = Ok(value: T) | Err(error: Error)

  function Min(a: int, b: int): int
  {
    if a < b then a else b
  }

  function MaxReal(a: real, b: real): real
  {
    if a < b then b else a
  }

  /** The number of iterations of `range(n)` (and of `while i < n` from 0): none when n is negative. */
  function Budget(n: int): nat
  {
    if n < 0 then 0 else n
  }
}
