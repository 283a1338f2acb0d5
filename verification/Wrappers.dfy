/** The types for absent values and failures, and the little arithmetic, that the whole project shares. */
module Wrappers {

  /** A value that may be absent; a SQL NULL is modelled as None. */
  datatype Option<+T> = None | Some(value: T)

  /** The source's AppResult, with the errors of one component as E. */
  datatype Result<+R, +E> = Success(value: R) | Failure(error: E)

  function Min(a: int, b: int): int {
    if a < b then a else b
  }
}
