/** Optional values and results with an error, shared by every module of the model. */
module Wrappers {

  /** A value that may be absent: a missing key of a JSON object, or Python's None. */
  datatype Option<+T> = None | Some(value: T)
  {
    /** The value, or `default` when it is absent (Python's `d.get(k, default)`). */
    function GetOr(default: T): T
    {
      match this
      case Some(v) => v
      case None => default
    }
  }

  /** The outcome of an operation that can raise: a value, or the exception it raised. */
  datatype Result<+T, +E> = Success(value: T) | Failure(error: E)

  function Min(a: int, b: int): int
  {
    if a <= b then a else b
  }

  function Max(a: int, b: int): int
  {
    if a <= b then b else a
  }
}
