/** Optional values and results with an error, in place of Go's nil pointers and `error` returns. */
module Wrappers {

  datatype Option<+T> = None | Some(value: T) {
    /** The wrapped value, or `default` when absent. */
    function GetOr(default: T): T {
      match this
      case Some(v) => v
      case None => default
    }
  }

  datatype Result<+R, +E> = Success(value: R) | Failure(error: E)

  /** `[x]` when `present`, otherwise nothing. */
  function Optional<T>(present: bool, x: T): (r: seq<T>)
    ensures |r| == if present then 1 else 0
  {
    if present then [x] else []
  }
}
