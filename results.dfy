/** Optional values and results of fallible steps, used throughout the model. */
module Results {

  /** A value that may be unset (PHP `null`). */
  datatype Option<+T> = None | Some(value: T) {

    /** The value, or `default` when it is unset. */
    function GetOr(default: T): T
    {
      match this
      case Some(v) => v
      case None => default
    }
  }

  /** The outcome of a step that either yields a value or fails with an error. */
  datatype Result<+R, +E> = Success(value: R) | Failure(error: E)

  /** The outcome of a step that yields nothing when it succeeds. */
  datatype Outcome<+E> = Pass | Fail(error: E)
}
