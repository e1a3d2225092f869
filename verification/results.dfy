/** Failure-carrying wrappers used to model the service's raised exceptions
    and Python's optional fields. */
module Results {

  /** An optional value: Python's `Optional[T]` (None or a value). */
  datatype Option<+T> = None | Some(value: T) {

    /** The carried value, or `default` when there is none. */
    function GetOr(default: T): T {
      match this
      case Some(v) => v
      case None => default
    }
  }

  /** Either a value or the error the Python service would have raised. */
  datatype Result<+T, +E> = Ok(value: T) | Err(error: E)
}
