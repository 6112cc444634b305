/** Failure-carrying values used by the driver model. */
module Results {

  /** A value that may be absent. */
  datatype Option<+T> = None | Some(value: T)

  /** Either a value or the reason no value could be produced. */
  datatype Result<+T, +E> = Ok(value: T) | Err(error: E) {

    /** The value on success, `default` otherwise. */
    function GetOr(default: T): T {
      match this
      case Ok(v) => v
      case Err(_) => default
    }
  }
}
