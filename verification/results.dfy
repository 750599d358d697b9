/** Failure-carrying values used by the driver model: an optional value for a
    serial exchange that may not produce a reply, and a result for a property
    or command that may raise. */
module Results {

  datatype Option<+T> = None | Some(value: T) {

    /** The carried value, or `default` when there is none. */
    function GetOr(default: T): T {
      match this
      case Some(v) => v
      case None => default
    }
  }

  datatype Result<+T, +E> = Success(value: T) | Failure(error: E)
}
