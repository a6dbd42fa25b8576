/** Failure-carrying values used by every component: an optional value and
    a success-or-error result (the JavaScript code expresses both with
    `undefined`, `null` and thrown errors). */
module Base {

  datatype Option<+T> = None | Some(value: T) {

    /** The wrapped value, or `default` when there is none. */
    function GetOr(default: T): T {
      match this
      case Some(v) => v
      case None => default
    }
  }

  datatype Result<+T, +E> = Ok(value: T) | Err(error: E)
}
