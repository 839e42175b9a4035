/** The two Rust standard wrappers the application's state machine relies on. */
module Base {

  /** Rust's `Option<T>`: the result of `Vec::get` and `Iterator::position`. */
  datatype Option<+T> = None | Some(value: T) {

    /** `unwrap_or(default)` */
    function GetOr(default: T): T {
      match this
      case Some(v) => v
      case None => default
    }
  }

  /** Rust's `Result<T, E>`: what the inference call hands back to the update loop. */
  datatype Result<+T, +E> = Ok(value: T) | Err(error: E)
}
