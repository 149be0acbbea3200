/** The two result shapes every module shares: Rust's `Option` and `Result`. */
module Results {
  datatype Option<+T> = None | Some(value: T) {
    /** The value, or `fallback` when there is none. */
    function UnwrapOr(fallback: T): T {
      match this
      case Some(v) => v
      case None => fallback
    }
  }

  datatype Result<+T, +E> = Ok(value: T) | Err(error: E)
}
