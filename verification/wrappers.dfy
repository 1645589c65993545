/** The optional-value wrapper used for the payload's optional fields and for lookups. */
module Wrappers {

  /** A value that may be missing: the model's stand-in for Rust's `Option`. */
  datatype Option<+T> = None | Some(value: T) {

    /** The wrapped value, or `default` when there is none (Rust's `unwrap_or`). */
    function GetOr(default: T): (r: T)
      ensures Some? ==> r == value
      ensures None? ==> r == default
    {
      match this
      case Some(v) => v
      case None => default
    }
  }
}
