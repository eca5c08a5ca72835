/** Option, Result and Outcome values standing for Rust's Option, Result<T, E> and Result<()>. */
module Wrappers {

  datatype Option<+T> = None | Some(value: T) {
    /** `Option::or_else`: this value when present, otherwise `other`. */
    function OrElse(other: Option<T>): Option<T> {
      if Some? then this else other
    }
  }

  datatype Result<+T, +E> = Ok(value: T) | Err(error: E)

  /** The unit result `Result<()>`: success, or failure with a reason. */
  datatype Outcome<+E> = Pass | Fail(error: E)
}
