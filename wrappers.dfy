/** Option and Result values, as the server code uses Rust's `Option` and
    `Result<_, anyhow::Error>`. */
module Wrappers {

  datatype Option<T> = None | Some(value: T) {

    /** Rust's `Option::or_else`: keep this value, or fall back to `other`
        when this is `None`. */
    function OrElse(other: Option<T>): (r: Option<T>)
      ensures Some? ==> r == this
      ensures None? ==> r == other
    {
      if Some? then this else other
    }
  }

  datatype Result<R, E> = Success(value: R) | Failure(error: E)
}
