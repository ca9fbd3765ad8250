/** Option and Result, with the few combinators of Rust's `Option` that the
    modelled code chains together (`map`, `and_then`, `or_else`). */
module Wrappers {

  datatype Option<T> = None | Some(value: T) {

    /** Rust's `Option::map`. */
    function Map<U>(f: T -> U): Option<U> {
      match this
      case None => None
      case Some(v) => Some(f(v))
    }

    /** Rust's `Option::and_then`. */
    function AndThen<U>(f: T -> Option<U>): Option<U> {
      match this
      case None => None
      case Some(v) => f(v)
    }

    /** Rust's `Option::or_else`: the fallback is only evaluated on `None`. */
    function OrElse(f: () -> Option<T>): Option<T> {
      match this
      case None => f()
      case Some(_) => this
    }
  }

  datatype Result<T, E> = Success(value: T) | Failure(error: E)
}
