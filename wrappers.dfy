/** Option, Result and two-element arrays, as the kernel uses them. */
module Wrappers {

  datatype Option<+T> = None | Some(value: T) {

    predicate IsFailure() {
      None?
    }

    function PropagateFailure<U>(): Option<U>
      requires None?
    {
      None
    }

    function Extract(): T
      requires Some?
    {
      value
    }

    /** Rust's `Option::or`: this value when present, otherwise `other`. */
    function Or(other: Option<T>): Option<T> {
      if Some? then this else other
    }
  }

  datatype Result<+T, +E> = Success(value: T) | Failure(error: E) {

    predicate IsFailure() {
      Failure?
    }

    function PropagateFailure<U>(): Result<U, E>
      requires Failure?
    {
      Failure(error)
    }

    function Extract(): T
      requires Success?
    {
      value
    }
  }

  /** A Rust array `[T; 2]`. */
  datatype Pair<+T> = Pair(first: T, second: T) {

    /** `[a, b].map(f)` */
    function Map<U>(f: T -> U): Pair<U> {
      Pair(f(first), f(second))
    }

    function Swap(): Pair<T> {
      Pair(second, first)
    }
  }
}
