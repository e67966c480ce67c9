/** Option, Result and Outcome: the values that stand for Kotlin's nullable
    types, Gradle's `Provider`/`Property` values and the exceptions the
    plugin throws. */
module Wrappers {

  /** A Gradle `Provider` or `Property` value, or a Kotlin nullable. */
  datatype Option<+T> = None | Some(value: T) {

    /** `getOrElse(default)`: the value when present, the default otherwise. */
    function GetOr(default: T): T {
      match this
      case Some(v) => v
      case None => default
    }

    /** Gradle's `map`: the converter applied to the value when present. */
    function Map<U>(f: T -> U): Option<U> {
      match this
      case Some(v) => Some(f(v))
      case None => None
    }

    /** Gradle's `orElse`: this value when present, the other one otherwise. */
    function OrElse(other: Option<T>): Option<T> {
      if Some? then this else other
    }
  }

  /** A value, or the message of the exception that was thrown instead. */
  datatype Result<+R, +E> = Success(value: R) | Failure(error: E)

  /** A call that returns nothing, or the exception it threw. */
  datatype Outcome<+E> = Pass | Fail(error: E)
}
