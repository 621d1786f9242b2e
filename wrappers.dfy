/** Kotlin's nullable types (`T?`) and the elvis operator `?:`. */
module Wrappers {

  /** `None` plays the part of Kotlin's `null`. */
  datatype Option<+T> = None | Some(value: T) {

    /** `this ?: default` */
    function GetOr(default: T): T {
      match this
      case Some(v) => v
      case None => default
    }

    /** `this ?: other` where `other` is itself nullable. */
    function OrElse(other: Option<T>): Option<T> {
      match this
      case Some(_) => this
      case None => other
    }
  }
}
