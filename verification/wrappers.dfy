/** Optional values, standing for TypeScript's `T | undefined` and `T | null`. */
module Wrappers {

  datatype Option<+T> = None | Some(value: T) {

    /** The value, or `default` when there is none (TypeScript's `??`). */
    function GetOr(default: T): T {
      match this
      case Some(v) => v
      case None => default
    }

    /** This value when there is one, otherwise `other` (TypeScript's `a ?? b` on optional fields). */
    function OrElse(other: Option<T>): Option<T> {
      if Some? then this else other
    }
  }
}
