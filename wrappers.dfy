/** Optional values: `null` / `undefined` on the TypeScript side, a nullable reference on the Java side. */
module Wrappers {

  datatype Option<+T> = None | Some(value: T) {

    /** The nullish-coalescing operator `this ?? default`. */
    function GetOr(default: T): T {
      match this
      case Some(v) => v
      case None => default
    }
  }
}
