/** The optional value used for JavaScript's `undefined`-able fields and arguments. */
module Wrappers {

  datatype Option<+T> = None | Some(value: T) {

    /** The value if present, otherwise `fallback` (JavaScript's `x || fallback` on objects). */
    function GetOr(fallback: T): T {
      match this
      case Some(v) => v
      case None => fallback
    }
  }
}
