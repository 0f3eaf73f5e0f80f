/** Optional values: the `null` / `undefined` of the application, and the
    result of parsing a number out of a form field (`None` for NaN or an
    empty field). */
module Wrappers {

  datatype Option<+T> = None | Some(value: T) {

    /** The value, or `default` when there is none (JavaScript's `x || d`
        where the only falsy value is the missing one). */
    function GetOr(default: T): T {
      match this
      case Some(v) => v
      case None => default
    }
  }
}
