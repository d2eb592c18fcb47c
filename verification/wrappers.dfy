/** The optional value used wherever the source holds `null`/`undefined` or an object. */
module Wrappers {

  datatype Option<+T> = None | Some(value: T) {

    /** Returns the value inside Some, or `default` for None (the source's `x || default`). */
    function GetOr(default: T): T {
      match this
      case Some(v) => v
      case None => default
    }
  }
}
