/** Optional values: `None` stands for JavaScript's `null`/`undefined` and, for
    parsed numbers, for `NaN`. */
module Wrappers {

  datatype Option<+T> = None | Some(value: T) {

    /** `x ?? default` / `x || default` for an optional value. */
    function GetOr(default: T): T {
      match this
      case Some(v) => v
      case None => default
    }
  }
}
