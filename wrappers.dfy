/** Optional values: `undefined`/`null` in the source become `None`. */
module Wrappers {
  datatype Option<+T> = None | Some(value: T) {
    /** `value ?? default` */
    function GetOr(default: T): T {
      match this
      case Some(v) => v
      case None => default
    }
  }
}
