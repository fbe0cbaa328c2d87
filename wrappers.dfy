/** Optional values, used for the source's nullable pointers and absent estimates. */
module Wrappers {
  datatype Option<+T> = None | Some(value: T) {
    function GetOr(default: T): T {
      match this
      case Some(v) => v
      case None => default
    }
  }
}
