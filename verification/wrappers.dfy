/** Optional values: the model's stand-in for `null`/`undefined` on the JavaScript side. */
module Wrappers {
  datatype Option<+T> = None | Some(value: T) {
    function GetOr(default: T): T {
      match this
      case Some(v) => v
      case None => default
    }

    function ToSeq(): seq<T> {
      match this
      case Some(v) => [v]
      case None => []
    }
  }
}
