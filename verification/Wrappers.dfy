/** Optional values: a nullable column, or a row that a lookup did not find. */
module Wrappers {

  datatype Option<+T> = None | Some(value: T) {
    function GetOr(default: T): (r: T)
      ensures Some? ==> r == value
      ensures None? ==> r == default
    {
      match this
      case Some(v) => v
      case None => default
    }
  }
}
