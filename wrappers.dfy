/** Optional values: stands for JavaScript's `undefined` / `null` in the parser. */
module Wrappers {

  datatype Option<T> = None | Some(value: T) {

    /** `this ?? default`: the value when present, otherwise the default. */
    function GetOr(default: T): T
    {
      match this
      case Some(v) => v
      case None => default
    }
  }
}
