/** Optional values: the model's stand-in for PHP's nullable columns and `?? default`. */
module Wrappers {

  datatype Option<+T> = None | Some(value: T) {

    /** `$x ?? default` */
    function GetOr(default: T): T {
      match this
      case Some(v) => v
      case None => default
    }
  }
}
