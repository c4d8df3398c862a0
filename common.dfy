/** Optional values, used wherever the front end tests a value against null or undefined. */
module Common {

  datatype Option<+T> = None | Some(value: T) {

    /** `x ?? d` read on an optional value. */
    function GetOr(default: T): T {
      match this
      case Some(v) => v
      case None => default
    }
  }

  function Min(a: int, b: int): int {
    if a <= b then a else b
  }
}
