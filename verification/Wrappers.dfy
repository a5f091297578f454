/** Optional values: a missing JSON field, a nil tag, a read that failed. */
module Wrappers {

  datatype Option<+T> = None | Some(value: T) {

    /** The value, or the given one when there is none. */
    function GetOr(default: T): T {
      if Some? then value else default
    }
  }

  function Max(x: int, y: int): (r: int)
    ensures r >= x && r >= y && (r == x || r == y)
  {
    if x < y then y else x
  }
}
