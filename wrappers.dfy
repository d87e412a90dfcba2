/** Optional values: an absent React ref (`null`), an omitted argument
    (`undefined`) or a JavaScript `NaN` time value is `None`. */
module Wrappers {

  datatype Option<+T> = None | Some(value: T) {

    /** The value, or `default` when absent: JavaScript's `x ?? default`. */
    function GetOr(default: T): (r: T)
      ensures None? ==> r == default
      ensures Some? ==> r == value
    {
      match this
      case Some(v) => v
      case None => default
    }
  }

  /** JavaScript's `%` on integers: the remainder of division truncated toward
      zero, so it takes the sign of the dividend (unlike Dafny's `%`). */
  function TruncRem(a: int, d: int): (r: int)
    requires d > 0
    ensures a >= 0 ==> 0 <= r < d && r == a % d
    ensures a < 0 ==> -d < r <= 0 && r == -((-a) % d)
  {
    if a >= 0 then a % d else -((-a) % d)
  }
}
