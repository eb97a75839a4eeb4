/** Optional values, used wherever the source returns `null`/`undefined` for "absent". */
module Wrappers {

  datatype Option<+T> = None | Some(value: T) {

    /** Returns the value in Some, or `default` when None. */
    function GetOr(default: T): T {
      match this
      case Some(v) => v
      case None => default
    }
  }

  /** Puts `x` in front of the sequence in `r`; absent stays absent. */
  function Prepend<T>(x: T, r: Option<seq<T>>): (p: Option<seq<T>>)
    ensures p.Some? <==> r.Some?
    ensures p.Some? ==> p.value == [x] + r.value
  {
    match r
    case Some(s) => Some([x] + s)
    case None => None
  }
}
