/** A value that may be missing: an absent configuration object, a page
    region that a lookup did not find, a render that was skipped. */
module Optional {

  datatype Option<+T> = None | Some(value: T) {

    /** The value, or `fallback` when there is none. */
    function ValueOr(fallback: T): (r: T)
      ensures Some? ==> r == value
      ensures None? ==> r == fallback
    {
      match this
      case Some(v) => v
      case None => fallback
    }
  }

  /** `Some(x)` when `present` holds, `None` otherwise: the result of a
      style assignment guarded by a presence check on its element. */
  function When<T>(present: bool, x: T): (r: Option<T>)
    ensures r.Some? <==> present
    ensures r.Some? ==> r.value == x
  {
    if present then Some(x) else None
  }
}
