/** The JavaScript values a configuration object can carry, with the
    truthiness that the `||` fallbacks of the widget depend on. */
module JsValues {

  /** A JavaScript value. Numbers are unbounded reals: NaN, infinities and
      IEEE rounding are not represented. */
  datatype JsValue = Undefined | Null | Bool(b: bool) | Num(n: real) | Str(s: string)

  /** JavaScript `ToBoolean`: `undefined`, `null`, `false`, `0` and the empty
      string are falsy, everything else is truthy. */
  predicate Truthy(v: JsValue) {
    match v
    case Undefined => false
    case Null => false
    case Bool(b) => b
    case Num(n) => n != 0.0
    case Str(s) => s != ""
  }

  /** The `a || b` operator. */
  function Or(a: JsValue, b: JsValue): (r: JsValue)
    ensures r == a || r == b
    ensures Truthy(a) ==> r == a
    ensures !Truthy(a) ==> r == b
    ensures Truthy(r) <==> Truthy(a) || Truthy(b)
  {
    if Truthy(a) then a else b
  }
}
