/** Sequences of one repeated element. */
module Sequences {

  /** `n` copies of `x`: `String.prototype.repeat` on a one-character
      string, and `forEach` writing one style to every matching region. */
  function Repeat<T>(x: T, n: nat): (r: seq<T>)
    ensures |r| == n
    ensures forall i :: 0 <= i < |r| ==> r[i] == x
  {
    if n == 0 then [] else Repeat(x, n - 1) + [x]
  }
}
