/** JavaScript's `%` on integral numbers. Unlike Dafny's Euclidean `%`, the
    JavaScript remainder truncates the quotient toward zero, so the result
    takes the sign of the dividend: `-1 % 5` is `-1`, not `4`. */
module JsNumbers {
  import opened Wrappers

  /** The quotient `a / n` rounded toward zero, as `Math.trunc(a / n)`. */
  function TruncQuot(a: int, n: int): int
    requires n > 0
  {
    if a >= 0 then a / n else -((-a) / n)
  }

  /** `a % n` as JavaScript evaluates it for an integral `a` and a positive
      integral `n`: what is left of `a` after taking away the quotient
      rounded toward zero, with the sign of `a`. */
  function Rem(a: int, n: int): (r: int)
    requires n > 0
    ensures a == n * TruncQuot(a, n) + r
    ensures a >= 0 ==> 0 <= r < n
    ensures a < 0 ==> -n < r <= 0
  {
    if a >= 0 then a % n else -((-a) % n)
  }

  /** On a non-negative dividend both operators agree. */
  lemma RemOfNonNegative(a: int, n: int)
    requires a >= 0 && n > 0
    ensures Rem(a, n) == a % n
  {
  }

  /** A negative dividend smaller in size than the divisor is its own
      remainder; in particular `-1 % n` is `-1` for every `n > 1`. */
  lemma RemOfSmallNegative(a: int, n: int)
    requires -n < a < 0
    ensures Rem(a, n) == a
  {
  }

  /** `xs[index % xs.length]` in JavaScript: the element at the remainder, or
      `undefined` (here `None`) when the remainder is negative, since a
      negative array index reads nothing. */
  function AtRem<T>(xs: seq<T>, index: int): (r: Option<T>)
    requires |xs| > 0
    ensures index >= 0 ==> r == Some(xs[index % |xs|])
    ensures -|xs| < index < 0 ==> r == None
    ensures r.Some? ==> r.value in xs
  {
    var slot := Rem(index, |xs|);
    if 0 <= slot then Some(xs[slot]) else None
  }
}
