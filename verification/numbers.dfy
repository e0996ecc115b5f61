/**
 Small real-number helpers shared by the tree model: absolute value,
 minimum, maximum, and JavaScript's `Math.round`.
 */
module Numbers {

  function Abs(x: real): real {
    if x < 0.0 then -x else x
  }

  function Min(a: real, b: real): real {
    if a <= b then a else b
  }

  function Max(a: real, b: real): real {
    if a >= b then a else b
  }

  /** `Math.round`: rounds to the nearest integer, halves toward +infinity. */
  function Round(x: real): (n: int)
    ensures x - 0.5 < n as real <= x + 0.5
  {
    (x + 0.5).Floor
  }

  /** Rounding never reverses the order of its arguments. */
  lemma RoundMonotone(x: real, y: real)
    requires x <= y
    ensures Round(x) <= Round(y)
  {
  }

  /** Rounding an integral value gives that value back. */
  lemma RoundIntegral(n: int)
    ensures Round(n as real) == n
  {
  }

  /** Rounding a value within integral bounds stays within those bounds. */
  lemma RoundBetween(x: real, lo: int, hi: int)
    requires lo as real <= x <= hi as real
    ensures lo <= Round(x) <= hi
  {
    RoundMonotone(lo as real, x);
    RoundMonotone(x, hi as real);
    RoundIntegral(lo);
    RoundIntegral(hi);
  }
}
