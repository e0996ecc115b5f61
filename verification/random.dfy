/**
 The random source. `Math.random` is replaced by an explicit stream: a
 function from positions to reals, read at a cursor that every draw
 advances by one. A stream is `Uniform` when every value lies in [0, 1),
 which is all the model assumes about `Math.random`.
 */
module Random {

  type Source = nat -> real

  ghost predicate Uniform(src: Source) {
    forall n: nat :: 0.0 <= src(n) < 1.0
  }

  /** `rand(min, max)` for the draw `u`: `u * (max - min) + min`. */
  function Rand(u: real, lo: real, hi: real): (r: real)
    ensures 0.0 <= u < 1.0 && lo <= hi ==> lo <= r <= hi
    ensures 0.0 <= u < 1.0 && lo < hi ==> r < hi
    ensures 0.0 <= u < 1.0 && hi <= lo ==> hi <= r <= lo
  {
    Scale(u, hi - lo) + lo
  }

  /** A draw in [0, 1) scales a width `d` to a value between zero and `d`, short of `d` unless `d` is zero. */
  function Scale(u: real, d: real): (s: real)
    ensures 0.0 <= u < 1.0 && 0.0 <= d ==> 0.0 <= s <= d
    ensures 0.0 <= u < 1.0 && 0.0 < d ==> s < d
    ensures 0.0 <= u < 1.0 && d <= 0.0 ==> d <= s <= 0.0
  {
    ScaleBelow(u, d);
    u * d
  }

  lemma ScaleBelow(u: real, d: real)
    ensures 0.0 <= u < 1.0 && 0.0 <= d ==> 0.0 <= u * d <= d
    ensures 0.0 <= u < 1.0 && 0.0 < d ==> u * d < d
    ensures 0.0 <= u < 1.0 && d <= 0.0 ==> d <= u * d <= 0.0
  {
    if 0.0 <= u < 1.0 {
      if 0.0 <= d {
        ScaleUp(u, d);
      } else {
        ScaleUp(u, -d);
        assert u * d == -(u * (-d));
      }
    }
  }

  /** The product with a non-negative width stays between zero and the width. */
  lemma ScaleUp(u: real, d: real)
    requires 0.0 <= u < 1.0 && 0.0 <= d
    ensures 0.0 <= u * d <= d
    ensures 0.0 < d ==> u * d < d
  {
    assert d - u * d == (1.0 - u) * d;
  }

  /** `Math.floor(rand(lo, lo + width))` for integral bounds: one of the `width` integers from `lo`. */
  function FloorRand(u: real, lo: int, width: nat): (n: int)
    requires 0.0 <= u < 1.0 && width >= 1
    ensures lo <= n < lo + width
  {
    Rand(u, lo as real, (lo + width) as real).Floor
  }
}
