/**
 Branch colours. A branch at `depth` of a tree whose recursion stops after
 `maxDepth` is stroked in a colour interpolated linearly in
 `t = depth / maxDepth` from a trunk brown to a leaf green, each channel
 rounded as `Math.round` does, with an alpha that fades as `t` grows.
 Leaves are filled in one fixed green with a randomised alpha.
 */
module Colour {
  import opened Numbers

  datatype Rgba = Rgba(r: int, g: int, b: int, alpha: real)

  /** The colour of a trunk base (t = 0). */
  const Trunk := Rgba(90, 70, 50, 0.85)

  /** The colour of the outermost twigs (t = 1). */
  const Tip := Rgba(135, 180, 40, 0.5)

  /** The fixed red, green and blue of a leaf circle. */
  const LeafR := 45
  const LeafG := 106
  const LeafB := 79

  /** The fill colour of a leaf circle with the given alpha. */
  function LeafColour(alpha: real): Rgba {
    Rgba(LeafR, LeafG, LeafB, alpha)
  }

  /** The box spanned by `Trunk` and `Tip`, channel by channel. */
  predicate InGamut(c: Rgba) {
    && Trunk.r <= c.r <= Tip.r
    && Trunk.g <= c.g <= Tip.g
    && Tip.b <= c.b <= Trunk.b
    && Tip.alpha <= c.alpha <= Trunk.alpha
  }

  /** The stroke colour at interpolation parameter `t`. */
  function Interpolate(t: real): (c: Rgba)
    ensures 0.0 <= t <= 1.0 ==> InGamut(c)
    ensures t == 0.0 ==> c == Trunk
    ensures t == 1.0 ==> c == Tip
  {
    ChannelBounds(t);
    Rgba(Round(90.0 + 45.0 * t), Round(70.0 + 110.0 * t), Round(50.0 - 10.0 * t), 0.85 - t * 0.35)
  }

  lemma ChannelBounds(t: real)
    ensures 0.0 <= t <= 1.0 ==> 90 <= Round(90.0 + 45.0 * t) <= 135
    ensures 0.0 <= t <= 1.0 ==> 70 <= Round(70.0 + 110.0 * t) <= 180
    ensures 0.0 <= t <= 1.0 ==> 40 <= Round(50.0 - 10.0 * t) <= 50
    ensures t == 0.0 ==> Round(90.0 + 45.0 * t) == 90 && Round(70.0 + 110.0 * t) == 70 && Round(50.0 - 10.0 * t) == 50
    ensures t == 1.0 ==> Round(90.0 + 45.0 * t) == 135 && Round(70.0 + 110.0 * t) == 180 && Round(50.0 - 10.0 * t) == 40
  {
    if 0.0 <= t <= 1.0 {
      RoundBetween(90.0 + 45.0 * t, 90, 135);
      RoundBetween(70.0 + 110.0 * t, 70, 180);
      RoundBetween(50.0 - 10.0 * t, 40, 50);
    }
    RoundIntegral(90);
    RoundIntegral(70);
    RoundIntegral(50);
    RoundIntegral(135);
    RoundIntegral(180);
    RoundIntegral(40);
  }

  /** The interpolation parameter `depth / maxDepth`. */
  function Ratio(depth: int, maxDepth: int): (t: real)
    requires maxDepth >= 1
    ensures 0 <= depth <= maxDepth ==> 0.0 <= t <= 1.0
    ensures t == 0.0 <==> depth == 0
    ensures t == 1.0 <==> depth == maxDepth
  {
    var t := depth as real / maxDepth as real;
    assert t * maxDepth as real == depth as real;
    t
  }

  /** The stroke colour of a branch at `depth` below a tree's root. */
  function ColourAt(depth: int, maxDepth: int): (c: Rgba)
    requires maxDepth >= 1
    ensures 0 <= depth <= maxDepth ==> InGamut(c)
    ensures depth == 0 ==> c == Trunk
    ensures depth == maxDepth ==> c == Tip
  {
    Interpolate(Ratio(depth, maxDepth))
  }

  /**
   Deeper branches are never browner, never bluer and never more opaque:
   red and green grow with depth, blue and alpha shrink.
   */
  lemma {:induction false} ColourMonotone(d1: int, d2: int, maxDepth: int)
    requires maxDepth >= 1 && d1 <= d2
    ensures ColourAt(d1, maxDepth).r <= ColourAt(d2, maxDepth).r
    ensures ColourAt(d1, maxDepth).g <= ColourAt(d2, maxDepth).g
    ensures ColourAt(d1, maxDepth).b >= ColourAt(d2, maxDepth).b
    ensures ColourAt(d1, maxDepth).alpha >= ColourAt(d2, maxDepth).alpha
  {
    var t1, t2 := Ratio(d1, maxDepth), Ratio(d2, maxDepth);
    RatioMonotone(d1, d2, maxDepth);
    RoundMonotone(90.0 + 45.0 * t1, 90.0 + 45.0 * t2);
    RoundMonotone(70.0 + 110.0 * t1, 70.0 + 110.0 * t2);
    RoundMonotone(50.0 - 10.0 * t2, 50.0 - 10.0 * t1);
  }

  lemma RatioMonotone(d1: int, d2: int, maxDepth: int)
    requires maxDepth >= 1 && d1 <= d2
    ensures Ratio(d1, maxDepth) <= Ratio(d2, maxDepth)
  {
    var m := maxDepth as real;
    var t1, t2 := Ratio(d1, maxDepth), Ratio(d2, maxDepth);
    var e := t1 - t2;
    assert e * m == (d1 - d2) as real;
  }
}
