/**
 The recursive branch generator (`drawTree`). One call either stops at
 its guard or draws one curved segment, perhaps a leaf at its tip, and
 recurses into a random number of children.

 `Grow` performs the recursion and records it as a call tree: every call
 becomes a node holding its arguments, and a call that draws also holds
 what it drew and the calls it made. Randomness is read from a `Source`
 at a cursor, in the order `drawTree` evaluates `rand`.

 `Conforms` is the independent description of a well-formed call tree:
 the guard, the colour, the leaf rule, the branching factor and the
 parameters every child inherits. `Grow` is proved to produce only
 conforming trees.
 */
module Branches {
  import opened Numbers
  import opened Random
  import opened Colour
  import opened Geometry

  datatype Option<T> = None | Some(value: T)

  /** The arguments of one `drawTree` call, the drawing context aside. */
  datatype Args = Args(
    start: Point,
    angle: real,
    depth: int,
    maxDepth: int,
    len: real,
    thickness: real,
    drift: real)

  /** The curve a call strokes: from its start to `end`, bent towards `control`. */
  datatype Segment = Segment(end: Point, control: Point, colour: Rgba)

  /** A leaf circle at a segment's end. */
  datatype Leaf = Leaf(radius: real, alpha: real)

  /** One `drawTree` call and, when it draws, everything it does. */
  datatype Call =
    | Pruned(args: Args)
    | Drawn(args: Args, seg: Segment, leaf: Option<Leaf>, children: seq<Call>)

  /** The guard at the top of `drawTree`: such a call draws nothing. */
  predicate Stops(a: Args) {
    a.depth > a.maxDepth || a.len < 2.0
  }

  /** The number of recursion levels a call may still open. */
  function Budget(a: Args): nat {
    if a.depth > a.maxDepth then 0 else a.maxDepth - a.depth + 1
  }

  /** A call at `depth` spawns 2 or 3 children near the root, 1 or 2 further out. */
  predicate BranchCountOk(depth: int, n: int) {
    if depth < 3 then 2 <= n <= 3 else 1 <= n <= 2
  }

  /** What a child call inherits from a parent whose segment ends at `end`. */
  predicate ChildOf(parent: Args, end: Point, child: Args) {
    && child.start == end
    && child.depth == parent.depth + 1
    && child.maxDepth == parent.maxDepth
    && parent.angle - 0.55 < child.angle < parent.angle + 0.55
    && 0.62 * parent.len <= child.len < 0.78 * parent.len
    && child.thickness == Max(parent.thickness * 0.65, 0.5)
    && child.drift == parent.drift * 0.75
  }

  /** A well-formed call tree. */
  predicate Conforms(trig: Trig, c: Call) {
    match c
    case Pruned(a) => Stops(a)
    case Drawn(a, seg, leaf, children) =>
      && a.maxDepth >= 1
      && !Stops(a)
      && seg.end == EndPoint(trig, a.start, a.angle, a.len)
      && Abs(seg.control.x - Midpoint(a.start, seg.end).x) <= Abs(a.drift)
      && Abs(seg.control.y - Midpoint(a.start, seg.end).y) <= Abs(a.drift)
      && seg.colour == ColourAt(a.depth, a.maxDepth)
      && (leaf.Some? <==> a.depth >= a.maxDepth - 1)
      && (leaf.Some? ==> 1.5 <= leaf.value.radius < 4.0 && 0.12 <= leaf.value.alpha < 0.3)
      && BranchCountOk(a.depth, |children|)
      && forall i :: 0 <= i < |children| ==>
           ChildOf(a, seg.end, children[i].args) && Conforms(trig, children[i])
  }

  /**
   `drawTree(start, angle, depth, maxDepth, len, thickness, drift)` reading
   randomness from position `pos` of `src`. Returns the call tree and the
   position of the first draw it left unused.
   */
  function Grow(trig: Trig, src: Source, a: Args, pos: nat): (r: (Call, nat))
    requires Uniform(src) && a.maxDepth >= 1
    ensures r.0.args == a
    ensures r.0.Pruned? <==> Stops(a)
    ensures Stops(a) ==> r.1 == pos
    ensures !Stops(a) ==> r.1 > pos
    ensures Conforms(trig, r.0)
    decreases Budget(a), 1, 0
  {
    if Stops(a) then (Pruned(a), pos)
    else
      var h := Sprout(trig, src, a, pos);
      var (children, next) := GrowChildren(trig, src, a, h.seg.end, h.branches, h.next);
      (Drawn(a, h.seg, h.leaf, children), next)
  }

  /** What one drawing call decides before it recurses. */
  datatype Head = Head(seg: Segment, leaf: Option<Leaf>, branches: nat, next: nat)

  /**
   The non-recursive part of a drawing call: the control point, the leaf
   and the number of children, drawn in that order from position `pos`.
   */
  function Sprout(trig: Trig, src: Source, a: Args, pos: nat): (h: Head)
    requires Uniform(src) && a.maxDepth >= 1
    ensures h.seg.end == EndPoint(trig, a.start, a.angle, a.len)
    ensures Abs(h.seg.control.x - Midpoint(a.start, h.seg.end).x) <= Abs(a.drift)
    ensures Abs(h.seg.control.y - Midpoint(a.start, h.seg.end).y) <= Abs(a.drift)
    ensures h.leaf.Some? <==> a.depth >= a.maxDepth - 1
    ensures h.leaf.Some? ==> 1.5 <= h.leaf.value.radius < 4.0 && 0.12 <= h.leaf.value.alpha < 0.3
    ensures BranchCountOk(a.depth, h.branches)
    ensures h.next == pos + (if h.leaf.Some? then 5 else 3)
  {
    var end := EndPoint(trig, a.start, a.angle, a.len);
    var mid := Midpoint(a.start, end);
    var control := Point(mid.x + Rand(src(pos), -a.drift, a.drift),
                         mid.y + Rand(src(pos + 1), -a.drift, a.drift));
    var seg := Segment(end, control, ColourAt(a.depth, a.maxDepth));
    var leaf := if a.depth >= a.maxDepth - 1
                then Some(Leaf(Rand(src(pos + 2), 1.5, 4.0), Rand(src(pos + 3), 0.12, 0.3)))
                else None;
    var p1 := if leaf.Some? then pos + 4 else pos + 2;
    var branches := if a.depth < 3 then FloorRand(src(p1), 2, 2) else FloorRand(src(p1), 1, 2);
    Head(seg, leaf, branches, p1 + 1)
  }

  /** The loop of `drawTree` that spawns the remaining `k` children of `parent`. */
  function GrowChildren(trig: Trig, src: Source, parent: Args, end: Point, k: nat, pos: nat): (r: (seq<Call>, nat))
    requires Uniform(src) && parent.maxDepth >= 1 && !Stops(parent)
    ensures |r.0| == k
    ensures r.1 >= pos
    ensures forall i :: 0 <= i < k ==> ChildOf(parent, end, r.0[i].args) && Conforms(trig, r.0[i])
    decreases Budget(parent), 0, k
  {
    if k == 0 then ([], pos)
    else
      var child := Offspring(parent, end, src(pos), src(pos + 1), src(pos + 2));
      var (c, p1) := Grow(trig, src, child, pos + 3);
      var (rest, p2) := GrowChildren(trig, src, parent, end, k - 1, p1);
      assert forall i :: 1 <= i < k ==> ([c] + rest)[i] == rest[i - 1];
      ([c] + rest, p2)
  }

  /**
   The arguments of one child: `spread`, the angle offset and `shrink` are
   drawn from `u0`, `u1` and `u2` in that order.
   */
  function Offspring(parent: Args, end: Point, u0: real, u1: real, u2: real): (child: Args)
    requires 0.0 <= u0 < 1.0 && 0.0 <= u1 < 1.0 && 0.0 <= u2 < 1.0 && parent.len > 0.0
    ensures ChildOf(parent, end, child)
  {
    Args(end, Turn(parent.angle, u0, u1), parent.depth + 1, parent.maxDepth, Shrink(parent.len, u2),
         Max(parent.thickness * 0.65, 0.5), parent.drift * 0.75)
  }

  /** A child's angle: the parent's, offset by `rand(-spread, spread)` for `spread = rand(0.25, 0.55)`. */
  function Turn(angle: real, u0: real, u1: real): (r: real)
    requires 0.0 <= u0 < 1.0 && 0.0 <= u1 < 1.0
    ensures angle - 0.55 < r < angle + 0.55
  {
    var spread := Rand(u0, 0.25, 0.55);
    angle + Rand(u1, -spread, spread)
  }

  /** A child's length: the parent's times `shrink = rand(0.62, 0.78)`. */
  function Shrink(len: real, u: real): (r: real)
    requires 0.0 <= u < 1.0 && len > 0.0
    ensures 0.62 * len <= r < 0.78 * len
  {
    var shrink := Rand(u, 0.62, 0.78);
    ShrinkBounds(len, shrink);
    len * shrink
  }

  lemma ShrinkBounds(len: real, shrink: real)
    requires len > 0.0 && 0.62 <= shrink < 0.78
    ensures 0.62 * len <= len * shrink < 0.78 * len
  {
    assert len * shrink - 0.62 * len == len * (shrink - 0.62);
    assert len * (shrink - 0.62) >= 0.0;
    assert 0.78 * len - len * shrink == len * (0.78 - shrink);
    assert len * (0.78 - shrink) > 0.0;
  }

  /** Every call `k` levels below `c` has depth `d + k`. */
  predicate DepthsFrom(c: Call, d: int) {
    && c.args.depth == d
    && (c.Drawn? ==> forall i :: 0 <= i < |c.children| ==> DepthsFrom(c.children[i], d + 1))
  }

  /** No chain of drawing calls starting at `c` is longer than `n`. */
  predicate Shallow(c: Call, n: nat) {
    c.Pruned? || (n >= 1 && forall i :: 0 <= i < |c.children| ==> Shallow(c.children[i], n - 1))
  }

  /** Every call `k` levels below `c` has a positive length of at most `maxLen * 0.78^k`. */
  predicate Within(c: Call, maxLen: real) {
    && 0.0 < c.args.len <= maxLen
    && (c.Drawn? ==> forall i :: 0 <= i < |c.children| ==> Within(c.children[i], maxLen * 0.78))
  }

  /** Depth grows by exactly one per level of recursion. */
  lemma {:induction false} DepthBookkeeping(trig: Trig, c: Call)
    requires Conforms(trig, c)
    ensures DepthsFrom(c, c.args.depth)
  {
    if c.Drawn? {
      forall i | 0 <= i < |c.children|
        ensures DepthsFrom(c.children[i], c.args.depth + 1)
      {
        DepthBookkeeping(trig, c.children[i]);
      }
    }
  }

  /** A call at `depth` opens at most `maxDepth - depth + 1` nested levels of drawing. */
  lemma {:induction false} NestingBound(trig: Trig, c: Call)
    requires Conforms(trig, c)
    ensures Shallow(c, Budget(c.args))
  {
    if c.Drawn? {
      forall i | 0 <= i < |c.children|
        ensures Shallow(c.children[i], Budget(c.args) - 1)
      {
        NestingBound(trig, c.children[i]);
      }
    }
  }

  /**
   Lengths stay positive and shrink geometrically: a call `k` levels below
   `c` is at most `0.78^k` times as long as `c`.
   */
  lemma {:induction false} LengthsShrink(trig: Trig, c: Call)
    requires Conforms(trig, c) && c.args.len > 0.0
    ensures Within(c, c.args.len)
  {
    if c.Drawn? {
      forall i | 0 <= i < |c.children|
        ensures Within(c.children[i], c.args.len * 0.78)
      {
        var child := c.children[i];
        LengthsShrink(trig, child);
        WithinWeaken(child, child.args.len, c.args.len * 0.78);
      }
    }
  }

  lemma {:induction false} WithinWeaken(c: Call, m1: real, m2: real)
    requires Within(c, m1) && m1 <= m2
    ensures Within(c, m2)
  {
    if c.Drawn? {
      forall i | 0 <= i < |c.children|
        ensures Within(c.children[i], m2 * 0.78)
      {
        WithinWeaken(c.children[i], m1 * 0.78, m2 * 0.78);
      }
    }
  }

  /**
   A call reads exactly the draws it reports consuming: two sources that
   agree on positions `pos` up to the returned cursor give the same result.
   */
  lemma {:induction false} GrowReadsItsDraws(trig: Trig, src1: Source, src2: Source, a: Args, pos: nat)
    requires Uniform(src1) && Uniform(src2) && a.maxDepth >= 1
    requires forall n: nat :: pos <= n < Grow(trig, src1, a, pos).1 ==> src1(n) == src2(n)
    ensures Grow(trig, src2, a, pos) == Grow(trig, src1, a, pos)
    decreases Budget(a), 1, 0
  {
    if !Stops(a) {
      var h := Sprout(trig, src1, a, pos);
      assert forall n: nat :: pos <= n < h.next ==> src1(n) == src2(n);
      assert Sprout(trig, src2, a, pos) == h;
      ChildrenReadTheirDraws(trig, src1, src2, a, h.seg.end, h.branches, h.next);
    }
  }

  lemma {:induction false} ChildrenReadTheirDraws(trig: Trig, src1: Source, src2: Source, parent: Args, end: Point, k: nat, pos: nat)
    requires Uniform(src1) && Uniform(src2) && parent.maxDepth >= 1 && !Stops(parent)
    requires forall n: nat :: pos <= n < GrowChildren(trig, src1, parent, end, k, pos).1 ==> src1(n) == src2(n)
    ensures GrowChildren(trig, src2, parent, end, k, pos) == GrowChildren(trig, src1, parent, end, k, pos)
    decreases Budget(parent), 0, k
  {
    if k > 0 {
      var child := Offspring(parent, end, src1(pos), src1(pos + 1), src1(pos + 2));
      var p1 := Grow(trig, src1, child, pos + 3).1;
      GrowReadsItsDraws(trig, src1, src2, child, pos + 3);
      ChildrenReadTheirDraws(trig, src1, src2, parent, end, k - 1, p1);
    }
  }
}
