/**
 The draw commands a tree issues on the canvas, recorded abstractly:
 a stroked quadratic curve, a filled leaf circle, or a cleared rectangle.
 A call tree is rendered in the order `drawTree` issues them: a call's
 stroke, then its leaf, then each child's commands in turn.
 */
module Drawing {
  import opened Numbers
  import opened Random
  import opened Colour
  import opened Geometry
  import opened Branches

  datatype Command =
    | Clear(w: real, h: real)
    | Stroke(from: Point, control: Point, to: Point, colour: Rgba, width: real)
    | Fill(centre: Point, radius: real, colour: Rgba)

  function Commands(c: Call): seq<Command>
    decreases c, 1
  {
    match c
    case Pruned(_) => []
    case Drawn(a, seg, leaf, children) =>
      [Stroke(a.start, seg.control, seg.end, seg.colour, a.thickness)]
      + (if leaf.Some? then [Fill(seg.end, leaf.value.radius, LeafColour(leaf.value.alpha))] else [])
      + Flatten(children)
  }

  function Flatten(cs: seq<Call>): seq<Command>
    decreases cs, 0
  {
    if |cs| == 0 then [] else Commands(cs[0]) + Flatten(cs[1..])
  }

  /** `drawTree` with randomness read from position `pos` of `src`: its commands and the next unused position. */
  function DrawTree(trig: Trig, src: Source, a: Args, pos: nat): (r: (seq<Command>, nat))
    requires Uniform(src) && a.maxDepth >= 1
    ensures Stops(a) <==> r.0 == []
    ensures Stops(a) ==> r.1 == pos
    ensures !Stops(a) ==> && r.0[0].Stroke?
                          && r.0[0].from == a.start
                          && r.0[0].to == EndPoint(trig, a.start, a.angle, a.len)
                          && r.0[0].colour == ColourAt(a.depth, a.maxDepth)
                          && r.0[0].width == a.thickness
    ensures !Stops(a) ==> (a.depth >= a.maxDepth - 1 <==> |r.0| >= 2 && r.0[1].Fill?)
    ensures a.depth >= 0 ==> Tidy(r.0, Min(a.thickness, 0.5))
  {
    var (c, next) := Grow(trig, src, a, pos);
    TreeCommandsShape(trig, c);
    (Commands(c), next)
  }

  lemma TreeCommandsShape(trig: Trig, c: Call)
    requires Conforms(trig, c)
    ensures c.args.depth >= 0 ==> Tidy(Commands(c), Min(c.args.thickness, 0.5))
    ensures c.Drawn? ==> Commands(c)[0] == Stroke(c.args.start, c.seg.control, c.seg.end, c.seg.colour, c.args.thickness)
    ensures c.Drawn? ==> (c.leaf.Some? <==> |Commands(c)| >= 2 && Commands(c)[1].Fill?)
  {
    if c.args.depth >= 0 {
      CommandsTidy(trig, c);
    }
    if c.Drawn? {
      FlattenOpensWithStroke(c.children);
    }
  }

  /** A rendered list of calls never opens with a leaf: each call's commands open with its stroke. */
  lemma {:induction false} FlattenOpensWithStroke(cs: seq<Call>)
    ensures |Flatten(cs)| > 0 ==> Flatten(cs)[0].Stroke?
  {
    if |cs| > 0 && |Commands(cs[0])| == 0 {
      FlattenOpensWithStroke(cs[1..]);
    }
  }

  /**
   The shape of any command list a tree issues: no clears; every stroke in
   the colour gamut and at least `minWidth` wide; every leaf of the allowed
   size, in the leaf green with an allowed alpha, directly after the stroke whose end it sits on.
   */
  predicate Tidy(cmds: seq<Command>, minWidth: real) {
    forall i :: 0 <= i < |cmds| ==> TidyAt(cmds, i, minWidth)
  }

  predicate TidyAt(cmds: seq<Command>, i: int, minWidth: real)
    requires 0 <= i < |cmds|
  {
    match cmds[i]
    case Clear(_, _) => false
    case Stroke(_, _, _, colour, width) => InGamut(colour) && width >= minWidth
    case Fill(centre, radius, colour) =>
      && 1.5 <= radius < 4.0
      && colour.r == LeafR && colour.g == LeafG && colour.b == LeafB
      && 0.12 <= colour.alpha < 0.3
      && 0 < i && cmds[i - 1].Stroke? && cmds[i - 1].to == centre
  }

  /** Putting two tidy lists one after the other keeps them tidy. */
  lemma TidyConcat(a: seq<Command>, b: seq<Command>, m: real)
    requires Tidy(a, m) && Tidy(b, m)
    ensures Tidy(a + b, m)
  {
    forall i | 0 <= i < |a + b|
      ensures TidyAt(a + b, i, m)
    {
      if i < |a| {
        assert TidyAt(a, i, m);
      } else {
        assert TidyAt(b, i - |a|, m);
      }
    }
  }

  lemma TidyWeaken(cmds: seq<Command>, m1: real, m2: real)
    requires Tidy(cmds, m1) && m2 <= m1
    ensures Tidy(cmds, m2)
  {
    forall i | 0 <= i < |cmds|
      ensures TidyAt(cmds, i, m2)
    {
      assert TidyAt(cmds, i, m1);
    }
  }

  /**
   Every command list a conforming tree issues is tidy; strokes below the
   root are at least 0.5 wide, and the root's stroke is as wide as asked.
   */
  lemma {:induction false} CommandsTidy(trig: Trig, c: Call)
    requires Conforms(trig, c) && c.args.depth >= 0
    ensures Tidy(Commands(c), Min(c.args.thickness, 0.5))
    decreases c, 1
  {
    if c.Drawn? {
      var a, seg, leaf := c.args, c.seg, c.leaf;
      var m := Min(a.thickness, 0.5);
      var head := [Stroke(a.start, seg.control, seg.end, seg.colour, a.thickness)]
        + (if leaf.Some? then [Fill(seg.end, leaf.value.radius, LeafColour(leaf.value.alpha))] else []);
      assert TidyAt(head, 0, m);
      assert Tidy(head, m);
      FlattenTidy(trig, c.children, a.depth + 1);
      TidyWeaken(Flatten(c.children), 0.5, m);
      TidyConcat(head, Flatten(c.children), m);
    }
  }

  lemma {:induction false} FlattenTidy(trig: Trig, cs: seq<Call>, depth: int)
    requires depth >= 0
    requires forall i :: 0 <= i < |cs| ==>
      Conforms(trig, cs[i]) && cs[i].args.depth == depth && cs[i].args.thickness >= 0.5
    ensures Tidy(Flatten(cs), 0.5)
    decreases cs, 0
  {
    if |cs| > 0 {
      CommandsTidy(trig, cs[0]);
      FlattenTidy(trig, cs[1..], depth);
      TidyConcat(Commands(cs[0]), Flatten(cs[1..]), 0.5);
    }
  }
}
