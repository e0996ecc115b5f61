/**
 Composing a side panel (`drawPanel`): clear the whole surface, grow
 three to five full trees from the bottom edge, then eight small shrubs
 that start deep in the recursion so they stay low. The surface's logical
 width `w` and height `h` come from the host; `side` is the panel's name.
 */
module Panel {
  import opened Numbers
  import opened Random
  import opened Geometry
  import opened Branches
  import opened Drawing
  import Colour

  /** Everything one `drawPanel` call does, in the order it does it. */
  datatype Scene = Scene(cmds: seq<Command>, trees: seq<Call>, shrubs: seq<Call>, next: nat)

  /** Where and how a full tree may start. */
  predicate TreeRoot(trig: Trig, a: Args, w: real, h: real, side: string) {
    && a.depth == 0
    && 7 <= a.maxDepth <= 10
    && (side == "left" ==> w * 0.1 <= a.start.x <= w * 0.85 && (w > 0.0 ==> a.start.x < w * 0.85))
    && (side != "left" ==> w * 0.15 <= a.start.x <= w * 0.9 && (w > 0.0 ==> a.start.x < w * 0.9))
    && h <= a.start.y < h + 15.0
    && -trig.pi / 2.0 - 0.2 <= a.angle < -trig.pi / 2.0 + 0.2
    && h * 0.06 <= a.len <= h * 0.12 && (h > 0.0 ==> a.len < h * 0.12)
    && 2.5 <= a.thickness < 5.0
    && 3.0 <= a.drift < 8.0
  }

  /** Where and how a ground shrub may start. */
  predicate ShrubRoot(trig: Trig, a: Args, w: real, h: real) {
    && a.depth == 5
    && 7 <= a.maxDepth <= 8
    && 0.0 <= a.start.x <= w && (w > 0.0 ==> a.start.x < w)
    && h - 30.0 < a.start.y <= h
    && -trig.pi / 2.0 - 0.5 <= a.angle < -trig.pi / 2.0 + 0.5
    && 8.0 <= a.len < 18.0
    && 0.8 <= a.thickness < 1.5
    && a.drift == 3.0
  }

  /** Conforming trees, each started as a full tree may start. */
  predicate Grove(trig: Trig, trees: seq<Call>, w: real, h: real, side: string) {
    forall i :: 0 <= i < |trees| ==> TreeRoot(trig, trees[i].args, w, h, side) && Conforms(trig, trees[i])
  }

  /** Conforming trees, each started as a shrub may start. */
  predicate Undergrowth(trig: Trig, shrubs: seq<Call>, w: real, h: real) {
    forall i :: 0 <= i < |shrubs| ==> ShrubRoot(trig, shrubs[i].args, w, h) && Conforms(trig, shrubs[i])
  }

  /**
   The arguments of one full tree, drawn in source order: base x, base y,
   angle, maximum depth, length, thickness, drift.
   */
  function TreeArgs(trig: Trig, w: real, h: real, side: string,
                    u0: real, u1: real, u2: real, u3: real, u4: real, u5: real, u6: real): (a: Args)
    requires 0.0 <= w && 0.0 <= h
    requires 0.0 <= u0 < 1.0 && 0.0 <= u1 < 1.0 && 0.0 <= u2 < 1.0 && 0.0 <= u3 < 1.0
    requires 0.0 <= u4 < 1.0 && 0.0 <= u5 < 1.0 && 0.0 <= u6 < 1.0
    ensures TreeRoot(trig, a, w, h, side)
  {
    var baseX := if side == "left" then Rand(u0, w * 0.1, w * 0.85) else Rand(u0, w * 0.15, w * 0.9);
    var baseY := h + Rand(u1, 0.0, 15.0);
    var angle := -trig.pi / 2.0 + Rand(u2, -0.2, 0.2);
    var maxDepth := FloorRand(u3, 7, 4);
    var len := Rand(u4, h * 0.06, h * 0.12);
    var thickness := Rand(u5, 2.5, 5.0);
    var drift := Rand(u6, 3.0, 8.0);
    Args(Point(baseX, baseY), angle, 0, maxDepth, len, thickness, drift)
  }

  /**
   The arguments of one shrub, drawn in source order: x, y, angle, then
   (as the call's arguments are evaluated) maximum depth, length, thickness.
   */
  function ShrubArgs(trig: Trig, w: real, h: real,
                     u0: real, u1: real, u2: real, u3: real, u4: real, u5: real): (a: Args)
    requires 0.0 <= w
    requires 0.0 <= u0 < 1.0 && 0.0 <= u1 < 1.0 && 0.0 <= u2 < 1.0
    requires 0.0 <= u3 < 1.0 && 0.0 <= u4 < 1.0 && 0.0 <= u5 < 1.0
    ensures ShrubRoot(trig, a, w, h)
  {
    var x := Rand(u0, 0.0, w);
    var y := h - Rand(u1, 0.0, 30.0);
    var angle := -trig.pi / 2.0 + Rand(u2, -0.5, 0.5);
    Args(Point(x, y), angle, 5, FloorRand(u3, 7, 2), Rand(u4, 8.0, 18.0), Rand(u5, 0.8, 1.5), 3.0)
  }

  /** The loop that grows the remaining `k` full trees. */
  function PlantTrees(trig: Trig, src: Source, w: real, h: real, side: string, k: nat, pos: nat): (r: (seq<Call>, nat))
    requires Uniform(src) && 0.0 <= w && 0.0 <= h
    ensures |r.0| == k
    ensures r.1 >= pos
    ensures Grove(trig, r.0, w, h, side)
  {
    if k == 0 then ([], pos)
    else
      var a := TreeArgs(trig, w, h, side, src(pos), src(pos + 1), src(pos + 2), src(pos + 3),
                        src(pos + 4), src(pos + 5), src(pos + 6));
      var (tree, p1) := Grow(trig, src, a, pos + 7);
      var (rest, p2) := PlantTrees(trig, src, w, h, side, k - 1, p1);
      assert forall i :: 1 <= i < k ==> ([tree] + rest)[i] == rest[i - 1];
      ([tree] + rest, p2)
  }

  /** The loop that grows the remaining `k` shrubs. */
  function PlantShrubs(trig: Trig, src: Source, w: real, h: real, k: nat, pos: nat): (r: (seq<Call>, nat))
    requires Uniform(src) && 0.0 <= w
    ensures |r.0| == k
    ensures r.1 >= pos
    ensures Undergrowth(trig, r.0, w, h)
  {
    if k == 0 then ([], pos)
    else
      var a := ShrubArgs(trig, w, h, src(pos), src(pos + 1), src(pos + 2), src(pos + 3),
                         src(pos + 4), src(pos + 5));
      var (shrub, p1) := Grow(trig, src, a, pos + 6);
      var (rest, p2) := PlantShrubs(trig, src, w, h, k - 1, p1);
      assert forall i :: 1 <= i < k ==> ([shrub] + rest)[i] == rest[i - 1];
      ([shrub] + rest, p2)
  }

  /**
   `drawPanel` on a surface of logical size `w` by `h`, reading randomness
   from position `pos` of `src`.
   */
  function DrawPanel(trig: Trig, src: Source, w: real, h: real, side: string, pos: nat): (s: Scene)
    requires Uniform(src) && 0.0 <= w && 0.0 <= h
    ensures s.cmds == [Clear(w, h)] + (Flatten(s.trees) + Flatten(s.shrubs))
    ensures 3 <= |s.trees| <= 5
    ensures Grove(trig, s.trees, w, h, side)
    ensures |s.shrubs| == 8
    ensures Undergrowth(trig, s.shrubs, w, h)
    ensures Tidy(s.cmds[1..], 0.5)
    ensures s.next > pos
  {
    var count := FloorRand(src(pos), 3, 3);
    var (trees, p1) := PlantTrees(trig, src, w, h, side, count, pos + 1);
    var (shrubs, p2) := PlantShrubs(trig, src, w, h, 8, p1);
    PlantingsTidy(trig, trees, shrubs, w, h, side);
    var body := Flatten(trees) + Flatten(shrubs);
    assert ([Clear(w, h)] + body)[1..] == body;
    Scene([Clear(w, h)] + body, trees, shrubs, p2)
  }

  lemma PlantingsTidy(trig: Trig, trees: seq<Call>, shrubs: seq<Call>, w: real, h: real, side: string)
    requires Grove(trig, trees, w, h, side) && Undergrowth(trig, shrubs, w, h)
    ensures Tidy(Flatten(trees) + Flatten(shrubs), 0.5)
  {
    FlattenTidy(trig, trees, 0);
    FlattenTidy(trig, shrubs, 5);
    TidyConcat(Flatten(trees), Flatten(shrubs), 0.5);
  }

  /**
   A fixed source that returns 0.5 for every draw, on a left panel of 400
   by 300: four trees, the first rooted at (190, 307.5) pointing straight
   up, with maximum depth 9, length 27, thickness 3.75 and drift 5.5.
   */
  lemma HalfDrawsScene(trig: Trig)
    ensures var s := DrawPanel(trig, (n: nat) => 0.5, 400.0, 300.0, "left", 0);
      && |s.trees| == 4
      && s.trees[0].args == Args(Point(190.0, 307.5), -trig.pi / 2.0, 0, 9, 27.0, 3.75, 5.5)
      && s.cmds[0] == Clear(400.0, 300.0)
      && |s.cmds| > 1 && s.cmds[1].Stroke? && s.cmds[1].from == Point(190.0, 307.5)
      && s.cmds[1].colour == Colour.Trunk && s.cmds[1].width == 3.75
  {
    var src: Source := (n: nat) => 0.5;
    assert Uniform(src);
    var s := DrawPanel(trig, src, 400.0, 300.0, "left", 0);
    assert FloorRand(0.5, 3, 3) == 4;
    assert FloorRand(0.5, 7, 4) == 9;
    var a := TreeArgs(trig, 400.0, 300.0, "left", 0.5, 0.5, 0.5, 0.5, 0.5, 0.5, 0.5);
    assert a == Args(Point(190.0, 307.5), -trig.pi / 2.0, 0, 9, 27.0, 3.75, 5.5);
    var first := s.trees[0];
    assert first.Drawn? && first.seg.colour == Colour.Trunk;
    TreeCommandsShape(trig, first);
    assert Flatten(s.trees)[0] == Commands(first)[0];
  }
}
