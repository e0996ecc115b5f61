# Fractal-tree panels, modelled in Dafny

This project models the generator behind the decorative tree panels of
`trees.js`. `drawTree` draws one curved branch. It may add a leaf circle at
the branch's tip, then recurses into a random number of shorter children.
`drawPanel` clears a surface and grows three to five full trees from its
bottom edge, then eight small ground shrubs.

The model is functional.

- `Math.random` becomes an explicit stream of reals, read at a cursor
  (`Random.Source`, `Random.Uniform`). Every operation takes the cursor and
  returns the first position it left unused. Draws are consumed in the
  order the JavaScript evaluates `rand`.
- `Branches.Grow` is `drawTree`. It returns the call tree of the recursion:
  a `Pruned` node for a call stopped by the guard, and a `Drawn` node for a
  call that draws. A `Drawn` node records the segment, the optional leaf
  and the child calls.
- `Branches.Conforms` is an independent description of a well-formed call
  tree. `Grow` is proved to produce only conforming trees.
- `Drawing.DrawTree` renders the tree as the canvas commands `drawTree`
  issues, in issue order: a `Stroke` per branch and a `Fill` per leaf.
  `drawPanel` adds one `Clear` in front.
- `Panel.DrawPanel` is `drawPanel`. It returns the commands, the trees,
  the shrubs and the cursor.
- `Math.cos`, `Math.sin` and `Math.PI` are fields of a caller-supplied
  `Geometry.Trig`. Nothing proved depends on their values.
- `Math.round(x)` is `Floor(x + 0.5)` (`Numbers.Round`). Reals are exact.

Files: `numbers.dfy`, `random.dfy`, `colour.dfy`, `geometry.dfy`,
`branches.dfy`, `drawing.dfy`, `panel.dfy`.

## Model

| member | source | states |
|---|---|---|
| Random.Rand | trees.js:5-7 | for a draw in [0,1), `rand(min, max)` lies in [min, max], strictly below max when min < max, and in [max, min] when the range is reversed (a negative drift) |
| Random.FloorRand | trees.js:57 | flooring `rand(lo, lo + width)` gives one of the `width` integers starting at `lo`: {2,3} or {1,2} children, {3..5} trees, {7..10} or {7,8} depths |
| Numbers.Round | trees.js:29-31 | `Math.round(x)` is the integer n with x - 0.5 < n <= x + 0.5 |
| Colour.Ratio | trees.js:28 | `t = depth/maxDepth` lies in [0,1] when 0 <= depth <= maxDepth; t = 0 exactly at depth 0 and t = 1 exactly at maxDepth |
| Colour.Interpolate | trees.js:29-32 | for t in [0,1]: r in [90,135], g in [70,180], b in [40,50], alpha in [0.5,0.85]; t = 0 gives (90,70,50,0.85) and t = 1 gives (135,180,40,0.5) |
| Colour.ColourAt | trees.js:28-32 | the stroke colour of any depth in [0, maxDepth] stays in that gamut; the trunk base is trunk brown and the last level is tip green |
| Colour.ColourMonotone | trees.js:28-32 | deeper branches are never less red or green and never more blue or opaque |
| Branches.Sprout | trees.js:24-57 | the segment ends at start + len·(cos, sin) of the angle; the control point is within the drift of the midpoint on each axis; a leaf is drawn exactly when depth >= maxDepth - 1, with radius in [1.5,4) and alpha in [0.12,0.3); the child count is 2–3 below depth 3 and 1–2 from there on; 3 draws are used, or 5 with a leaf |
| Branches.Offspring | trees.js:59-71 | a child starts at the parent's end, at depth + 1 with the same maxDepth, has length in [0.62·len, 0.78·len), thickness max(0.65·thickness, 0.5), drift 0.75·drift, and an angle strictly within 0.55 of the parent's |
| Branches.Grow | trees.js:21-74 | the call tree is well formed (`Conforms`); a call is pruned exactly when depth > maxDepth or len < 2; a pruned call uses no draws and a drawing call uses at least one |
| Branches.Turn | trees.js:59-60 | a child's angle lies strictly within 0.55 of its parent's |
| Branches.Shrink | trees.js:61-69 | a child's length lies in [0.62·len, 0.78·len): strictly shorter than a positive parent, and positive |
| Branches.GrowChildren | trees.js:58-73 | the loop produces exactly the sampled number of children, each one a child of its parent and well formed |
| Branches.DepthBookkeeping | trees.js:67 | every call k levels below a call at depth d has depth d + k |
| Branches.NestingBound | trees.js:22-72 | drawing calls below a call at depth d nest at most maxDepth - d + 1 levels deep |
| Branches.LengthsShrink | trees.js:61-69 | every call k levels below a call of positive length has a positive length of at most 0.78^k times the root's |
| Branches.GrowReadsItsDraws | trees.js:38-61 | a call's result depends only on the draws between its starting cursor and the cursor it returns |
| Drawing.DrawTree | trees.js:21-74 | a stopped call issues no command and uses no draw; otherwise the first command strokes from the start to the endpoint in the depth's colour at the given thickness; the second command is a leaf exactly when depth >= maxDepth - 1; from depth 0 on, every command is tidy (`Tidy`) |
| Drawing.CommandsTidy | trees.js:34-72 | a conforming tree issues no clear; every stroke is in the gamut and at least min(thickness, 0.5) wide; every leaf has the allowed radius, is filled in the leaf green (45, 106, 79) with an alpha in [0.12, 0.3), and comes directly after the stroke whose endpoint is its centre |
| Panel.TreeArgs | trees.js:88-101 | a full tree starts at depth 0 with maxDepth in 7..10, base x in [0.1w, 0.85w] for "left" and in [0.15w, 0.9w] otherwise (strictly below the upper end when w > 0), base y in [h, h+15), angle within 0.2 of straight up, length in [0.06h, 0.12h], thickness in [2.5,5), drift in [3,8) |
| Panel.ShrubArgs | trees.js:108-111 | a shrub starts at depth 5 with maxDepth 7 or 8, x in [0, w], y in (h-30, h], angle within 0.5 of straight up, length in [8,18), thickness in [0.8,1.5), drift exactly 3 |
| Panel.PlantTrees | trees.js:87-104 | the tree loop grows exactly the sampled number of trees, each rooted as a full tree and well formed |
| Panel.PlantShrubs | trees.js:107-112 | the shrub loop grows exactly the requested number of shrubs, each rooted as a shrub and well formed |
| Panel.DrawPanel | trees.js:83-111 | the panel first clears (0,0,w,h), then issues the trees' commands and then the shrubs' commands; 3 to 5 trees and exactly 8 shrubs; after the clear, every command is tidy with strokes at least 0.5 wide |
| Panel.HalfDrawsScene | trees.js:86-103 | with every draw 0.5 on a 400×300 left panel: four trees, the first rooted at (190, 307.5) straight up with maxDepth 9, length 27, thickness 3.75 and drift 5.5, whose trunk stroke follows the clear |

## Left out

- `initCanvas` (device-pixel-ratio scaling and DOM geometry queries) is platform glue. `DrawPanel` takes the logical width and height as parameters and requires both to be non-negative, as a DOM rectangle's are.
- `paint` and the resize listener with its 200 ms `setTimeout` debounce are DOM lookup, event wiring and timers.
- Canvas semantics (`beginPath`, `moveTo`, `quadraticCurveTo`, `arc`, `stroke`, `fill`, the round line cap) are recorded only as abstract `Stroke` and `Fill` commands. The arc's full-circle angles are not recorded.
- The `rgba(...)` style strings are modelled as numeric tuples (`Colour.Rgba`).
- IEEE-754 rounding is not modelled: arithmetic is on exact reals, and trigonometry is uninterpreted. In doubles, `rand(lo, hi)` can round up to `hi` itself: with `Math.random()` at 1 - 2^-52, `Math.floor(rand(7, 9))` is 9 and `Math.floor(rand(7, 11))` is 11 (the tie rounds to even). The half-open ranges stated for `Random.Rand`, `Random.FloorRand` and the `Panel` rows ({7,8} and {7..10} depths, {3..5} trees) are proved for exact reals, not for doubles.
- The distribution of `Math.random` is not modelled: only the range [0, 1) of each draw matters.
- Branches.Turn: states the child's angle only as strictly within 0.55 of its parent's. It does not state the per-child spread, drawn from [0.25, 0.55), that bounds the offset.
- Branches.Grow: requires `maxDepth >= 1`, because the source divides by `maxDepth`. No caller reaches `maxDepth = 0`.
- Panel.HalfDrawsScene: pins down only the tree count, the first tree's arguments and its trunk stroke. It does not give the panel's full command sequence, which runs to thousands of commands.
