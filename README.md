# insta20200802 — a Dafny model of the sketch's geometry

The sketch (`Main.kt`) packs 36 anchor circles on a 720 x 720 canvas, each clearing every
earlier one by the earlier circle's stored radius plus its own drawn radius, then, every
frame, draws five noise-driven "walkers" around each anchor: a tapering tail of 15 sections
capped by a half-circle head, emitted as an unindexed triangle list and drawn 12 times around the
anchor. This project models the geometry of that sketch over exact reals:

- `Units` — `Double.toRadians()` with `PI` as an uninterpreted positive constant.
- `Geometry` — `Vector2`/`Vector3` arithmetic, squared distances, and `Env`, the library numerics
  (`cos`, `sin`, `atan2`, `perlinQuintic`) passed in as arbitrary functions.
- `Packing` — the three rejection-sampling `while` loops that fill `locationList` and
  `radiusList`. The `Random.double` draws are an input sequence of `Draw(x, y, r)` triples; a
  loop that runs out of draws reports `Exhausted` (the source would keep drawing). Each loop is a
  method (`PlaceTier`, with the inner `for`/`break` test as `Fits`) proved equal to the
  specification function `RunTier`, about which the acceptance invariant, the sizes 8/20/36 and
  the range bounds are proved.
- `Ribbon` — the 15-step tail loop (`SampleTail`), proved equal to `TailVertices`; the per-step
  geometry (noise to polar point, heading by `atan2`, half-width `map(0, 25, 0, headSize, i)`) is
  pure functions.
- `Head` — the `while (theta <= lastTheta + PI * 0.5)` sweep (`SweepHead`), run over exact reals
  with `theta` incremented by `PI / 20`; it places exactly 21 points.
- `Mesh` — the tail assembly with the `vertexOrder` template `[0, 1, 3, 0, 2, 3]`
  (`AssembleTail`), the head fan (`AssembleHead`), and one whole ring (`BuildRing`, 144 vertices over exact reals).

Three facts about the code shape the model:

- The overlap test (`Main.kt:62`) adds the earlier circle's *stored* radius (already multiplied
  by 1.2 in tiers 2 and 3) to the candidate's *drawn* radius, so stored circles of tiers 2 and 3
  may overlap. `SeparatedIn` states the invariant the code keeps.
- The head fan loops `for (i in 0 until lastIndex)` (`Main.kt:261`), so 21 head points give 20
  triangles, the first degenerate, `(h0, h0, h1)`. Over exact reals a ring has 84 + 60 = 144
  vertices.
- The half-width is `map` without clamping (`Main.kt:194-227`); for the 15 sections it never
  reaches `headSize` anyway (`HalfWidthTaper`).

## Model

| member | source | states |
|---|---|---|
| Units.ToRadians | src/main/kotlin/com/kabuko/Utilies.kt:5-7 | the result r satisfies r * 180 = degrees * PI |
| Units.ToRadiansZero | src/main/kotlin/com/kabuko/Utilies.kt:5-7 | 0 degrees is 0 radians |
| Units.ToRadiansHalfTurn | src/main/kotlin/com/kabuko/Utilies.kt:6 | 180 degrees is PI radians |
| Units.ToRadiansAdditive | src/main/kotlin/com/kabuko/Utilies.kt:6 | toRadians(a + b) = toRadians(a) + toRadians(b) |
| Units.ToRadiansOdd | src/main/kotlin/com/kabuko/Utilies.kt:6 | toRadians(-x) = -toRadians(x) |
| Units.ToRadiansStrictlyIncreasing | src/main/kotlin/com/kabuko/Utilies.kt:6 | a < b implies toRadians(a) < toRadians(b), given PI > 0 |
| Geometry.DistSq | src/main/kotlin/com/kabuko/junkiyoshi/insta20200802/Main.kt:62 | the squared distance used in place of `distanceTo` is never negative |
| Geometry.PolarOffsetDistance | src/main/kotlin/com/kabuko/junkiyoshi/insta20200802/Main.kt:193-209 | given cos² + sin² = 1, a point offset by `Vector3(w cos a, w sin a, 0)` lies at squared distance w² |
| Packing.OverlapsIsDistanceTest | src/main/kotlin/com/kabuko/junkiyoshi/insta20200802/Main.kt:62 | the square-root-free test agrees with `distance < stored + radius` for the true distance d ≥ 0, d² = DistSq, whatever the signs of the radii |
| Packing.TouchingIsNotOverlap | src/main/kotlin/com/kabuko/junkiyoshi/insta20200802/Main.kt:62 | circles at exactly the sum of radii are not rejected (strict `<`) |
| Packing.Fits | src/main/kotlin/com/kabuko/junkiyoshi/insta20200802/Main.kt:59-66 | the `for`/`break` loop leaves `flag` true iff for every earlier i the candidate is not closer than radiusList[i] + radius |
| Packing.Consider | src/main/kotlin/com/kabuko/junkiyoshi/insta20200802/Main.kt:68-71 | both lists stay of equal length and are only appended to; exactly one circle is appended iff the candidate is clear, and a rejected candidate leaves both lists unchanged |
| Packing.ConsiderAccepts | src/main/kotlin/com/kabuko/junkiyoshi/insta20200802/Main.kt:88-91 | an accepted candidate appends its centre to `locationList` and its scaled radius to `radiusList` |
| Packing.RunTier | src/main/kotlin/com/kabuko/junkiyoshi/insta20200802/Main.kt:52-72 | a completed tier keeps the lists parallel, only appends, ends with exactly `target` circles when it started below it, and leaves an unread suffix of the draws |
| Packing.PlaceTier | src/main/kotlin/com/kabuko/junkiyoshi/insta20200802/Main.kt:74-92 | the imperative loop returns exactly what RunTier specifies, and fails exactly when RunTier runs out of draws |
| Packing.PackCircles | src/main/kotlin/com/kabuko/junkiyoshi/insta20200802/Main.kt:52-112 | the three loops in sequence equal Pack and, when they complete, leave 36 locations and 36 radii |
| Packing.ConsiderSeparates | src/main/kotlin/com/kabuko/junkiyoshi/insta20200802/Main.kt:100-111 | one iteration keeps every circle clear of all earlier ones (stored radius of the earlier plus drawn radius of the later) |
| Packing.RunTierSeparates | src/main/kotlin/com/kabuko/junkiyoshi/insta20200802/Main.kt:94-112 | a tier keeps that invariant and extends it to every circle it adds |
| Packing.PackSeparated | src/main/kotlin/com/kabuko/junkiyoshi/insta20200802/Main.kt:46-112 | a completed packing has 36 circles, and for all i < j circle j clears circle i using radiusList[i] and the drawn radius of j (radiusList[j] for j < 8, radiusList[j] / 1.2 after) |
| Packing.StoredRadiusWithin | src/main/kotlin/com/kabuko/junkiyoshi/insta20200802/Main.kt:90 | a drawn radius in [min, max] is stored in [scale·min, scale·max] |
| Packing.RunTierWithin | src/main/kotlin/com/kabuko/junkiyoshi/insta20200802/Main.kt:53-57 | if every draw the tier reads lies in its requested ranges, every added centre lies in [margin, width-margin] x [margin, height-margin] and every stored radius in the scaled radius range |
| Packing.TierRanges | src/main/kotlin/com/kabuko/junkiyoshi/insta20200802/Main.kt:57-110 | the stored radius ranges of the three tiers are [50, 120], [36, 72] and [12, 24] |
| Packing.PackWithin | src/main/kotlin/com/kabuko/junkiyoshi/insta20200802/Main.kt:46-112 | when every tier completes and reads only draws in its own ranges from the one shared stream, circles 0-7 lie in [140, width-140] x [140, height-140] with radii in [50, 120], circles 8-19 in [100, width-100] x [100, height-100] with stored radii in [36, 72], circles 20-35 in the same box with stored radii in [12, 24] |
| Ribbon.Map | src/main/kotlin/com/kabuko/junkiyoshi/insta20200802/Main.kt:145-151 | the unclamped `map` is affine: (r - c)(b - a) = (value - a)(d - c) |
| Ribbon.NoiseDegrees | src/main/kotlin/com/kabuko/junkiyoshi/insta20200802/Main.kt:145-151 | the angle is 720 n - 360 degrees for the noise value n |
| Ribbon.NoiseRadius | src/main/kotlin/com/kabuko/junkiyoshi/insta20200802/Main.kt:153-159 | the radius is 1.96 R n - 0.98 R for the noise value n and anchor radius R |
| Ribbon.CurveOnCircle | src/main/kotlin/com/kabuko/junkiyoshi/insta20200802/Main.kt:177-181 | given cos² + sin² = 1, the sampled point lies at the absolute value of `noiseRadius` from the anchor |
| Ribbon.SectionHeadsToNext | src/main/kotlin/com/kabuko/junkiyoshi/insta20200802/Main.kt:142-189 | `frameCount + i % 1000` samples the curve at frameCount + i, and the heading `atan2(direction.y, direction.x)` points from section i's point to section i+1's |
| Ribbon.MapEndpoints | src/main/kotlin/com/kabuko/junkiyoshi/insta20200802/Main.kt:145-151 | `map` sends the ends of the source interval to the ends of the target interval |
| Ribbon.MapMonotone | src/main/kotlin/com/kabuko/junkiyoshi/insta20200802/Main.kt:194-199 | `map` onto an increasing target preserves order |
| Ribbon.MapBounds | src/main/kotlin/com/kabuko/junkiyoshi/insta20200802/Main.kt:145-175 | `map` sends [a, b] into [c, d] |
| Ribbon.NoiseRanges | src/main/kotlin/com/kabuko/junkiyoshi/insta20200802/Main.kt:145-175 | should noise lie in [0, 1], the angle lies in [-360, 360] and the radius in [-0.98 R, 0.98 R] |
| Ribbon.HalfWidthTaper | src/main/kotlin/com/kabuko/junkiyoshi/insta20200802/Main.kt:194-199 | half-width is i · headSize / 25: 0 at i = 0, non-decreasing, and for i < 15 at most 14 · headSize / 25 < headSize |
| Ribbon.TailVertexAt | src/main/kotlin/com/kabuko/junkiyoshi/insta20200802/Main.kt:192-230 | n sections give 2n vertices; vertex 2i is section i's left vertex and 2i+1 its right vertex |
| Ribbon.VerticesAtHalfWidth | src/main/kotlin/com/kabuko/junkiyoshi/insta20200802/Main.kt:192-230 | given cos² + sin² = 1, both vertices of a section lie at the half-width from its point |
| Ribbon.SampleTail | src/main/kotlin/com/kabuko/junkiyoshi/insta20200802/Main.kt:131-234 | the loop emits TailVertices (2 per step), and `lastLocation`/`lastTheta` are the final step's point and heading (`ZERO`/0 with no step) |
| Head.SweepContinues | src/main/kotlin/com/kabuko/junkiyoshi/insta20200802/Main.kt:248 | over exact reals the loop test holds for exactly the first 21 angles |
| Head.SweepEnds | src/main/kotlin/com/kabuko/junkiyoshi/insta20200802/Main.kt:247-248 | the first angle is lastTheta - PI/2 and the 21st is lastTheta + PI/2 |
| Head.CapPointAt | src/main/kotlin/com/kabuko/junkiyoshi/insta20200802/Main.kt:249-257 | head point k lies at angle lastTheta - PI/2 + k · PI/20 |
| Head.CapPointsOnCircle | src/main/kotlin/com/kabuko/junkiyoshi/insta20200802/Main.kt:249-255 | given cos² + sin² = 1, every head point lies at distance headSize / 2 from `lastLocation` |
| Head.SweepHead | src/main/kotlin/com/kabuko/junkiyoshi/insta20200802/Main.kt:246-258 | the sweep loop terminates with exactly 21 points, the k-th on the swept angle |
| Mesh.Quad | src/main/kotlin/com/kabuko/junkiyoshi/insta20200802/Main.kt:240-242 | the template picks (v_i, v_i+1, v_i+3, v_i, v_i+2, v_i+3) |
| Mesh.TailFromAt | src/main/kotlin/com/kabuko/junkiyoshi/insta20200802/Main.kt:239-243 | output quad q is the quad starting at vertex i + 2q |
| Mesh.TailTrianglesShape | src/main/kotlin/com/kabuko/junkiyoshi/insta20200802/Main.kt:239-243 | for an even count s, 6 (s/2 - 1) vertices when s ≥ 4 (84 for s = 30), quad q being (v2q, v2q+1, v2q+3, v2q, v2q+2, v2q+3) |
| Mesh.AssembleTail | src/main/kotlin/com/kabuko/junkiyoshi/insta20200802/Main.kt:236-243 | the loop succeeds iff the count is even or below 3 (otherwise it reads past the end), and then yields TailTriangles |
| Mesh.FanUpToAt | src/main/kotlin/com/kabuko/junkiyoshi/insta20200802/Main.kt:261-265 | the k-th fan triangle is (h0, hk, hk+1) |
| Mesh.FanShape | src/main/kotlin/com/kabuko/junkiyoshi/insta20200802/Main.kt:261-265 | n head points give 3 (n - 1) vertices (0 for n ≤ 1), triangle k is (h0, hk, hk+1) and the first is degenerate |
| Mesh.AssembleHead | src/main/kotlin/com/kabuko/junkiyoshi/insta20200802/Main.kt:261-265 | the fan loop yields Fan(headVertices) |
| Mesh.RingMeshSize | src/main/kotlin/com/kabuko/junkiyoshi/insta20200802/Main.kt:236-265 | one ring's vertex list has 84 + 60 = 144 vertices |
| Mesh.BuildRing | src/main/kotlin/com/kabuko/junkiyoshi/insta20200802/Main.kt:131-265 | sampling, tail assembly, head sweep and fan together give RingMesh, 144 vertices |

## Left out

- Application scaffolding (`configure`, `ScreenRecorder`, `drawer` state, clearing, transforms; Main.kt:20-32, 44, 114-115, 124-125, 286): windowing, I/O and video.
- Vertex-buffer creation and upload and the draw loop with `drawer.rotate(360 / 12)` (Main.kt:269-283): foreign rendering calls.
- The per-frame loop over anchors and its five rings (Main.kt:118-129, 133-134): it reseeds and draws the colour index and the two noise seeds from `Random`, whose algorithm is library code; `BuildRing` takes the seeds and the anchor radius as a `Ring`.
- `Random` and `perlinQuintic` internals: draws are an input sequence, noise an arbitrary function in `Env`. No noise range is claimed; `NoiseRanges` states its range premise.
- `ColorRGBa.fromHex` palette parsing (Main.kt:39-40): library call.
- Floating point: everything is over exact reals, with `cos`, `sin` and `atan2` arbitrary functions and `PI` an uninterpreted positive constant.
- Head.SweepHead: over exact reals the sweep has exactly 21 points; in doubles the accumulated `theta` may overshoot `lastTheta + PI/2` on the last step and give 20.
- Packing.PlaceTier: the source loops forever when no candidate fits; the model stops and reports `Exhausted` when the given draws run out.
- Ribbon.Map: the library's `map` for an empty source interval is not modelled (`requires a != b`); every call in the sketch uses a non-empty one.
