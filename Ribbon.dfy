// The tail sampler of one ring in src/main/kotlin/com/kabuko/junkiyoshi/insta20200802/Main.kt:
// the `for (i in 0 until 15)` loop that walks a noise-driven curve around an anchor and emits a
// left and a right vertex per step, tracking the last position and heading for the head.

module Ribbon {
  import opened Geometry
  import opened Units

  /** The number of tail sections the sketch samples. */
  const TailSteps: nat := 15

  /** `org.openrndr.math.map` without clamping: the affine map taking [a, b] onto [c, d]. */
  function Map(a: real, b: real, c: real, d: real, value: real): (r: real)
    requires a != b
    ensures (r - c) * (b - a) == (value - a) * (d - c)
  {
    c + (value - a) / (b - a) * (d - c)
  }

  lemma MapEndpoints(a: real, b: real, c: real, d: real)
    requires a != b
    ensures Map(a, b, c, d, a) == c && Map(a, b, c, d, b) == d
  {
  }

  /** An increasing map sends [a, b] into [c, d] and keeps order. */
  lemma MapMonotone(a: real, b: real, c: real, d: real, u: real, v: real)
    requires a < b && c <= d && u <= v
    ensures Map(a, b, c, d, u) <= Map(a, b, c, d, v)
  {
    var k := (d - c) / (b - a);
    assert k >= 0.0;
    assert Map(a, b, c, d, v) - Map(a, b, c, d, u) == (v - u) * k;
  }

  lemma MapBounds(a: real, b: real, c: real, d: real, value: real)
    requires a < b && c <= d && a <= value <= b
    ensures c <= Map(a, b, c, d, value) <= d
  {
    MapMonotone(a, b, c, d, a, value);
    MapMonotone(a, b, c, d, value, b);
  }

  /** What one ring draws: the two noise seeds and the radius of its anchor (`radiusList[m]`). */
  datatype Ring = Ring(degreeSeed: int, radiusSeed: int, anchorRadius: real)

  /** The angle, in degrees, that noise gives at coordinate x. */
  function NoiseDegrees(env: Env, ring: Ring, x: int): (degrees: real)
    ensures degrees + 360.0 == 720.0 * env.noise(ring.degreeSeed, x as real * 0.001)
  {
    Map(0.0, 1.0, -360.0, 360.0, env.noise(ring.degreeSeed, x as real * 0.001))
  }

  /** The signed distance from the anchor that noise gives at coordinate x. */
  function NoiseRadius(env: Env, ring: Ring, x: int): (radius: real)
    ensures radius + ring.anchorRadius * 0.98 == env.noise(ring.radiusSeed, x as real * 0.01) * (ring.anchorRadius * 1.96)
  {
    Map(0.0, 1.0, ring.anchorRadius * -0.98, ring.anchorRadius * 0.98,
        env.noise(ring.radiusSeed, x as real * 0.01))
  }

  /** Should the noise stay in [0, 1], the angle stays in [-360, 360] and the radius within 0.98 R. */
  lemma NoiseRanges(env: Env, ring: Ring, x: int)
    requires 0.0 <= env.noise(ring.degreeSeed, x as real * 0.001) <= 1.0
    requires 0.0 <= env.noise(ring.radiusSeed, x as real * 0.01) <= 1.0
    requires ring.anchorRadius >= 0.0
    ensures -360.0 <= NoiseDegrees(env, ring, x) <= 360.0
    ensures ring.anchorRadius * -0.98 <= NoiseRadius(env, ring, x) <= ring.anchorRadius * 0.98
  {
    MapBounds(0.0, 1.0, -360.0, 360.0, env.noise(ring.degreeSeed, x as real * 0.001));
    MapBounds(0.0, 1.0, ring.anchorRadius * -0.98, ring.anchorRadius * 0.98,
              env.noise(ring.radiusSeed, x as real * 0.01));
  }

  /** `Vector3(cos(deg.toRadians()), sin(deg.toRadians()), 0.0) * radius`. */
  function CurvePoint(env: Env, ring: Ring, x: int): Vec3
  {
    var radians := ToRadians(NoiseDegrees(env, ring, x));
    Scale(Vec3(env.cos(radians), env.sin(radians), 0.0), NoiseRadius(env, ring, x))
  }

  /** Given the Pythagorean identity, the curve point at x lies at distance |NoiseRadius| from the anchor. */
  lemma CurveOnCircle(env: Env, ring: Ring, x: int)
    requires Pythagorean(env)
    ensures DistSq3(CurvePoint(env, ring, x), Zero3) == NoiseRadius(env, ring, x) * NoiseRadius(env, ring, x)
  {
    var w, radians := NoiseRadius(env, ring, x), ToRadians(NoiseDegrees(env, ring, x));
    PolarOffsetDistance(env, Zero3, w, radians);
    assert Add(Zero3, Polar(env, w, radians)) == CurvePoint(env, ring, x);
  }

  /** One tail section: the sampled point and the heading from it towards the next sample. */
  datatype Section = Section(location: Vec3, theta: real)

  function SectionAt(env: Env, ring: Ring, frameCount: int, i: nat): Section
  {
    var noiseX := frameCount + i % 1000;
    var location := CurvePoint(env, ring, noiseX);
    var next := CurvePoint(env, ring, noiseX + 1);
    var direction := Sub(next, location);
    Section(location, env.atan2(direction.y, direction.x))
  }

  /**
   * `frameCount + i % 1000` reduces only i, so for the sketch's i < 1000 section i samples the
   * curve at frameCount + i, and its heading points from its own point to the point of section
   * i + 1.
   */
  lemma SectionHeadsToNext(env: Env, ring: Ring, frameCount: int, i: nat)
    requires i + 1 < 1000
    ensures SectionAt(env, ring, frameCount, i).location == CurvePoint(env, ring, frameCount + i)
    ensures var s, t := SectionAt(env, ring, frameCount, i), SectionAt(env, ring, frameCount, i + 1);
      s.theta == env.atan2(t.location.y - s.location.y, t.location.x - s.location.x)
  {
    assert i % 1000 == i && (i + 1) % 1000 == i + 1;
  }

  /** The half-width of the tail at section i: `map(0, 25, 0, headSize, i)`. */
  function HalfWidth(headSize: real, i: nat): real
  {
    Map(0.0, 25.0, 0.0, headSize, i as real)
  }

  /** The tail grows from nothing at the first section by headSize / 25 per section, with no clamp. */
  lemma HalfWidthTaper(headSize: real, i: nat, j: nat)
    requires headSize > 0.0 && i <= j
    ensures HalfWidth(headSize, 0) == 0.0
    ensures HalfWidth(headSize, i) == i as real * headSize / 25.0
    ensures HalfWidth(headSize, i) <= HalfWidth(headSize, j)
    ensures i < TailSteps ==> HalfWidth(headSize, i) <= 14.0 * headSize / 25.0 < headSize
  {
    MapMonotone(0.0, 25.0, 0.0, headSize, i as real, j as real);
    if i < TailSteps {
      MapMonotone(0.0, 25.0, 0.0, headSize, i as real, 14.0);
    }
  }

  /** The vertex a quarter turn clockwise of the heading. */
  function LeftVertex(env: Env, s: Section, w: real): Vec3
  {
    Add(s.location, Polar(env, w, s.theta - PI * 0.5))
  }

  /** The vertex a quarter turn counter-clockwise of the heading. */
  function RightVertex(env: Env, s: Section, w: real): Vec3
  {
    Add(s.location, Polar(env, w, s.theta + PI * 0.5))
  }

  /** The vertices that n sections emit when section i emits left(i) and then right(i). */
  function Pairs(left: nat -> Vec3, right: nat -> Vec3, n: nat): (v: seq<Vec3>)
    ensures |v| == 2 * n
  {
    if n == 0 then [] else Pairs(left, right, n - 1) + [left(n - 1), right(n - 1)]
  }

  lemma {:induction false} PairsAt(left: nat -> Vec3, right: nat -> Vec3, n: nat, i: nat)
    requires i < n
    ensures Pairs(left, right, n)[2 * i] == left(i) && Pairs(left, right, n)[2 * i + 1] == right(i)
  {
    if i < n - 1 {
      PairsAt(left, right, n - 1, i);
    }
  }

  /** The left vertex of each tail section. */
  function TailLeft(env: Env, ring: Ring, frameCount: int, headSize: real): nat -> Vec3
  {
    (i: nat) => LeftVertex(env, SectionAt(env, ring, frameCount, i), HalfWidth(headSize, i))
  }

  /** The right vertex of each tail section. */
  function TailRight(env: Env, ring: Ring, frameCount: int, headSize: real): nat -> Vec3
  {
    (i: nat) => RightVertex(env, SectionAt(env, ring, frameCount, i), HalfWidth(headSize, i))
  }

  /** The vertices of the first n tail sections, left then right for each. */
  function TailVertices(env: Env, ring: Ring, frameCount: int, headSize: real, n: nat): seq<Vec3>
  {
    Pairs(TailLeft(env, ring, frameCount, headSize), TailRight(env, ring, frameCount, headSize), n)
  }

  /** Section n appends its left and then its right vertex. */
  lemma TailVerticesNext(env: Env, ring: Ring, frameCount: int, headSize: real, n: nat)
    ensures TailVertices(env, ring, frameCount, headSize, n + 1) ==
      TailVertices(env, ring, frameCount, headSize, n) +
      [LeftVertex(env, SectionAt(env, ring, frameCount, n), HalfWidth(headSize, n)),
       RightVertex(env, SectionAt(env, ring, frameCount, n), HalfWidth(headSize, n))]
  {
  }

  /** n sections give 2n vertices; section i contributes vertex 2i (left) and vertex 2i+1 (right). */
  lemma TailVertexAt(env: Env, ring: Ring, frameCount: int, headSize: real, n: nat, i: nat)
    requires i < n
    ensures |TailVertices(env, ring, frameCount, headSize, n)| == 2 * n
    ensures TailVertices(env, ring, frameCount, headSize, n)[2 * i] ==
      LeftVertex(env, SectionAt(env, ring, frameCount, i), HalfWidth(headSize, i))
    ensures TailVertices(env, ring, frameCount, headSize, n)[2 * i + 1] ==
      RightVertex(env, SectionAt(env, ring, frameCount, i), HalfWidth(headSize, i))
  {
    PairsAt(TailLeft(env, ring, frameCount, headSize), TailRight(env, ring, frameCount, headSize), n, i);
  }

  /** Given the Pythagorean identity, both vertices of a section lie at the half-width from its point. */
  lemma VerticesAtHalfWidth(env: Env, s: Section, w: real)
    requires Pythagorean(env)
    ensures DistSq3(LeftVertex(env, s, w), s.location) == w * w
    ensures DistSq3(RightVertex(env, s, w), s.location) == w * w
  {
    PolarOffsetDistance(env, s.location, w, s.theta - PI * 0.5);
    PolarOffsetDistance(env, s.location, w, s.theta + PI * 0.5);
  }

  /**
   * The tail loop: `steps` sections, two vertices each, and the point and heading of the last
   * section (`Vector3.ZERO` and 0 when there is none).
   */
  method SampleTail(env: Env, ring: Ring, frameCount: int, headSize: real, steps: nat)
    returns (vertices: seq<Vec3>, lastLocation: Vec3, lastTheta: real)
    ensures vertices == TailVertices(env, ring, frameCount, headSize, steps)
    ensures |vertices| == 2 * steps
    ensures steps > 0 ==> Section(lastLocation, lastTheta) == SectionAt(env, ring, frameCount, steps - 1)
    ensures steps == 0 ==> lastLocation == Zero3 && lastTheta == 0.0
  {
    vertices := [];
    lastLocation, lastTheta := Zero3, 0.0;
    for i := 0 to steps
      invariant vertices == TailVertices(env, ring, frameCount, headSize, i)
      invariant i > 0 ==> Section(lastLocation, lastTheta) == SectionAt(env, ring, frameCount, i - 1)
      invariant i == 0 ==> lastLocation == Zero3 && lastTheta == 0.0
    {
      var section := SectionAt(env, ring, frameCount, i);
      var w := HalfWidth(headSize, i);
      TailVerticesNext(env, ring, frameCount, headSize, i);
      vertices := vertices + [LeftVertex(env, section, w)];
      vertices := vertices + [RightVertex(env, section, w)];
      lastLocation := section.location;
      lastTheta := section.theta;
    }
  }
}
