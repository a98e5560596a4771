// Vectors of org.openrndr.math (Vector2, Vector3) over exact reals, and the library numerics the
// sketch calls (cos, sin, atan2 and perlinQuintic), which are not part of this model and are
// therefore passed in as arbitrary functions.

module Geometry {
  datatype Vec2 = Vec2(x: real, y: real)

  datatype Vec3 = Vec3(x: real, y: real, z: real)

  /** `Vector3.ZERO`. */
  const Zero3 := Vec3(0.0, 0.0, 0.0)

  /** `a + b`. */
  function Add(a: Vec3, b: Vec3): Vec3
  {
    Vec3(a.x + b.x, a.y + b.y, a.z + b.z)
  }

  /** `a - b`. */
  function Sub(a: Vec3, b: Vec3): Vec3
  {
    Vec3(a.x - b.x, a.y - b.y, a.z - b.z)
  }

  /** `a * s`: every component scaled by s. */
  function Scale(a: Vec3, s: real): Vec3
  {
    Vec3(a.x * s, a.y * s, a.z * s)
  }

  /** Square of `a.distanceTo(b)` for Vector2; squaring avoids the square root. */
  function DistSq(a: Vec2, b: Vec2): (d: real)
    ensures d >= 0.0
  {
    SquareNonNegative(a.x - b.x);
    SquareNonNegative(a.y - b.y);
    (a.x - b.x) * (a.x - b.x) + (a.y - b.y) * (a.y - b.y)
  }

  /** Square of the Euclidean distance between two Vector3 points. */
  function DistSq3(a: Vec3, b: Vec3): (d: real)
    ensures d >= 0.0
  {
    SquareNonNegative(a.x - b.x);
    SquareNonNegative(a.y - b.y);
    SquareNonNegative(a.z - b.z);
    (a.x - b.x) * (a.x - b.x) + (a.y - b.y) * (a.y - b.y) + (a.z - b.z) * (a.z - b.z)
  }

  lemma SquareNonNegative(x: real)
    ensures x * x >= 0.0
  {
    if x < 0.0 {
      assert x * x == (-x) * (-x);
    }
  }

  /** The library numerics: `cos`, `sin`, `atan2(y, x)` and `perlinQuintic(seed, x)`. */
  datatype Env = Env(cos: real -> real, sin: real -> real, atan2: (real, real) -> real,
                     noise: (int, real) -> real)

  /** What every cosine/sine pair satisfies; stated as a premise, since the functions are arbitrary. */
  ghost predicate Pythagorean(env: Env)
  {
    forall t :: env.cos(t) * env.cos(t) + env.sin(t) * env.sin(t) == 1.0
  }

  /** `Vector3(w * cos(angle), w * sin(angle), 0.0)`: the vector of length w in direction angle. */
  function Polar(env: Env, w: real, angle: real): Vec3
  {
    Vec3(w * env.cos(angle), w * env.sin(angle), 0.0)
  }

  /** Given the Pythagorean identity, `center + Polar(w, angle)` lies at distance |w| from center. */
  lemma PolarOffsetDistance(env: Env, center: Vec3, w: real, angle: real)
    requires Pythagorean(env)
    ensures DistSq3(Add(center, Polar(env, w, angle)), center) == w * w
  {
    var c, s := env.cos(angle), env.sin(angle);
    assert c * c + s * s == 1.0;
    var p := Add(center, Polar(env, w, angle));
    assert p.x - center.x == w * c && p.y - center.y == w * s && p.z - center.z == 0.0;
    calc {
      DistSq3(p, center);
      (w * c) * (w * c) + (w * s) * (w * s);
      w * w * (c * c + s * s);
      w * w;
    }
  }
}
