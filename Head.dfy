// The head sweep of one ring in src/main/kotlin/com/kabuko/junkiyoshi/insta20200802/Main.kt:
// the `while (theta <= lastTheta + PI * 0.5)` loop that places points on a half circle around
// the tail's last point, computed here over exact reals.

module Head {
  import opened Geometry
  import opened Units

  /** The number of points the sweep places over exact reals: 0, 9, ..., 180 degrees. */
  const HeadPoints: nat := 21

  /** The sweep angle after k increments of PI / 20, starting a quarter turn before lastTheta. */
  function SweepAngle(lastTheta: real, k: nat): real
  {
    lastTheta - PI * 0.5 + k as real * (PI / 20.0)
  }

  lemma SweepAngleNext(lastTheta: real, k: nat)
    ensures SweepAngle(lastTheta, k) + PI / 20.0 == SweepAngle(lastTheta, k + 1)
  {
  }

  /** The sweep starts a quarter turn before the heading and its 21st point is a quarter turn after it. */
  lemma SweepEnds(lastTheta: real)
    ensures SweepAngle(lastTheta, 0) == lastTheta - PI * 0.5
    ensures SweepAngle(lastTheta, HeadPoints - 1) == lastTheta + PI * 0.5
  {
  }

  /** The loop test `theta <= lastTheta + PI * 0.5` holds for exactly the first 21 angles. */
  lemma SweepContinues(lastTheta: real, k: nat)
    ensures SweepAngle(lastTheta, k) <= lastTheta + PI * 0.5 <==> k < HeadPoints
  {
    var step := PI / 20.0;
    assert SweepAngle(lastTheta, k) - (lastTheta + PI * 0.5) == (k as real - 20.0) * step;
    if k < HeadPoints {
      assert (20.0 - k as real) * step >= 0.0;
    } else {
      assert (k as real - 20.0) * step > 0.0;
    }
  }

  /** `lastLocation + Vector3(headSize * 0.5 * cos(theta), headSize * 0.5 * sin(theta), 0.0)`. */
  function CapPoint(env: Env, center: Vec3, headSize: real, theta: real): Vec3
  {
    Add(center, Polar(env, headSize * 0.5, theta))
  }

  /** The first n points of the sweep. */
  function CapPoints(env: Env, center: Vec3, lastTheta: real, headSize: real, n: nat): (h: seq<Vec3>)
    ensures |h| == n
  {
    if n == 0 then []
    else CapPoints(env, center, lastTheta, headSize, n - 1) + [CapPoint(env, center, headSize, SweepAngle(lastTheta, n - 1))]
  }

  /** Point k of the sweep sits at angle SweepAngle(lastTheta, k). */
  lemma {:induction false} CapPointAt(env: Env, center: Vec3, lastTheta: real, headSize: real, n: nat, k: nat)
    requires k < n
    ensures CapPoints(env, center, lastTheta, headSize, n)[k] ==
      CapPoint(env, center, headSize, SweepAngle(lastTheta, k))
  {
    if k < n - 1 {
      CapPointAt(env, center, lastTheta, headSize, n - 1, k);
    }
  }

  /** Given the Pythagorean identity, every cap point lies at distance headSize / 2 from the centre. */
  lemma CapPointsOnCircle(env: Env, center: Vec3, lastTheta: real, headSize: real, n: nat, k: nat)
    requires Pythagorean(env) && k < n
    ensures DistSq3(CapPoints(env, center, lastTheta, headSize, n)[k], center) == (headSize * 0.5) * (headSize * 0.5)
  {
    CapPointAt(env, center, lastTheta, headSize, n, k);
    PolarOffsetDistance(env, center, headSize * 0.5, SweepAngle(lastTheta, k));
  }

  /** The head loop: theta starts at lastTheta - PI/2 and grows by PI/20 while it stays <= lastTheta + PI/2. */
  method SweepHead(env: Env, lastLocation: Vec3, lastTheta: real, headSize: real) returns (headVertices: seq<Vec3>)
    ensures headVertices == CapPoints(env, lastLocation, lastTheta, headSize, HeadPoints)
    ensures |headVertices| == HeadPoints
  {
    headVertices := [];
    var theta := lastTheta - PI * 0.5;
    ghost var k: nat := 0;
    SweepContinues(lastTheta, k);
    while theta <= lastTheta + PI * 0.5
      invariant theta == SweepAngle(lastTheta, k)
      invariant k <= HeadPoints
      invariant headVertices == CapPoints(env, lastLocation, lastTheta, headSize, k)
      decreases HeadPoints - k
    {
      SweepContinues(lastTheta, k);
      headVertices := headVertices + [Add(lastLocation, Polar(env, headSize * 0.5, theta))];
      SweepAngleNext(lastTheta, k);
      theta := theta + PI / 20.0;
      k := k + 1;
    }
    SweepContinues(lastTheta, k);
  }
}
