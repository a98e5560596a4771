// The triangle-list assembly of one ring in src/main/kotlin/com/kabuko/junkiyoshi/insta20200802/Main.kt:
// the tail quads split by the `vertexOrder` template, the fan over the head points, and the whole
// ring built from the tail sampler, the head sweep and these two loops.

module Mesh {
  import opened Geometry
  import opened Ribbon
  import opened Head

  /** `vertexOrder`: the two triangles (0, 1, 3) and (0, 2, 3) of a quad of four tail vertices. */
  const VertexOrder: seq<nat> := [0, 1, 3, 0, 2, 3]

  /** `headSize`: the width of the head, twice the radius of its half circle. */
  const HeadSize: real := 4.0

  /** `vertexOrder.map { vertices[i + it] }`. */
  function Quad(v: seq<Vec3>, i: nat): (q: seq<Vec3>)
    requires i + 3 < |v|
    ensures q == [v[i], v[i + 1], v[i + 3], v[i], v[i + 2], v[i + 3]]
  {
    seq(6, j requires 0 <= j < 6 => v[i + VertexOrder[j]])
  }

  /**
   * The quads for i, i+2, ... while i < |v| - 2.  For an even count the last one starts at
   * |v| - 4, so no index reaches past |v| - 1.
   */
  function TailFrom(v: seq<Vec3>, i: nat): (t: seq<Vec3>)
    requires |v| % 2 == 0 && i % 2 == 0
    ensures |t| == if i + 2 < |v| then 6 * ((|v| - i) / 2 - 1) else 0
    decreases |v| - i
  {
    if i + 2 >= |v| then [] else Quad(v, i) + TailFrom(v, i + 2)
  }

  /** The tail loop's output, for the vertex counts on which it does not fail. */
  function TailTriangles(v: seq<Vec3>): seq<Vec3>
    requires |v| % 2 == 0 || |v| < 3
  {
    if |v| % 2 == 0 then TailFrom(v, 0) else []
  }

  /** Quad q of the output is the quad that starts at tail vertex 2q. */
  lemma {:induction false} TailFromAt(v: seq<Vec3>, i: nat, q: nat)
    requires |v| % 2 == 0 && i % 2 == 0 && i + 2 * q + 2 < |v|
    ensures 6 * q + 6 <= |TailFrom(v, i)|
    ensures TailFrom(v, i)[6 * q..6 * q + 6] == Quad(v, i + 2 * q)
    decreases q
  {
    var rest := TailFrom(v, i + 2);
    assert TailFrom(v, i) == Quad(v, i) + rest;
    if q > 0 {
      TailFromAt(v, i + 2, q - 1);
      assert TailFrom(v, i)[6 * q..6 * q + 6] == rest[6 * (q - 1)..6 * (q - 1) + 6];
    }
  }

  /**
   * For an even count s the tail gives 6 (s/2 - 1) vertices when s >= 4, and quad q is
   * (v[2q], v[2q+1], v[2q+3], v[2q], v[2q+2], v[2q+3]).
   */
  lemma TailTrianglesShape(v: seq<Vec3>, q: nat)
    requires |v| % 2 == 0
    ensures |TailTriangles(v)| == if |v| >= 4 then 6 * (|v| / 2 - 1) else 0
    ensures 2 * q + 3 < |v| ==>
      TailTriangles(v)[6 * q..6 * q + 6] == [v[2 * q], v[2 * q + 1], v[2 * q + 3], v[2 * q], v[2 * q + 2], v[2 * q + 3]]
  {
    if 2 * q + 3 < |v| {
      TailFromAt(v, 0, q);
    }
  }

  /**
   * The loop `for (i in 0 until vertices.size - 2 step 2)`.  An odd count of at least three
   * makes its last quad read past the end of the list, where Kotlin throws: `ok` is false then.
   */
  method AssembleTail(vertices: seq<Vec3>) returns (ok: bool, triangles: seq<Vec3>)
    ensures ok <==> |vertices| % 2 == 0 || |vertices| < 3
    ensures ok ==> triangles == TailTriangles(vertices)
  {
    triangles := [];
    var i := 0;
    while i < |vertices| - 2
      invariant i % 2 == 0
      invariant |vertices| % 2 == 0 ==> i <= |vertices| && triangles + TailFrom(vertices, i) == TailFrom(vertices, 0)
      invariant |vertices| % 2 == 1 && |vertices| >= 3 ==> i <= |vertices| - 3
      invariant |vertices| < 3 ==> triangles == []
      decreases |vertices| - i
    {
      if i + 3 >= |vertices| {
        return false, triangles;
      }
      triangles := triangles + Quad(vertices, i);
      i := i + 2;
    }
    if |vertices| % 2 == 0 {
      assert TailFrom(vertices, i) == [];
    }
    ok := true;
  }

  /** The first n triangles (h[0], h[k], h[k+1]) of the head fan. */
  function FanUpTo(h: seq<Vec3>, n: nat): (f: seq<Vec3>)
    requires n < |h|
    ensures |f| == 3 * n
  {
    if n == 0 then [] else FanUpTo(h, n - 1) + [h[0], h[n - 1], h[n]]
  }

  /** The whole fan: one triangle for each k in `0 until h.lastIndex`. */
  function Fan(h: seq<Vec3>): seq<Vec3>
  {
    if |h| == 0 then [] else FanUpTo(h, |h| - 1)
  }

  lemma {:induction false} FanUpToAt(h: seq<Vec3>, n: nat, k: nat)
    requires n < |h| && k < n
    ensures FanUpTo(h, n)[3 * k..3 * k + 3] == [h[0], h[k], h[k + 1]]
  {
    if k < n - 1 {
      FanUpToAt(h, n - 1, k);
      assert FanUpTo(h, n)[3 * k..3 * k + 3] == FanUpTo(h, n - 1)[3 * k..3 * k + 3];
    }
  }

  /**
   * n head points give 3 (n - 1) vertices (none for n <= 1); triangle k is (h[0], h[k], h[k+1]),
   * so the first one, (h[0], h[0], h[1]), is degenerate.
   */
  lemma FanShape(h: seq<Vec3>, k: nat)
    ensures |Fan(h)| == if |h| <= 1 then 0 else 3 * (|h| - 1)
    ensures k + 1 < |h| ==> Fan(h)[3 * k..3 * k + 3] == [h[0], h[k], h[k + 1]]
    ensures |h| >= 2 ==> Fan(h)[0] == Fan(h)[1] == h[0]
  {
    if k + 1 < |h| {
      FanUpToAt(h, |h| - 1, k);
    }
    if |h| >= 2 {
      FanUpToAt(h, |h| - 1, 0);
      assert Fan(h)[0..3] == [h[0], h[0], h[1]];
    }
  }

  /** The loop `for (i in 0 until headVertices.lastIndex)`. */
  method AssembleHead(headVertices: seq<Vec3>) returns (triangles: seq<Vec3>)
    ensures triangles == Fan(headVertices)
  {
    triangles := [];
    var i := 0;
    while i < |headVertices| - 1
      invariant 0 <= i
      invariant |headVertices| > 0 ==> i < |headVertices| && triangles == FanUpTo(headVertices, i)
      invariant |headVertices| == 0 ==> triangles == []
    {
      triangles := triangles + [headVertices[0]];
      triangles := triangles + [headVertices[i]];
      triangles := triangles + [headVertices[i + 1]];
      i := i + 1;
    }
  }

  /** The vertex list of one ring: the tail's 15 sections as quads, then the fan over the head. */
  function RingMesh(env: Env, ring: Ring, frameCount: int): seq<Vec3>
  {
    TailVertexAt(env, ring, frameCount, HeadSize, TailSteps, 0);
    var last := SectionAt(env, ring, frameCount, TailSteps - 1);
    TailTriangles(TailVertices(env, ring, frameCount, HeadSize, TailSteps)) +
    Fan(CapPoints(env, last.location, last.theta, HeadSize, HeadPoints))
  }

  /** 30 tail vertices give 84 tail triangle vertices, 21 head points give 60: 144 in all. */
  lemma RingMeshSize(env: Env, ring: Ring, frameCount: int)
    ensures |RingMesh(env, ring, frameCount)| == 144
  {
    var last := SectionAt(env, ring, frameCount, TailSteps - 1);
    TailVertexAt(env, ring, frameCount, HeadSize, TailSteps, 0);
    TailTrianglesShape(TailVertices(env, ring, frameCount, HeadSize, TailSteps), 0);
    FanShape(CapPoints(env, last.location, last.theta, HeadSize, HeadPoints), 0);
  }

  /** One ring: sample the tail, assemble its quads, sweep the head and fan it. */
  method BuildRing(env: Env, ring: Ring, frameCount: int) returns (finalVertices: seq<Vec3>)
    ensures finalVertices == RingMesh(env, ring, frameCount)
    ensures |finalVertices| == 144
  {
    var vertices, lastLocation, lastTheta := SampleTail(env, ring, frameCount, HeadSize, TailSteps);
    var ok, tail := AssembleTail(vertices);
    assert ok;
    var headVertices := SweepHead(env, lastLocation, lastTheta, HeadSize);
    var fan := AssembleHead(headVertices);
    finalVertices := tail + fan;
    RingMeshSize(env, ring, frameCount);
  }
}
