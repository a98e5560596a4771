// The tiered rejection-sampling circle packer at the start of the `program` block of
// src/main/kotlin/com/kabuko/junkiyoshi/insta20200802/Main.kt (the three `while` loops that fill
// `locationList` and `radiusList`).

module Packing {
  import opened Geometry

  /** The three `Random.double` draws of one loop iteration: centre x, centre y and raw radius. */
  datatype Draw = Draw(x: real, y: real, r: real)

  function Center(d: Draw): Vec2
  {
    Vec2(d.x, d.y)
  }

  /**
   * One packing loop: it runs until the lists hold `target` circles, draws centres inside the
   * canvas inset by `margin` and radii in [minRadius, maxRadius], and stores `scale` times the
   * drawn radius.
   */
  datatype Tier = Tier(target: nat, margin: real, minRadius: real, maxRadius: real, scale: real)

  const Tier1 := Tier(8, 140.0, 50.0, 120.0, 1.0)
  const Tier2 := Tier(20, 100.0, 30.0, 60.0, 1.2)
  const Tier3 := Tier(36, 100.0, 10.0, 20.0, 1.2)

  /** What `radiusList` receives: the drawn radius, times 1.2 in tiers 2 and 3. */
  function StoredRadius(t: Tier, radius: real): real
  {
    radius * t.scale
  }

  /** The two parallel lists `locationList` and `radiusList`. */
  datatype Circles = Circles(locations: seq<Vec2>, radii: seq<real>)

  predicate Parallel(c: Circles)
  {
    |c.locations| == |c.radii|
  }

  /** `c` is `c'` with zero or more circles appended. */
  predicate Extends(c': Circles, c: Circles)
  {
    c.locations <= c'.locations && c.radii <= c'.radii
  }

  /**
   * `location.distanceTo(other) < stored + radius`, stated without the square root: a distance
   * is never negative, so the test can only succeed when the bound is positive, and then it
   * compares squares.
   */
  predicate Overlaps(location: Vec2, other: Vec2, stored: real, radius: real)
  {
    stored + radius > 0.0 && DistSq(location, other) < (stored + radius) * (stored + radius)
  }

  /** Overlaps is exactly the source's test on any distance d, i.e. on d = sqrt(DistSq). */
  lemma OverlapsIsDistanceTest(location: Vec2, other: Vec2, stored: real, radius: real, d: real)
    requires d >= 0.0 && d * d == DistSq(location, other)
    ensures Overlaps(location, other, stored, radius) <==> d < stored + radius
  {
    var b := stored + radius;
    if b > 0.0 {
      assert b * b - d * d == (b - d) * (b + d);
      if d < b {
        ProductPositive(b - d, b + d);
      } else {
        ProductNonNegative(d - b, b + d);
        assert d * d - b * b == (d - b) * (b + d);
      }
    }
  }

  lemma ProductPositive(x: real, y: real)
    requires x > 0.0 && y > 0.0
    ensures x * y > 0.0
  {
  }

  lemma ProductNonNegative(x: real, y: real)
    requires x >= 0.0 && y >= 0.0
    ensures x * y >= 0.0
  {
  }

  /** Circles that touch are accepted: only a strictly shorter distance rejects. */
  lemma TouchingIsNotOverlap(location: Vec2, other: Vec2, stored: real, radius: real)
    requires DistSq(location, other) == (stored + radius) * (stored + radius)
    ensures !Overlaps(location, other, stored, radius)
  {
  }

  /** No earlier circle i satisfies the rejection test against stored radius radii[i]. */
  predicate Clear(location: Vec2, radius: real, c: Circles)
    requires Parallel(c)
  {
    forall i :: 0 <= i < |c.locations| ==> !Overlaps(location, c.locations[i], c.radii[i], radius)
  }

  /** The `for` loop with `flag` and `break` that tests one candidate against every earlier circle. */
  method Fits(location: Vec2, radius: real, c: Circles) returns (flag: bool)
    requires Parallel(c)
    ensures flag <==> Clear(location, radius, c)
  {
    flag := true;
    var i := 0;
    while i < |c.locations|
      invariant 0 <= i <= |c.locations|
      invariant flag
      invariant forall k :: 0 <= k < i ==> !Overlaps(location, c.locations[k], c.radii[k], radius)
    {
      if Overlaps(location, c.locations[i], c.radii[i], radius) {
        flag := false;
        break;
      }
      i := i + 1;
    }
  }

  /** One loop iteration: append the candidate to both lists if it is clear, otherwise nothing. */
  function Consider(t: Tier, c: Circles, d: Draw): (r: Circles)
    requires Parallel(c)
    ensures Parallel(r) && Extends(r, c)
    ensures Clear(Center(d), d.r, c) <==> |r.locations| == |c.locations| + 1
    ensures !Clear(Center(d), d.r, c) <==> r == c
  {
    if Clear(Center(d), d.r, c) then
      Circles(c.locations + [Center(d)], c.radii + [StoredRadius(t, d.r)])
    else
      c
  }

  datatype Outcome = Placed(circles: Circles, rest: seq<Draw>) | Exhausted

  /**
   * One tier's `while` loop over the stream of draws: `rest` is what it leaves unread.  The
   * source loops forever when no candidate fits; the model stops with Exhausted when the draws
   * run out.
   */
  function RunTier(t: Tier, c: Circles, draws: seq<Draw>): (r: Outcome)
    requires Parallel(c)
    ensures r.Placed? ==> Parallel(r.circles) && Extends(r.circles, c)
    ensures r.Placed? ==> |r.circles.locations| == if |c.locations| < t.target then t.target else |c.locations|
    ensures r.Placed? ==> |r.rest| <= |draws| && r.rest == draws[|draws| - |r.rest|..]
    decreases |draws|
  {
    if |c.locations| >= t.target then Placed(c, draws)
    else if draws == [] then Exhausted
    else RunTier(t, Consider(t, c, draws[0]), draws[1..])
  }


  lemma RunTierStep(t: Tier, c: Circles, draws: seq<Draw>)
    requires Parallel(c) && |c.locations| < t.target && draws != []
    ensures RunTier(t, c, draws) == RunTier(t, Consider(t, c, draws[0]), draws[1..])
  {
  }

  /** The three loops in order, sharing one stream of draws and one pair of lists. */
  function Pack(draws: seq<Draw>): Outcome
  {
    match RunTier(Tier1, Circles([], []), draws)
    case Exhausted => Exhausted
    case Placed(c1, rest1) =>
      match RunTier(Tier2, c1, rest1)
      case Exhausted => Exhausted
      case Placed(c2, rest2) => RunTier(Tier3, c2, rest2)
  }

  /** One tier's `while` loop, drawing candidates until the lists hold `t.target` circles. */
  method PlaceTier(t: Tier, c0: Circles, draws: seq<Draw>) returns (ok: bool, c: Circles, rest: seq<Draw>)
    requires Parallel(c0)
    ensures ok ==> RunTier(t, c0, draws) == Placed(c, rest)
    ensures !ok <==> RunTier(t, c0, draws) == Exhausted
  {
    var locationList, radiusList := c0.locations, c0.radii;
    rest := draws;
    while |locationList| < t.target
      invariant |locationList| == |radiusList|
      invariant RunTier(t, c0, draws) == RunTier(t, Circles(locationList, radiusList), rest)
      decreases |rest|
    {
      if rest == [] {
        return false, Circles(locationList, radiusList), rest;
      }
      ghost var before, d := Circles(locationList, radiusList), rest[0];
      RunTierStep(t, before, rest);
      var location := Center(rest[0]);
      var radius := rest[0].r;
      rest := rest[1..];
      var flag := Fits(location, radius, Circles(locationList, radiusList));
      if flag {
        ConsiderAccepts(t, before, d);
        locationList := locationList + [location];
        radiusList := radiusList + [StoredRadius(t, radius)];
      }
    }
    ok, c := true, Circles(locationList, radiusList);
  }

  /** The whole packing phase: 8 circles, then 20, then 36. */
  method PackCircles(draws: seq<Draw>) returns (ok: bool, c: Circles, rest: seq<Draw>)
    ensures ok ==> Pack(draws) == Placed(c, rest)
    ensures !ok <==> Pack(draws) == Exhausted
    ensures ok ==> |c.locations| == |c.radii| == 36
  {
    ok, c, rest := PlaceTier(Tier1, Circles([], []), draws);
    if !ok {
      return;
    }
    ok, c, rest := PlaceTier(Tier2, c, rest);
    if !ok {
      return;
    }
    ok, c, rest := PlaceTier(Tier3, c, rest);
  }

  // ---------------------------------------------------------------------------------------
  // The acceptance invariant

  /**
   * Every circle j in [lo, hi) keeps clear of every earlier circle i, judged as the source
   * judges it: the stored radius of i plus the raw radius of j, which is its stored radius
   * divided by the tier's scale.
   */
  ghost predicate SeparatedIn(c: Circles, lo: nat, hi: nat, scale: real)
    requires Parallel(c) && scale > 0.0
  {
    forall j, i :: lo <= j < hi && j < |c.locations| && 0 <= i < j ==>
      !Overlaps(c.locations[j], c.locations[i], c.radii[i], c.radii[j] / scale)
  }

  lemma ConsiderSeparates(t: Tier, c: Circles, d: Draw, lo: nat)
    requires Parallel(c) && t.scale > 0.0
    requires SeparatedIn(c, lo, |c.locations|, t.scale)
    ensures SeparatedIn(Consider(t, c, d), lo, |Consider(t, c, d).locations|, t.scale)
  {
    var r := Consider(t, c, d);
    if r != c {
      var n := |c.locations|;
      assert r.radii[n] / t.scale == d.r;
      forall j, i | lo <= j < |r.locations| && 0 <= i < j
        ensures !Overlaps(r.locations[j], r.locations[i], r.radii[i], r.radii[j] / t.scale)
      {
        if j < n {
          assert r.locations[j] == c.locations[j] && r.locations[i] == c.locations[i];
          assert r.radii[j] == c.radii[j] && r.radii[i] == c.radii[i];
        } else {
          assert r.locations[j] == Center(d) && r.locations[i] == c.locations[i];
          assert r.radii[i] == c.radii[i];
        }
      }
    }
  }

  /** A tier keeps the invariant it was given and extends it to every circle it adds. */
  lemma {:induction false} RunTierSeparates(t: Tier, c: Circles, draws: seq<Draw>, lo: nat)
    requires Parallel(c) && t.scale > 0.0
    requires SeparatedIn(c, lo, |c.locations|, t.scale)
    ensures RunTier(t, c, draws).Placed? ==>
      SeparatedIn(RunTier(t, c, draws).circles, lo, |RunTier(t, c, draws).circles.locations|, t.scale)
    decreases |draws|
  {
    if |c.locations| < t.target && draws != [] {
      ConsiderSeparates(t, c, draws[0], lo);
      RunTierSeparates(t, Consider(t, c, draws[0]), draws[1..], lo);
    }
  }

  /** Appending circles does not disturb what held of the circles already there. */
  lemma SeparatedInExtends(c: Circles, c': Circles, lo: nat, hi: nat, scale: real)
    requires Parallel(c) && Parallel(c') && Extends(c', c) && hi <= |c.locations| && scale > 0.0
    requires SeparatedIn(c, lo, hi, scale)
    ensures SeparatedIn(c', lo, hi, scale)
  {
    forall j, i | lo <= j < hi && j < |c'.locations| && 0 <= i < j
      ensures !Overlaps(c'.locations[j], c'.locations[i], c'.radii[i], c'.radii[j] / scale)
    {
      assert c'.locations[j] == c.locations[j] && c'.locations[i] == c.locations[i];
      assert c'.radii[j] == c.radii[j] && c'.radii[i] == c.radii[i];
    }
  }

  /**
   * A completed packing has 36 circles, and each circle clears every earlier one: circles 0-7
   * with their own radius, circles 8-35 with their stored radius divided by 1.2.
   */
  lemma PackSeparated(draws: seq<Draw>)
    ensures Pack(draws).Placed? ==>
      var c := Pack(draws).circles;
      |c.locations| == |c.radii| == 36 &&
      SeparatedIn(c, 0, 8, 1.0) && SeparatedIn(c, 8, 20, 1.2) && SeparatedIn(c, 20, 36, 1.2)
  {
    var c0 := Circles([], []);
    RunTierSeparates(Tier1, c0, draws, 0);
    var r1 := RunTier(Tier1, c0, draws);
    if r1.Placed? {
      var c1 := r1.circles;
      RunTierSeparates(Tier2, c1, r1.rest, 8);
      var r2 := RunTier(Tier2, c1, r1.rest);
      if r2.Placed? {
        var c2 := r2.circles;
        RunTierSeparates(Tier3, c2, r2.rest, 20);
        var r3 := RunTier(Tier3, c2, r2.rest);
        if r3.Placed? {
          var c3 := r3.circles;
          SeparatedInExtends(c1, c2, 0, 8, 1.0);
          SeparatedInExtends(c2, c3, 0, 8, 1.0);
          SeparatedInExtends(c2, c3, 8, 20, 1.2);
        }
      }
    }
  }

  // ---------------------------------------------------------------------------------------
  // Ranges

  /** The draw lies where `Random.double` was asked to put it for tier t on a width x height canvas. */
  ghost predicate InRange(t: Tier, width: real, height: real, d: Draw)
  {
    t.margin <= d.x <= width - t.margin && t.margin <= d.y <= height - t.margin &&
    t.minRadius <= d.r <= t.maxRadius
  }

  /** Every circle in [lo, hi) has its centre in the tier's box and its stored radius scaled from the tier's range. */
  ghost predicate WithinTier(t: Tier, width: real, height: real, c: Circles, lo: nat, hi: nat)
    requires Parallel(c) && hi <= |c.locations|
  {
    forall j :: lo <= j < hi ==>
      t.margin <= c.locations[j].x <= width - t.margin &&
      t.margin <= c.locations[j].y <= height - t.margin &&
      t.scale * t.minRadius <= c.radii[j] <= t.scale * t.maxRadius
  }

  /** The tier completes, and every draw it reads (all but the unread `rest`) lies in its ranges. */
  ghost predicate ReadsInRange(t: Tier, width: real, height: real, c: Circles, draws: seq<Draw>)
    requires Parallel(c)
  {
    RunTier(t, c, draws).Placed? &&
    forall k :: 0 <= k < |draws| - |RunTier(t, c, draws).rest| ==> InRange(t, width, height, draws[k])
  }

  /** The stored radius of a drawn radius in [minRadius, maxRadius] lies in the scaled range. */
  lemma StoredRadiusWithin(t: Tier, radius: real)
    requires t.scale > 0.0 && t.minRadius <= radius <= t.maxRadius
    ensures t.scale * t.minRadius <= StoredRadius(t, radius) <= t.scale * t.maxRadius
  {
    ProductNonNegative(t.scale, radius - t.minRadius);
    ProductNonNegative(t.scale, t.maxRadius - radius);
  }

  lemma ConsiderWithin(t: Tier, width: real, height: real, c: Circles, d: Draw, lo: nat)
    requires Parallel(c) && t.scale > 0.0 && InRange(t, width, height, d)
    requires lo <= |c.locations| && WithinTier(t, width, height, c, lo, |c.locations|)
    ensures WithinTier(t, width, height, Consider(t, c, d), lo, |Consider(t, c, d).locations|)
  {
    var c' := Consider(t, c, d);
    if c' != c {
      StoredRadiusWithin(t, d.r);
      forall j | lo <= j < |c'.locations|
        ensures t.margin <= c'.locations[j].x <= width - t.margin
        ensures t.margin <= c'.locations[j].y <= height - t.margin
        ensures t.scale * t.minRadius <= c'.radii[j] <= t.scale * t.maxRadius
      {
        if j < |c.locations| {
          assert c'.locations[j] == c.locations[j] && c'.radii[j] == c.radii[j];
        } else {
          assert c'.locations[j] == Center(d) && c'.radii[j] == StoredRadius(t, d.r);
        }
      }
    }
  }

  /** With every draw the tier reads in its ranges, every circle the tier adds lies in them too. */
  lemma {:induction false} RunTierWithin(t: Tier, width: real, height: real, c: Circles, draws: seq<Draw>, lo: nat)
    requires Parallel(c) && t.scale > 0.0
    requires ReadsInRange(t, width, height, c, draws)
    requires lo <= |c.locations| && WithinTier(t, width, height, c, lo, |c.locations|)
    ensures WithinTier(t, width, height, RunTier(t, c, draws).circles, lo, |RunTier(t, c, draws).circles.locations|)
    decreases |draws|
  {
    if |c.locations| < t.target && draws != [] {
      var c' := Consider(t, c, draws[0]);
      assert InRange(t, width, height, draws[0]);
      ConsiderWithin(t, width, height, c, draws[0], lo);
      assert ReadsInRange(t, width, height, c', draws[1..]) by {
        forall k | 0 <= k < |draws[1..]| - |RunTier(t, c', draws[1..]).rest|
          ensures InRange(t, width, height, draws[1..][k])
        {
          assert draws[1..][k] == draws[k + 1];
        }
      }
      RunTierWithin(t, width, height, c', draws[1..], lo);
    }
  }

  /** Appending circles leaves the bounds of the circles already there in place. */
  lemma WithinTierExtends(t: Tier, width: real, height: real, c: Circles, c': Circles, lo: nat, hi: nat)
    requires Parallel(c) && Parallel(c') && Extends(c', c) && hi <= |c.locations|
    requires WithinTier(t, width, height, c, lo, hi)
    ensures WithinTier(t, width, height, c', lo, hi)
  {
    forall j | lo <= j < hi
      ensures c'.locations[j] == c.locations[j] && c'.radii[j] == c.radii[j]
    {
      assert c'.locations[..|c.locations|] == c.locations;
      assert c'.radii[..|c.radii|] == c.radii;
    }
  }

  /** Every tier completes, and each reads only draws inside the ranges it asks `Random.double` for. */
  ghost predicate PackReadsInRange(width: real, height: real, draws: seq<Draw>)
  {
    var c0 := Circles([], []);
    ReadsInRange(Tier1, width, height, c0, draws) &&
    var r1 := RunTier(Tier1, c0, draws);
    ReadsInRange(Tier2, width, height, r1.circles, r1.rest) &&
    var r2 := RunTier(Tier2, r1.circles, r1.rest);
    ReadsInRange(Tier3, width, height, r2.circles, r2.rest)
  }

  /**
   * When every tier completes and reads only draws in its own ranges, circles 0-7 have centres
   * in [140, width-140] x [140, height-140] and radii in [50, 120], circles 8-19 centres in
   * [100, width-100] x [100, height-100] and stored radii in [36, 72], and circles 20-35 the same
   * box and stored radii in [12, 24].
   */
  lemma PackWithin(width: real, height: real, draws: seq<Draw>)
    requires PackReadsInRange(width, height, draws)
    ensures Pack(draws).Placed?
    ensures var c := Pack(draws).circles;
      |c.locations| == |c.radii| == 36 &&
      WithinTier(Tier1, width, height, c, 0, 8) &&
      WithinTier(Tier2, width, height, c, 8, 20) &&
      WithinTier(Tier3, width, height, c, 20, 36)
  {
    var c0 := Circles([], []);
    var r1 := RunTier(Tier1, c0, draws);
    assert r1.Placed? by { assert ReadsInRange(Tier1, width, height, c0, draws); }
    var c1 := r1.circles;
    var r2 := RunTier(Tier2, c1, r1.rest);
    assert r2.Placed? by { assert ReadsInRange(Tier2, width, height, c1, r1.rest); }
    var c2 := r2.circles;
    var r3 := RunTier(Tier3, c2, r2.rest);
    assert r3.Placed? by { assert ReadsInRange(Tier3, width, height, c2, r2.rest); }
    var c3 := r3.circles;
    assert Pack(draws) == r3;
    assert |c3.locations| == |c3.radii| == 36;
    assert WithinTier(Tier1, width, height, c3, 0, 8) by {
      RunTierWithin(Tier1, width, height, c0, draws, 0);
      WithinTierExtends(Tier1, width, height, c1, c2, 0, 8);
      WithinTierExtends(Tier1, width, height, c2, c3, 0, 8);
    }
    assert WithinTier(Tier2, width, height, c3, 8, 20) by {
      RunTierWithin(Tier2, width, height, c1, r1.rest, 8);
      WithinTierExtends(Tier2, width, height, c2, c3, 8, 20);
    }
    assert WithinTier(Tier3, width, height, c3, 20, 36) by {
      RunTierWithin(Tier3, width, height, c2, r2.rest, 20);
    }
  }

  /** The stored radius ranges of the three tiers: [50, 120], [36, 72] and [12, 24]. */
  lemma TierRanges()
    ensures Tier1.scale * Tier1.minRadius == 50.0 && Tier1.scale * Tier1.maxRadius == 120.0
    ensures Tier2.scale * Tier2.minRadius == 36.0 && Tier2.scale * Tier2.maxRadius == 72.0
    ensures Tier3.scale * Tier3.minRadius == 12.0 && Tier3.scale * Tier3.maxRadius == 24.0
  {
  }

  /** An accepted candidate is appended, centre to `locationList` and stored radius to `radiusList`. */
  lemma ConsiderAccepts(t: Tier, c: Circles, d: Draw)
    requires Parallel(c) && Clear(Center(d), d.r, c)
    ensures Consider(t, c, d) == Circles(c.locations + [Center(d)], c.radii + [StoredRadius(t, d.r)])
  {
  }
}
