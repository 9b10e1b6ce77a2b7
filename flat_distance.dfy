/** The flat approximation of the map component's distance function:
    `Math.sqrt((lon2 - lon1) ** 2 + (lat2 - lat1) ** 2) * 111000`.
    The square root is characterised by what it returns (the non-negative
    number whose square is the argument) rather than computed, and the
    arithmetic is over the reals, not IEEE doubles. */
module FlatDistance {
  import opened Geometry
  import opened Waypoints

  /** Metres per degree used by the approximation. */
  const MetersPerDegree: real := 111000.0

  /** The sum of the squared coordinate deltas. */
  function SquaredDelta(a: Coord, b: Coord): (s: real)
    ensures s >= 0.0
  {
    (b.lon - a.lon) * (b.lon - a.lon) + (b.lat - a.lat) * (b.lat - a.lat)
  }

  /** `r` is what `Math.sqrt(x)` returns. */
  ghost predicate IsSqrt(r: real, x: real)
  {
    r >= 0.0 && r * r == x
  }

  /** `d` is the flat distance from `a` to `b`. */
  ghost predicate IsFlatDistance(a: Coord, b: Coord, d: real)
  {
    exists r :: IsSqrt(r, SquaredDelta(a, b)) && d == r * MetersPerDegree
  }

  /** A square root, when it exists, is unique. */
  lemma SqrtUnique(r1: real, r2: real, x: real)
    requires IsSqrt(r1, x) && IsSqrt(r2, x)
    ensures r1 == r2
  {
    if r1 < r2 {
      SquareGrows(r1, r2);
    } else if r2 < r1 {
      SquareGrows(r2, r1);
    }
  }

  lemma SquareGrows(a: real, b: real)
    requires 0.0 <= a < b
    ensures a * a < b * b
  {
    var ab := a * b;
    assert a * a <= ab;
    assert ab < b * b;
  }

  /** The flat distance is a function of its two points. */
  lemma FlatDistanceUnique(a: Coord, b: Coord, d1: real, d2: real)
    requires IsFlatDistance(a, b, d1) && IsFlatDistance(a, b, d2)
    ensures d1 == d2
  {
    var r1 :| IsSqrt(r1, SquaredDelta(a, b)) && d1 == r1 * MetersPerDegree;
    var r2 :| IsSqrt(r2, SquaredDelta(a, b)) && d2 == r2 * MetersPerDegree;
    SqrtUnique(r1, r2, SquaredDelta(a, b));
  }

  /** Symmetric in its two arguments. */
  lemma FlatDistanceSymmetric(a: Coord, b: Coord, d: real)
    ensures IsFlatDistance(a, b, d) <==> IsFlatDistance(b, a, d)
  {
    assert SquaredDelta(a, b) == SquaredDelta(b, a);
  }

  /** Never negative. */
  lemma FlatDistanceNonNegative(a: Coord, b: Coord, d: real)
    requires IsFlatDistance(a, b, d)
    ensures d >= 0.0
  {
  }

  /** Zero exactly from a point to itself. */
  lemma FlatDistanceSamePoint(a: Coord, d: real)
    ensures IsFlatDistance(a, a, d) <==> d == 0.0
  {
    if d == 0.0 {
      assert IsSqrt(0.0, SquaredDelta(a, a));
    } else if IsFlatDistance(a, a, d) {
      var r :| IsSqrt(r, SquaredDelta(a, a)) && d == r * MetersPerDegree;
      SqrtUnique(r, 0.0, SquaredDelta(a, a));
    }
  }

  /** One degree of latitude counts 111000 m; a 3-4-5 triangle of degrees
      counts 5 times that. */
  lemma FlatDistanceKnownValues()
    ensures IsFlatDistance(Coord(0.0, 0.0), Coord(0.0, 1.0), 111000.0)
    ensures IsFlatDistance(Coord(0.0, 0.0), Coord(3.0, 4.0), 555000.0)
  {
    assert SquaredDelta(Coord(0.0, 0.0), Coord(0.0, 1.0)) == 1.0;
    assert IsSqrt(1.0, 1.0) && 111000.0 == 1.0 * MetersPerDegree;
    assert SquaredDelta(Coord(0.0, 0.0), Coord(3.0, 4.0)) == 25.0;
    assert IsSqrt(5.0, 25.0) && 555000.0 == 5.0 * MetersPerDegree;
  }

  /** Built with the flat distance, every waypoint's distance is at least 0
      and the distance of leg i does not depend on the direction it is
      walked. */
  lemma FlatWaypointsNonNegative(coords: seq<Coord>, dist: (Coord, Coord) -> real)
    requires forall a, b :: IsFlatDistance(a, b, dist(a, b))
    ensures forall i :: 0 <= i < |coords| ==> Build(coords, dist)[i].distance >= 0.0
    ensures forall i :: 0 < i < |coords| ==> Build(coords, dist)[i].distance == dist(coords[i], coords[i - 1])
  {
    forall a, b
      ensures dist(a, b) >= 0.0
    {
      FlatDistanceNonNegative(a, b, dist(a, b));
    }
    BuildNonNegative(coords, dist);
    forall i | 0 < i < |coords|
      ensures Build(coords, dist)[i].distance == dist(coords[i], coords[i - 1])
    {
      var a, b := coords[i - 1], coords[i];
      BuildAt(coords, dist, i);
      FlatDistanceSymmetric(a, b, dist(a, b));
      FlatDistanceUnique(b, a, dist(a, b), dist(b, a));
    }
  }
}
