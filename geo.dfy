/** Waypoints, the waypoint path a particle stands for, and path length
    (the geometric helpers of backend/hacopso.py). */
module Geo {

  /** A point of a route: latitude and longitude in degrees. */
  datatype Waypoint = Waypoint(lat: real, lon: real)

  /** The great-circle distance between two waypoints in nautical miles.
      The haversine formula itself (trigonometry, Earth radius 3440 nm) is not
      modelled; any non-negative distance function may stand for it. */
  type Haversine = d: (Waypoint, Waypoint) -> real | forall a, b :: d(a, b) >= 0.0
    witness (a: Waypoint, b: Waypoint) => 0.0

  /** `min(a, b) <= x <= max(a, b)` */
  predicate Between(x: real, a: real, b: real)
  {
    if a <= b then a <= x <= b else b <= x <= a
  }

  /** Every component of a position vector lies in the unit box [0, 1]. */
  predicate InUnitBox(v: seq<real>)
  {
    forall i :: 0 <= i < |v| ==> 0.0 <= v[i] <= 1.0
  }

  /** The `i`-th intermediate waypoint: components `2i` and `2i + 1` of the
      position scale the latitude and longitude span from start to destination. */
  function ControlPoint(start: Waypoint, dest: Waypoint, position: seq<real>, i: nat): Waypoint
    requires 2 * i + 1 < |position|
  {
    Waypoint(start.lat + (dest.lat - start.lat) * position[2 * i],
             start.lon + (dest.lon - start.lon) * position[2 * i + 1])
  }

  /** The waypoint path of `_generate_path`: the start, one waypoint per pair of
      position components (an odd last component is ignored), the destination. */
  function PathOf(start: Waypoint, dest: Waypoint, position: seq<real>): (path: seq<Waypoint>)
    ensures |path| == |position| / 2 + 2
    ensures path[0] == start && path[|path| - 1] == dest
    ensures forall k :: 1 <= k < |path| - 1 ==> path[k] == ControlPoint(start, dest, position, k - 1)
  {
    [start] + seq(|position| / 2, i requires 0 <= i < |position| / 2 => ControlPoint(start, dest, position, i)) + [dest]
  }

  /** `_generate_path`: the loop that appends one waypoint per pair of components. */
  method GeneratePath(start: Waypoint, dest: Waypoint, position: seq<real>) returns (path: seq<Waypoint>)
    ensures path == PathOf(start, dest, position)
  {
    path := [start];
    var n := |position| / 2;
    for i := 0 to n
      invariant |path| == i + 1 && path[0] == start
      invariant forall k :: 1 <= k <= i ==> path[k] == ControlPoint(start, dest, position, k - 1)
    {
      var lat := start.lat + (dest.lat - start.lat) * position[i * 2];
      var lon := start.lon + (dest.lon - start.lon) * position[i * 2 + 1];
      path := path + [Waypoint(lat, lon)];
    }
    path := path + [dest];
  }

  /** A value `a + (b - a) * t` with `t` in [0, 1] lies between `a` and `b`. */
  lemma Interpolation(a: real, b: real, t: real)
    requires 0.0 <= t <= 1.0
    ensures Between(a + (b - a) * t, a, b)
  {
    var span := b - a;
    var y := span * t;
    assert a + (b - a) * t == a + y;
    if a <= b {
      ScaledSpan(span, t);
      assert a <= a + y <= b;
    } else {
      var back := a - b;
      ScaledSpan(back, t);
      assert y == -(back * t);
      assert b <= a + y <= a;
    }
  }

  /** `0 <= x * t <= x` for a non-negative span `x` and `t` in [0, 1]. */
  lemma ScaledSpan(x: real, t: real)
    requires x >= 0.0 && 0.0 <= t <= 1.0
    ensures 0.0 <= x * t <= x
  {
    assert x * t <= x * 1.0 by {
      assert x * (1.0 - t) >= 0.0;
    }
  }

  /** With every position component in [0, 1], each intermediate waypoint stays
      inside the latitude and longitude span of start and destination. */
  lemma {:induction false} PathWithinSpan(start: Waypoint, dest: Waypoint, position: seq<real>)
    requires InUnitBox(position)
    ensures forall k :: 0 < k < |PathOf(start, dest, position)| - 1 ==>
      Between(PathOf(start, dest, position)[k].lat, start.lat, dest.lat) &&
      Between(PathOf(start, dest, position)[k].lon, start.lon, dest.lon)
  {
    var path := PathOf(start, dest, position);
    forall k | 0 < k < |path| - 1
      ensures Between(path[k].lat, start.lat, dest.lat) && Between(path[k].lon, start.lon, dest.lon)
    {
      Interpolation(start.lat, dest.lat, position[2 * (k - 1)]);
      Interpolation(start.lon, dest.lon, position[2 * (k - 1) + 1]);
    }
  }

  /** Total length of a path: the sum of the distances of consecutive waypoints. */
  function PathDistance(d: Haversine, path: seq<Waypoint>): (r: real)
    ensures r >= 0.0
  {
    if |path| < 2 then 0.0
    else PathDistance(d, path[..|path| - 1]) + d(path[|path| - 2], path[|path| - 1])
  }

  /** `_calculate_distance`: the loop that sums the legs of a path in order. */
  method CalculateDistance(d: Haversine, path: seq<Waypoint>) returns (total: real)
    ensures total == PathDistance(d, path)
  {
    total := 0.0;
    var i := 0;
    while i + 1 < |path|
      invariant 0 <= i <= if |path| == 0 then 0 else |path| - 1
      invariant |path| == 0 ==> total == 0.0
      invariant |path| > 0 ==> total == PathDistance(d, path[..i + 1])
    {
      assert path[..i + 2][..i + 1] == path[..i + 1];
      total := total + d(path[i], path[i + 1]);
      i := i + 1;
    }
    assert |path| > 0 ==> path[..i + 1] == path;
  }

  /** Two properties of the great-circle distance that the abstract distance
      lacks: a waypoint is at distance zero from itself, and no leg is longer
      than a detour through a third waypoint. */
  ghost predicate Metric(d: Haversine)
  {
    (forall a :: d(a, a) == 0.0) && (forall a, b, c :: d(a, c) <= d(a, b) + d(b, c))
  }

  /** Under a metric distance, a path is at least as long as the direct leg
      from its first to its last waypoint. */
  lemma {:induction false} PathAtLeastDirect(d: Haversine, path: seq<Waypoint>)
    requires |path| >= 1
    ensures Metric(d) ==> d(path[0], path[|path| - 1]) <= PathDistance(d, path)
  {
    if Metric(d) && |path| >= 2 {
      var init := path[..|path| - 1];
      PathAtLeastDirect(d, init);
      assert init[0] == path[0] && init[|init| - 1] == path[|path| - 2];
      assert d(path[0], path[|path| - 1]) <= d(path[0], path[|path| - 2]) + d(path[|path| - 2], path[|path| - 1]);
    }
  }

  /** A two-point path is as long as its single leg. */
  lemma DirectPathDistance(d: Haversine, a: Waypoint, b: Waypoint)
    ensures PathDistance(d, [a, b]) == d(a, b)
  {
    assert [a, b][..1] == [a];
  }
}
