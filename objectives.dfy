/** The objective scores of a waypoint path and the derived voyage figures
    (`_fuel_score`, `_time_score`, `_safety_score`, `_estimate_fuel`,
    `_estimate_eta` and `_multi_objective_fitness` of backend/hacopso.py). */
module Objectives {

  import opened Geo

  /** The `priorities` dictionary: objective name to weight. */
  type Priorities = map<string, real>

  /** `priorities.get(key, default)` */
  function Weight(p: Priorities, key: string, default: real): real
  {
    if key in p then p[key] else default
  }

  function Min(a: real, b: real): real
  {
    if a <= b then a else b
  }

  function Max(a: real, b: real): real
  {
    if a <= b then b else a
  }

  /** The "typical long voyage" that normalises distances, in nautical miles. */
  const VoyageScale: real := 5000.0

  /** `_fuel_score`: the path length relative to a 5000 nm voyage, capped at 1. */
  function FuelScore(d: Haversine, path: seq<Waypoint>): (r: real)
    ensures 0.0 <= r <= 1.0
    ensures r * VoyageScale <= PathDistance(d, path)
    ensures r == 1.0 || r * VoyageScale == PathDistance(d, path)
  {
    Min(PathDistance(d, path) / VoyageScale, 1.0)
  }

  /** `_time_score`: the mean of the normalised length and the relative detour
      over the direct leg (whose length counts as at least 1 nm), capped at 1.
      Python raises on an empty path (`path[0]`), hence the precondition. The
      score is never negative when the distance is a metric, as the
      great-circle distance is: no path is then shorter than its direct leg. */
  function TimeScore(d: Haversine, path: seq<Waypoint>): (r: real)
    requires |path| >= 1
    ensures r <= 1.0
    ensures Metric(d) ==> 0.0 <= r
  {
    var distance := PathDistance(d, path);
    var direct := d(path[0], path[|path| - 1]);
    var deviation := (distance - direct) / Max(direct, 1.0);
    PathAtLeastDirect(d, path);
    NonNegativeQuotient(distance - direct, Max(direct, 1.0));
    NonNegativeQuotient(distance, VoyageScale);
    Min((distance / VoyageScale + deviation) / 2.0, 1.0)
  }

  /** On a path that is a single leg there is no detour: the time score is
      half the normalised length, capped at 1. */
  lemma DirectTimeScore(d: Haversine, a: Waypoint, b: Waypoint)
    ensures TimeScore(d, [a, b]) == Min(d(a, b) / (2.0 * VoyageScale), 1.0)
  {
    DirectPathDistance(d, a, b);
    var distance := PathDistance(d, [a, b]);
    assert (distance - d(a, b)) / Max(d(a, b), 1.0) == 0.0;
  }

  /** The hazard one waypoint adds in `_safety_score`: 0.1 in the tropical band
      |lat| <= 10, 0.2 in the polar regions |lat| > 60, otherwise nothing. */
  function WaypointHazard(w: Waypoint): (h: real)
    ensures h == 0.0 || h == 0.1 || h == 0.2
    ensures h == 0.1 <==> -10.0 <= w.lat <= 10.0
    ensures h == 0.2 <==> (w.lat > 60.0 || w.lat < -60.0)
  {
    (if -10.0 <= w.lat <= 10.0 then 0.1 else 0.0) +
    (if (if w.lat < 0.0 then -w.lat else w.lat) > 60.0 then 0.2 else 0.0)
  }

  /** The accumulated hazard of the waypoints of a path. */
  function HazardTotal(path: seq<Waypoint>): (r: real)
    ensures 0.0 <= r <= 0.2 * (|path| as real)
  {
    if path == [] then 0.0
    else HazardTotal(path[..|path| - 1]) + WaypointHazard(path[|path| - 1])
  }

  /** `_safety_score`: the mean hazard per waypoint, capped at 1. Python divides
      by `len(path)` and so raises on an empty path, hence the precondition.
      Since each waypoint adds at most 0.2, the score never exceeds 0.2. */
  function SafetyScore(path: seq<Waypoint>): (r: real)
    requires |path| >= 1
    ensures 0.0 <= r <= 0.2
  {
    var n := |path| as real;
    var total := HazardTotal(path);
    QuotientAtMost(total, n, 0.2);
    Min(total / n, 1.0)
  }

  /** The loop of `_safety_score` that sums the hazard of every waypoint. */
  method ComputeSafetyScore(path: seq<Waypoint>) returns (score: real)
    requires |path| >= 1
    ensures score == SafetyScore(path)
  {
    var hazard := 0.0;
    for i := 0 to |path|
      invariant hazard == HazardTotal(path[..i])
    {
      assert path[..i + 1][..i] == path[..i];
      var lat := path[i].lat;
      if -10.0 <= lat <= 10.0 {
        hazard := hazard + 0.1;
      }
      if (if lat < 0.0 then -lat else lat) > 60.0 {
        hazard := hazard + 0.2;
      }
    }
    assert path[..|path|] == path;
    score := Min(hazard / (|path| as real), 1.0);
  }

  /** `_estimate_fuel`: 0.5 t per nautical mile, reduced by up to 30% as the
      fuel priority (default 0.33) grows. */
  function EstimateFuel(distance: real, p: Priorities): (r: real)
    ensures distance >= 0.0 && 0.0 <= Weight(p, "fuel", 0.33) <= 1.0 ==> 0.35 * distance <= r <= 0.5 * distance
  {
    var efficiency := 1.0 - Weight(p, "fuel", 0.33) * 0.3;
    assert 0.0 <= Weight(p, "fuel", 0.33) <= 1.0 ==> 0.7 <= efficiency <= 1.0;
    FuelEstimateBounds(distance, efficiency);
    distance * 0.5 * efficiency
  }

  /** `0.35 d <= 0.5 d e <= 0.5 d` for `d >= 0` and `e` in [0.7, 1]. */
  lemma FuelEstimateBounds(distance: real, efficiency: real)
    ensures distance >= 0.0 && 0.7 <= efficiency <= 1.0 ==>
      0.35 * distance <= distance * 0.5 * efficiency <= 0.5 * distance
  {
    if distance >= 0.0 && 0.7 <= efficiency <= 1.0 {
      var half := distance * 0.5;
      ProductNonNegative(half, efficiency - 0.7);
      ProductNonNegative(half, 1.0 - efficiency);
    }
  }

  /** A larger fuel priority never raises the fuel estimate of the same distance. */
  lemma FuelEstimateFallsWithPriority(distance: real, p: Priorities, q: Priorities)
    requires distance >= 0.0
    requires Weight(p, "fuel", 0.33) <= Weight(q, "fuel", 0.33)
    ensures EstimateFuel(distance, q) <= EstimateFuel(distance, p)
  {
    var half := distance * 0.5;
    var ep := 1.0 - Weight(p, "fuel", 0.33) * 0.3;
    var eq := 1.0 - Weight(q, "fuel", 0.33) * 0.3;
    ProductNonNegative(half, ep - eq);
    assert half * ep - half * eq == half * (ep - eq);
  }

  /** Python's `int(x)`: truncation toward zero. */
  function Truncate(x: real): (r: int)
    ensures x >= 0.0 ==> r as real <= x < r as real + 1.0
    ensures x < 0.0 ==> r as real - 1.0 < x <= r as real
  {
    if x >= 0.0 then x.Floor else -((-x).Floor)
  }

  /** The average speed `_estimate_eta` assumes, in knots. */
  const AverageSpeed: real := 15.0

  /** `_estimate_eta`: the whole hours of the voyage at 15 knots (the model
      keeps the number; the source formats it as "<hours> hrs"). */
  function EstimateEtaHours(distance: real): (hours: int)
    ensures distance >= 0.0 ==> hours >= 0 && hours as real * AverageSpeed <= distance < (hours as real + 1.0) * AverageSpeed
  {
    Truncate(distance / AverageSpeed)
  }

  /** `_multi_objective_fitness`: the priority-weighted sum of the three scores of
      the path a position stands for (weights default to 0.33, 0.33 and 0.34).
      With non-negative weights the scores' ranges bound the fitness from above. */
  function Fitness(d: Haversine, start: Waypoint, dest: Waypoint, p: Priorities, position: seq<real>): (r: real)
    ensures var wf, wt, ws := Weight(p, "fuel", 0.33), Weight(p, "time", 0.33), Weight(p, "safety", 0.34);
      wf >= 0.0 && wt >= 0.0 && ws >= 0.0 ==> r <= wf + wt + 0.2 * ws && (Metric(d) ==> 0.0 <= r)
  {
    var path := PathOf(start, dest, position);
    var wf, wt, ws := Weight(p, "fuel", 0.33), Weight(p, "time", 0.33), Weight(p, "safety", 0.34);
    var fuel, time, safety := FuelScore(d, path), TimeScore(d, path), SafetyScore(path);
    WeightedSumAtMost(wf, wt, ws, fuel, time, safety);
    if wf >= 0.0 && wt >= 0.0 && ws >= 0.0 && time >= 0.0 then
      ProductNonNegative(wf, fuel);
      ProductNonNegative(wt, time);
      ProductNonNegative(ws, safety);
      wf * fuel + wt * time + ws * safety
    else
      wf * fuel + wt * time + ws * safety
  }

  /** A route planned without priorities weighs fuel and time 0.33 and safety
      0.34, so its fitness is at most 0.33 + 0.33 + 0.2 * 0.34 = 0.728, and under
      a metric distance at least 0. */
  lemma DefaultFitnessRange(d: Haversine, start: Waypoint, dest: Waypoint, p: Priorities, position: seq<real>)
    requires "fuel" !in p && "time" !in p && "safety" !in p
    ensures Fitness(d, start, dest, p, position) <= 0.728
    ensures Metric(d) ==> 0.0 <= Fitness(d, start, dest, p, position)
  {
  }

  lemma ProductNonNegative(x: real, y: real)
    requires x >= 0.0 && y >= 0.0
    ensures x * y >= 0.0
  {
  }

  /** `x / n <= c` when `x <= c * n` and `n > 0`. */
  lemma QuotientAtMost(x: real, n: real, c: real)
    requires n > 0.0 && x <= c * n
    ensures x / n <= c
  {
    var q := x / n;
    assert q * n == x;
    assert (c - q) * n == c * n - x;
    NonNegativeFactor(c - q, n);
  }

  /** `x / n >= 0` for `x >= 0` and `n > 0`. */
  lemma NonNegativeQuotient(x: real, n: real)
    ensures x >= 0.0 && n > 0.0 ==> x / n >= 0.0
  {
    if x >= 0.0 && n > 0.0 {
      NonNegativeFactor(x / n, n);
    }
  }

  lemma NonNegativeFactor(y: real, n: real)
    requires n > 0.0 && y * n >= 0.0
    ensures y >= 0.0
  {
    assert y == (y * n) / n;
  }

  /** The weighted sum of scores at most 1, 1 and 0.2. */
  lemma WeightedSumAtMost(wf: real, wt: real, ws: real, fuel: real, time: real, safety: real)
    requires fuel <= 1.0 && time <= 1.0 && safety <= 0.2
    ensures wf >= 0.0 && wt >= 0.0 && ws >= 0.0 ==> wf * fuel + wt * time + ws * safety <= wf + wt + 0.2 * ws
  {
    WeightedAtMost(wf, fuel, 1.0);
    WeightedAtMost(wt, time, 1.0);
    WeightedAtMost(ws, safety, 0.2);
  }

  /** `w * s <= w * bound` for a non-negative weight and a score below `bound`. */
  lemma WeightedAtMost(w: real, s: real, bound: real)
    requires s <= bound
    ensures w >= 0.0 ==> w * s <= w * bound
  {
    if w >= 0.0 {
      ProductNonNegative(w, bound - s);
    }
  }
}
