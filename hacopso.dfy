/** The HACOPSO optimizer of backend/hacopso.py: the pure round-by-round
    specification of `optimize`, and the `Optimizer` object that owns the swarm
    and the global best and updates them in place. Random draws come from a
    caller-supplied oracle (Rng). */
module Hacopso {

  import opened Wrappers
  import opened Geo
  import opened Objectives
  import opened Swarm

  /** `dimension` of `_initialize_swarm`: control points of a candidate path. */
  const Dimension: nat := 10

  /** Length of a position vector: a latitude and a longitude factor per control point. */
  const PositionLength: nat := 2 * Dimension

  // ---------------------------------------------------------------------------
  // Random draws

  /** The `np.random` draws of one run: the initial position and the
      velocity draw of particle `k`, the move draws of particle `i` in iteration
      `t`, and the superposition draws of pair `j` in iteration `t`. */
  datatype Rng = Rng(
    initPosition: nat -> seq<real>,
    initVelocity: nat -> seq<real>,
    move: (nat, nat) -> Draw,
    quantum: (nat, nat) -> QuantumDraw)

  /** A draw of `np.random.rand()`. */
  predicate Uniform(x: real)
  {
    0.0 <= x < 1.0
  }

  /** A draw of `np.random.rand(dimension * 2)`. */
  predicate UniformVector(v: seq<real>)
  {
    |v| == PositionLength && forall i :: 0 <= i < |v| ==> Uniform(v[i])
  }

  /** The draws have the ranges and shapes numpy gives them. */
  ghost predicate WellFormed(rng: Rng)
  {
    (forall k: nat :: UniformVector(rng.initPosition(k)) && UniformVector(rng.initVelocity(k))) &&
    (forall t: nat, i: nat :: |rng.move(t, i).noise| == PositionLength) &&
    (forall t: nat, j: nat :: Uniform(rng.quantum(t, j).alpha) && Uniform(rng.quantum(t, j).coin))
  }

  /** The superposition draws of iteration `t`, by pair. */
  function QuantumDraws(rng: Rng, t: nat): nat -> QuantumDraw
  {
    (j: nat) => rng.quantum(t, j)
  }

  // ---------------------------------------------------------------------------
  // Swarm invariants

  /** Every particle has vectors of the right length and lies, with its
      personal best, inside the unit box. */
  predicate SwarmOk(ss: seq<Particle>)
  {
    forall i :: 0 <= i < |ss| ==> Shaped(ss[i], PositionLength) && Boxed(ss[i])
  }

  /** A global best, if any, has a position of the right length in the box. */
  predicate BestInBox(g: Option<Best>)
  {
    g.Some? ==> |g.value.position| == PositionLength && InUnitBox(g.value.position)
  }

  /** `global_best_position` and `global_best_fitness` exist together, and the
      position is of the right length and in the box. */
  predicate BestOk(position: Option<seq<real>>, fitness: Option<real>)
  {
    (fitness.Some? <==> position.Some?) &&
    (position.Some? ==> |position.value| == PositionLength && InUnitBox(position.value))
  }

  /** `global_best_position` and `global_best_fitness` as one value. */
  function BestOf(position: Option<seq<real>>, fitness: Option<real>): (g: Option<Best>)
    ensures BestOk(position, fitness) ==> FitnessOf(g) == fitness && BestInBox(g)
  {
    if fitness.Some? && position.Some? then Some(Best(fitness.value, position.value)) else None
  }

  /** Evaluation keeps a swarm in shape and in the box. */
  lemma EvaluateAllKeepsSwarm(ss: seq<Particle>, f: seq<real> -> real)
    requires SwarmOk(ss)
    ensures SwarmOk(EvaluateAll(ss, f))
  {
  }

  /** One step of the evaluation loop on the two global-best fields: if they
      hold the global best after the positions before `i`, replacing them by
      position `i` and its fitness when that is strictly lower makes them hold
      the global best after the positions up to `i`. */
  lemma GlobalBestStep(g: Option<Best>, ps: seq<seq<real>>, i: nat, f: seq<real> -> real, position: Option<seq<real>>, fitness: Option<real>)
    requires i < |ps| && |ps[i]| == PositionLength && InUnitBox(ps[i])
    requires BestOk(position, fitness) && BestOf(position, fitness) == GlobalAfter(g, ps[..i], f)
    ensures var better := Below(f(ps[i]), fitness);
      var position' := if better then Some(ps[i]) else position;
      var fitness' := if better then Some(f(ps[i])) else fitness;
      BestOk(position', fitness') && BestOf(position', fitness') == GlobalAfter(g, ps[..i + 1], f)
  {
    GlobalAfterPrefix(g, ps, i, f);
  }

  /** A global best taken from a swarm in the box is in the box. */
  lemma GlobalAfterInBox(g: Option<Best>, ss: seq<Particle>, f: seq<real> -> real)
    requires BestInBox(g) && SwarmOk(ss)
    ensures BestInBox(GlobalAfter(g, Positions(ss), f))
  {
    GlobalBestComesFromPass(g, Positions(ss), f);
  }

  // ---------------------------------------------------------------------------
  // The passes of one round, on values

  /** `_initialize_swarm`: `n` particles at uniform positions, with a tenth of a
      uniform draw as velocity, the start position as personal best, and both
      fitness values `float('inf')`. */
  function InitialSwarm(rng: Rng, n: nat): (ss: seq<Particle>)
    ensures |ss| == n
    ensures WellFormed(rng) ==> SwarmOk(ss)
    ensures forall k :: 0 <= k < n ==>
      ss[k].position == rng.initPosition(k) && ss[k].bestPosition == ss[k].position &&
      ss[k].bestFitness.None? && ss[k].fitness.None?
  {
    seq(n, k requires 0 <= k < n => Particle(rng.initPosition(k), Scale(rng.initVelocity(k), 0.1), rng.initPosition(k), None, None))
  }

  /** The move of one particle in iteration `t` with the draws `d`. */
  function MoveWith(s: Particle, t: nat, maxIterations: nat, w: real, c1: real, c2: real, g: seq<real>, d: Draw): (r: Particle)
    requires maxIterations > 0 && Shaped(s, PositionLength) && |g| == PositionLength && |d.noise| == PositionLength
    ensures Shaped(r, PositionLength) && InUnitBox(r.position)
    ensures r.bestPosition == s.bestPosition && r.bestFitness == s.bestFitness && r.fitness == s.fitness
  {
    Move(s, w, c1, c2, g, d.r1, d.r2, ChaosPerturbation(t, maxIterations, d.chaosSeed, d.noise))
  }

  /** The movement pass over the whole swarm in iteration `t`, towards the
      global best `g`: every particle ends inside the unit box and keeps its
      personal best and its fitness. */
  function MoveAll(ss: seq<Particle>, t: nat, maxIterations: nat, w: real, c1: real, c2: real, g: seq<real>, rng: Rng): (ts: seq<Particle>)
    requires maxIterations > 0 && SwarmOk(ss) && |g| == PositionLength && WellFormed(rng)
    ensures |ts| == |ss| && SwarmOk(ts)
    ensures forall i :: 0 <= i < |ss| ==>
      (ts[i].bestPosition == ss[i].bestPosition && ts[i].bestFitness == ss[i].bestFitness && ts[i].fitness == ss[i].fitness)
  {
    seq(|ss|, i requires 0 <= i < |ss| => MoveWith(ss[i], t, maxIterations, w, c1, c2, g, rng.move(t, i)))
  }

  /** Particle `i` after the movement pass. */
  lemma MoveAllAt(ss: seq<Particle>, t: nat, maxIterations: nat, w: real, c1: real, c2: real, g: seq<real>, rng: Rng, i: nat)
    requires maxIterations > 0 && SwarmOk(ss) && |g| == PositionLength && WellFormed(rng) && i < |ss|
    ensures MoveAll(ss, t, maxIterations, w, c1, c2, g, rng)[i] == MoveWith(ss[i], t, maxIterations, w, c1, c2, g, rng.move(t, i))
  {
  }

  /** Opposition-based learning over `particles[:k]`: those may jump to their
      opposite positions, never to a worse fitness; the rest, every velocity and
      every personal best stay as they were. */
  function OpposePrefix(ss: seq<Particle>, k: nat, f: seq<real> -> real): (ts: seq<Particle>)
    ensures |ts| == |ss| && (SwarmOk(ss) ==> SwarmOk(ts))
    ensures forall i :: k <= i < |ss| ==> ts[i] == ss[i]
    ensures forall i :: 0 <= i < |ss| ==>
      (AtMost(ts[i].fitness, ss[i].fitness) && ts[i].bestPosition == ss[i].bestPosition && ts[i].bestFitness == ss[i].bestFitness)
  {
    seq(|ss|, i requires 0 <= i < |ss| => if i < k then Oppose(ss[i], f) else ss[i])
  }

  /** Particle `i` after opposition-based learning. */
  lemma OpposePrefixAt(ss: seq<Particle>, k: nat, f: seq<real> -> real, i: nat)
    requires i < |ss|
    ensures OpposePrefix(ss, k, f)[i] == if i < k then Oppose(ss[i], f) else ss[i]
  {
  }

  /** The superposition pass over the whole swarm in iteration `t`: the swarm
      stays in the unit box, and only positions change. */
  function SuperposeAll(ss: seq<Particle>, rng: Rng, t: nat): (ts: seq<Particle>)
    requires SwarmOk(ss) && WellFormed(rng)
    ensures |ts| == |ss| && SwarmOk(ts)
    ensures forall i :: 0 <= i < |ss| ==>
      (ts[i].velocity == ss[i].velocity && ts[i].bestPosition == ss[i].bestPosition &&
       ts[i].bestFitness == ss[i].bestFitness && ts[i].fitness == ss[i].fitness)
  {
    var pair := QuantumDraws(rng, t);
    var ts := seq(|ss|, i requires 0 <= i < |ss| => Superposed(ss, i, pair));
    assert SwarmOk(ts) by {
      forall i | 0 <= i < |ss|
        ensures Shaped(ts[i], PositionLength) && Boxed(ts[i])
      {
        SuperposedInBox(ss, i, pair);
      }
    }
    ts
  }

  /** Particle `i` after the superposition pass. */
  lemma SuperposeAllAt(ss: seq<Particle>, rng: Rng, t: nat, i: nat)
    requires SwarmOk(ss) && WellFormed(rng) && i < |ss|
    ensures SuperposeAll(ss, rng, t)[i] == Superposed(ss, i, QuantumDraws(rng, t))
  {
  }

  /** Pair `i / 2` after the superposition pass, for an even `i`. */
  lemma SuperposeAllPair(ss: seq<Particle>, rng: Rng, t: nat, i: nat)
    requires SwarmOk(ss) && WellFormed(rng) && i % 2 == 0 && i + 1 < |ss|
    ensures var d := rng.quantum(t, i / 2);
      var sup := Superposition(ss[i].position, ss[i + 1].position, d.alpha);
      SuperposeAll(ss, rng, t)[i] == (if d.coin < 0.5 then ss[i].(position := sup) else ss[i]) &&
      SuperposeAll(ss, rng, t)[i + 1] == (if d.coin < 0.5 then ss[i + 1] else ss[i + 1].(position := sup))
  {
    SuperposeAllAt(ss, rng, t, i);
    SuperposeAllAt(ss, rng, t, i + 1);
    SuperposedPair(ss, i, QuantumDraws(rng, t));
  }

  /** One pair of the superposition loop, for a target pass `ts` of an
      original swarm `ss`: if the particles before `i` are those of `ts` and
      the rest are untouched, giving the superposition `sup` to the particle
      of pair `i / 2` that `ts` changes extends this to the particles before
      `i + 2`. */
  lemma SuperposeStep(ss: seq<Particle>, ts: seq<Particle>, i: nat, sup: seq<real>, coin: real, ps: seq<Particle>, qs: seq<Particle>)
    requires i + 1 < |ss| == |ts| == |ps|
    requires forall j :: 0 <= j < |ps| ==> ps[j] == if j < i then ts[j] else ss[j]
    requires ts[i] == (if coin < 0.5 then ss[i].(position := sup) else ss[i])
    requires ts[i + 1] == (if coin < 0.5 then ss[i + 1] else ss[i + 1].(position := sup))
    requires qs == if coin < 0.5 then ps[i := ps[i].(position := sup)] else ps[i + 1 := ps[i + 1].(position := sup)]
    ensures |qs| == |ss|
    ensures forall j :: 0 <= j < |qs| ==> qs[j] == if j < i + 2 then ts[j] else ss[j]
  {
  }

  /** A loop that rebuilds a swarm `ss` into `ts` one particle at a time keeps
      every particle before `i` as in `ts` and every other as in `ss`; storing
      `ts[i]` at `i` extends this to `i + 1`. */
  lemma PrefixUpdated(ss: seq<Particle>, ts: seq<Particle>, i: nat, ps: seq<Particle>, x: Particle)
    requires i < |ss| == |ts| == |ps|
    requires forall j :: 0 <= j < |ps| ==> ps[j] == if j < i then ts[j] else ss[j]
    requires x == ts[i]
    ensures forall j :: 0 <= j < |ps| ==> ps[i := x][j] == if j < i + 1 then ts[j] else ss[j]
  {
  }

  /** When such a loop ends with at most one particle left over, which `ts`
      leaves alone, the swarm is `ts`. */
  lemma PrefixDone(ss: seq<Particle>, ts: seq<Particle>, i: nat, ps: seq<Particle>)
    requires i <= |ss| <= i + 1 && |ss| == |ts| == |ps|
    requires forall j :: 0 <= j < |ps| ==> ps[j] == if j < i then ts[j] else ss[j]
    requires i < |ss| ==> ts[i] == ss[i]
    ensures ps == ts
  {
  }

  /** A last particle without a partner is left alone. */
  lemma SuperposeAllUnpaired(ss: seq<Particle>, rng: Rng, t: nat, i: nat)
    requires SwarmOk(ss) && WellFormed(rng) && i % 2 == 0 && i + 1 == |ss|
    ensures SuperposeAll(ss, rng, t)[i] == ss[i]
  {
    SuperposeAllAt(ss, rng, t, i);
  }

  // ---------------------------------------------------------------------------
  // Rounds and runs

  /** The swarm and the global best. */
  datatype SwarmState = SwarmState(particles: seq<Particle>, best: Option<Best>)

  /** Round `t` of the main loop of `optimize`: evaluation and global-best
      update, movement with the coefficients of round `t`, opposition-based
      learning on `particles[:nParticles // 4]` every 10th round, superposition
      every 5th round when enabled. Only evaluation touches the global best, so
      it never gets worse, and a round over a non-empty swarm always leaves one. */
  function RoundStep(s: SwarmState, t: nat, maxIterations: nat, nParticles: nat, f: seq<real> -> real, quantumEnhanced: bool, rng: Rng): (r: SwarmState)
    requires t < maxIterations && SwarmOk(s.particles) && BestInBox(s.best) && WellFormed(rng)
    ensures |r.particles| == |s.particles| && SwarmOk(r.particles) && BestInBox(r.best)
    ensures r.best == GlobalAfter(s.best, Positions(s.particles), f)
    ensures AtMost(FitnessOf(r.best), FitnessOf(s.best))
    ensures |s.particles| > 0 ==> r.best.Some?
  {
    var w := AdaptiveInertia(t, maxIterations);
    var c1 := AdaptiveCognitive(t, maxIterations);
    var c2 := AdaptiveSocial(t, maxIterations);
    EvaluateAllKeepsSwarm(s.particles, f);
    GlobalAfterInBox(s.best, s.particles, f);
    var evaluated := EvaluateAll(s.particles, f);
    var best := GlobalAfter(s.best, Positions(s.particles), f);
    assert |s.particles| > 0 ==> best.Some? && best.value.fitness <= f(Positions(s.particles)[0]);
    var moved := if best.Some? then MoveAll(evaluated, t, maxIterations, w, c1, c2, best.value.position, rng) else evaluated;
    var opposed := if t % 10 == 0 then OpposePrefix(moved, nParticles / 4, f) else moved;
    var superposed := if quantumEnhanced && t % 5 == 0 then SuperposeAll(opposed, rng, t) else opposed;
    SwarmState(superposed, best)
  }

  /** The state after the first `k` rounds. The global best never gets worse
      than the one the run started from, and exists after one round over a
      non-empty swarm. */
  function Run(s: SwarmState, k: nat, maxIterations: nat, nParticles: nat, f: seq<real> -> real, quantumEnhanced: bool, rng: Rng): (r: SwarmState)
    requires k <= maxIterations && SwarmOk(s.particles) && BestInBox(s.best) && WellFormed(rng)
    ensures |r.particles| == |s.particles| && SwarmOk(r.particles) && BestInBox(r.best)
    ensures AtMost(FitnessOf(r.best), FitnessOf(s.best))
    ensures k > 0 && |s.particles| > 0 ==> r.best.Some?
    decreases k
  {
    if k == 0 then s
    else
      var before := Run(s, k - 1, maxIterations, nParticles, f, quantumEnhanced, rng);
      var after := RoundStep(before, k - 1, maxIterations, nParticles, f, quantumEnhanced, rng);
      AtMostTransitive(FitnessOf(after.best), FitnessOf(before.best), FitnessOf(s.best));
      after
  }

  /** The global best only improves from round to round: after `k` rounds it is
      no worse than after `j <= k` rounds. */
  lemma {:induction false} RunMonotone(s: SwarmState, j: nat, k: nat, maxIterations: nat, nParticles: nat, f: seq<real> -> real, quantumEnhanced: bool, rng: Rng)
    requires j <= k <= maxIterations && SwarmOk(s.particles) && BestInBox(s.best) && WellFormed(rng)
    ensures AtMost(FitnessOf(Run(s, k, maxIterations, nParticles, f, quantumEnhanced, rng).best),
                   FitnessOf(Run(s, j, maxIterations, nParticles, f, quantumEnhanced, rng).best))
    decreases k
  {
    if j < k {
      RunMonotone(s, j, k - 1, maxIterations, nParticles, f, quantumEnhanced, rng);
      var mid := Run(s, k - 1, maxIterations, nParticles, f, quantumEnhanced, rng);
      var last := Run(s, k, maxIterations, nParticles, f, quantumEnhanced, rng);
      AtMostTransitive(FitnessOf(last.best), FitnessOf(mid.best), FitnessOf(Run(s, j, maxIterations, nParticles, f, quantumEnhanced, rng).best));
    }
  }

  /** When the run starts without a best or with one that is the objective's
      value of its own position, the final global best is the objective's value
      of its position too. A best carried over from another objective
      need not be (see Swarm.StaleBestExample). */
  lemma {:induction false} RunConsistent(s: SwarmState, k: nat, maxIterations: nat, nParticles: nat, f: seq<real> -> real, quantumEnhanced: bool, rng: Rng)
    requires k <= maxIterations && SwarmOk(s.particles) && BestInBox(s.best) && WellFormed(rng)
    requires Consistent(s.best, f)
    ensures Consistent(Run(s, k, maxIterations, nParticles, f, quantumEnhanced, rng).best, f)
    decreases k
  {
    if k > 0 {
      RunConsistent(s, k - 1, maxIterations, nParticles, f, quantumEnhanced, rng);
      var before := Run(s, k - 1, maxIterations, nParticles, f, quantumEnhanced, rng);
      GlobalAfterConsistent(before.best, Positions(before.particles), f);
    }
  }

  lemma AtMostTransitive(a: Option<real>, b: Option<real>, c: Option<real>)
    requires AtMost(a, b) && AtMost(b, c)
    ensures AtMost(a, c)
  {
  }

  /** The objective `optimize` minimises for a voyage. */
  function Objective(d: Haversine, start: Waypoint, dest: Waypoint, p: Priorities): seq<real> -> real
  {
    position => Fitness(d, start, dest, p, position)
  }

  // ---------------------------------------------------------------------------
  // Results

  /** The `scores` dictionary of a computed route. */
  datatype Scores = Scores(fuel: real, time: real, safety: real, overall: real)

  /** The dictionary `optimize` returns (ETA kept as whole hours). */
  datatype RouteResult = RouteResult(path: seq<Waypoint>, distance: real, etaHours: int, fuel: real, scores: Scores)

  /** Exceptions that end a run: `_generate_path(…, None)` when no global best
      exists, and `current_path[len // 3]` on an empty path. */
  datatype Crash = GlobalBestMissing | EmptyPath

  datatype Outcome = Optimized(route: RouteResult) | Crashed(reason: Crash)

  /** The route `optimize` reports for a global best `position` of fitness
      `fitness`: its path from `start` to `dest` and the metrics of that path. */
  function RouteFor(start: Waypoint, dest: Waypoint, p: Priorities, d: Haversine, position: seq<real>, fitness: real): (r: RouteResult)
    ensures |r.path| == |position| / 2 + 2 && r.path[0] == start && r.path[|r.path| - 1] == dest
    ensures InUnitBox(position) ==> forall k :: 0 < k < |r.path| - 1 ==>
      Between(r.path[k].lat, start.lat, dest.lat) && Between(r.path[k].lon, start.lon, dest.lon)
    ensures r.distance >= 0.0 && r.etaHours >= 0
    ensures 0.0 <= Weight(p, "fuel", 0.33) <= 1.0 ==> 0.35 * r.distance <= r.fuel <= 0.5 * r.distance
    ensures 0.0 <= r.scores.fuel <= 1.0 && r.scores.time <= 1.0 && 0.0 <= r.scores.safety <= 0.2
    ensures r.scores.overall + 10.0 * fitness == 100.0
  {
    var path := PathOf(start, dest, position);
    var distance := PathDistance(d, path);
    var r := RouteResult(path, distance, EstimateEtaHours(distance), EstimateFuel(distance, p),
                         Scores(FuelScore(d, path), TimeScore(d, path), SafetyScore(path), 100.0 - fitness * 10.0));
    if InUnitBox(position) then PathWithinSpan(start, dest, position); r else r
  }

  /** A route planned without priorities, scored with the fitness of its own
      position, has an `overall` score of at least 100 - 10 * 0.728 = 92.72, and
      of at most 100 under a metric distance. */
  lemma DefaultOverallRange(start: Waypoint, dest: Waypoint, p: Priorities, d: Haversine, position: seq<real>)
    requires "fuel" !in p && "time" !in p && "safety" !in p
    ensures var r := RouteFor(start, dest, p, d, position, Fitness(d, start, dest, p, position));
      92.72 <= r.scores.overall && (Metric(d) ==> r.scores.overall <= 100.0)
  {
    DefaultFitnessRange(d, start, dest, p, position);
  }

  /** Start, destination and priorities that `reoptimize` hands to `optimize`. */
  datatype Replan = Replan(start: Waypoint, dest: Waypoint, priorities: Priorities)

  /** `reoptimize`'s choices: fuel and time weigh 0.3 each and safety
      0.4 + (wave/10 + wind/50)/2; the run restarts at the waypoint a third of
      the way along the current path and keeps its last waypoint as destination.
      An empty path has no such waypoint (Python raises IndexError). */
  function ReplanOf(currentPath: seq<Waypoint>, waveHeight: real, windSpeed: real): (r: Option<Replan>)
    ensures r.None? <==> currentPath == []
    ensures r.Some? ==> r.value.start == currentPath[|currentPath| / 3]
    ensures r.Some? ==> r.value.dest == currentPath[|currentPath| - 1]
    ensures r.Some? ==> r.value.priorities.Keys == {"fuel", "time", "safety"}
    ensures r.Some? ==> Weight(r.value.priorities, "fuel", 0.33) == 0.3 && Weight(r.value.priorities, "time", 0.33) == 0.3
    ensures r.Some? ==> Weight(r.value.priorities, "safety", 0.34) == 0.4 + (waveHeight / 10.0 + windSpeed / 50.0) / 2.0
  {
    if currentPath == [] then None
    else
      var waveRisk := waveHeight / 10.0;
      var windRisk := windSpeed / 50.0;
      var priorities := map["fuel" := 0.3, "time" := 0.3, "safety" := 0.4 + (waveRisk + windRisk) / 2.0];
      Some(Replan(currentPath[|currentPath| / 3], currentPath[|currentPath| - 1], priorities))
  }

  /** Fuel per nautical mile of a re-planned route: 0.5 t reduced by 30% of the
      fixed fuel weight 0.3. */
  const ReplanFuelRate: real := 0.455

  /** The re-planning weights are not normalised: with any wave or wind they sum
      to more than 1, and the safety weight is at least 0.4. */
  lemma ReplanWeightsExceedOne(currentPath: seq<Waypoint>, waveHeight: real, windSpeed: real)
    requires currentPath != [] && waveHeight >= 0.0 && windSpeed >= 0.0
    ensures var p := ReplanOf(currentPath, waveHeight, windSpeed).value.priorities;
      p["safety"] >= 0.4 &&
      (waveHeight > 0.0 || windSpeed > 0.0 ==> p["fuel"] + p["time"] + p["safety"] > 1.0)
  {
  }

  /** A route `optimize` produced has 12 waypoints, so re-planning restarts from
      its fifth waypoint (index 4) and keeps its twelfth as destination. */
  lemma ReplanOfComputedRoute(start: Waypoint, dest: Waypoint, position: seq<real>, waveHeight: real, windSpeed: real)
    requires |position| == PositionLength
    ensures var path := PathOf(start, dest, position);
      |path| == 12 && ReplanOf(path, waveHeight, windSpeed).Some? &&
      ReplanOf(path, waveHeight, windSpeed).value.start == path[4] &&
      ReplanOf(path, waveHeight, windSpeed).value.dest == dest
  {
  }

  // ---------------------------------------------------------------------------
  // The optimizer object

  /** The `HACOPSO` object: swarm size and iteration budget, the swarm (the
      `Particle` records as values), and the global best, which persists from
      one `optimize` call to the next. */
  class Optimizer {
    const nParticles: nat
    const maxIterations: nat
    var particles: seq<Particle>
    var globalBestPosition: Option<seq<real>>
    var globalBestFitness: Option<real>

    predicate Valid()
      reads this
    {
      SwarmOk(particles) && BestOk(globalBestPosition, globalBestFitness)
    }

    /** The global best as one value. */
    function GlobalBest(): Option<Best>
      reads this
    {
      BestOf(globalBestPosition, globalBestFitness)
    }

    /** The swarm and the global best as one value. */
    function State(): SwarmState
      reads this
    {
      SwarmState(particles, GlobalBest())
    }

    /** `HACOPSO(n_particles, max_iterations)`: an empty swarm and no global best. */
    constructor (nParticles: nat, maxIterations: nat)
      ensures this.nParticles == nParticles && this.maxIterations == maxIterations
      ensures particles == [] && globalBestPosition == None && globalBestFitness == None
      ensures Valid()
    {
      this.nParticles := nParticles;
      this.maxIterations := maxIterations;
      particles := [];
      globalBestPosition := None;
      globalBestFitness := None;
    }

    /** `_initialize_swarm`: a fresh swarm of `n_particles` particles. The
        global best is left as it is. */
    method InitializeSwarm(rng: Rng)
      requires Valid() && WellFormed(rng)
      modifies this
      ensures Valid() && particles == InitialSwarm(rng, nParticles)
      ensures globalBestPosition == old(globalBestPosition) && globalBestFitness == old(globalBestFitness)
    {
      ghost var target := InitialSwarm(rng, nParticles);
      particles := [];
      for k := 0 to nParticles
        invariant |particles| == k && forall i :: 0 <= i < k ==> particles[i] == target[i]
        invariant globalBestPosition == old(globalBestPosition) && globalBestFitness == old(globalBestFitness)
      {
        var position := rng.initPosition(k);
        var velocity := Scale(rng.initVelocity(k), 0.1);
        particles := particles + [Particle(position, velocity, position, None, None)];
      }
      assert particles == target;
    }

    /** The evaluation loop of `optimize`: each particle in turn gets its fresh
        fitness and personal best, and the global best is updated in the same
        order. */
    method EvaluatePass(f: seq<real> -> real)
      requires Valid()
      modifies this
      ensures Valid()
      ensures particles == EvaluateAll(old(particles), f)
      ensures GlobalBest() == GlobalAfter(old(GlobalBest()), Positions(old(particles)), f)
    {
      ghost var s0 := particles;
      ghost var g0 := GlobalBest();
      ghost var ps := Positions(s0);
      ghost var ts := EvaluateAll(s0, f);
      var i := 0;
      while i < |particles|
        invariant 0 <= i <= |particles| == |s0|
        invariant forall j :: 0 <= j < |particles| ==> particles[j] == if j < i then ts[j] else s0[j]
        invariant BestOk(globalBestPosition, globalBestFitness)
        invariant BestOf(globalBestPosition, globalBestFitness) == GlobalAfter(g0, ps[..i], f)
      {
        var particle := particles[i];
        assert particle == s0[i];
        EvaluateAllAt(s0, f, i);
        var fit := f(particle.position);
        particle := particle.(fitness := Some(fit));
        if Below(fit, particle.bestFitness) {
          particle := particle.(bestPosition := particle.position, bestFitness := Some(fit));
        }
        assert particle == ts[i];
        PrefixUpdated(s0, ts, i, particles, particle);
        GlobalBestStep(g0, ps, i, f, globalBestPosition, globalBestFitness);
        particles := particles[i := particle];
        if Below(fit, globalBestFitness) {
          globalBestPosition := Some(particle.position);
          globalBestFitness := Some(fit);
        }
        i := i + 1;
      }
      assert ps[..i] == ps;
      PrefixDone(s0, ts, i, particles);
      EvaluateAllKeepsSwarm(s0, f);
    }

    /** The velocity and position loop of `optimize` in iteration `t`, with the
        coefficients of that iteration: every particle moves by its own draws
        towards its personal best and the global best. */
    method MovePass(t: nat, w: real, c1: real, c2: real, rng: Rng)
      requires Valid() && WellFormed(rng) && maxIterations > 0
      requires particles != [] ==> globalBestPosition.Some?
      modifies this
      ensures Valid()
      ensures globalBestPosition == old(globalBestPosition) && globalBestFitness == old(globalBestFitness)
      ensures old(particles) == [] ==> particles == []
      ensures old(particles) != [] ==>
        particles == MoveAll(old(particles), t, maxIterations, w, c1, c2, globalBestPosition.value, rng)
    {
      ghost var s0 := particles;
      for i := 0 to |particles|
        invariant |particles| == |s0|
        invariant globalBestPosition == old(globalBestPosition) && globalBestFitness == old(globalBestFitness)
        invariant forall j :: 0 <= j < i ==>
          particles[j] == MoveWith(s0[j], t, maxIterations, w, c1, c2, globalBestPosition.value, rng.move(t, j))
        invariant forall j :: i <= j < |particles| ==> particles[j] == s0[j]
      {
        var particle := particles[i];
        var d := rng.move(t, i);
        var chaos := ChaosPerturbation(t, maxIterations, d.chaosSeed, d.noise);
        var next := Move(particle, w, c1, c2, globalBestPosition.value, d.r1, d.r2, chaos);
        particles := particles[i := next];
      }
      if s0 != [] {
        ghost var ts := MoveAll(s0, t, maxIterations, w, c1, c2, globalBestPosition.value, rng);
        forall j | 0 <= j < |s0|
          ensures particles[j] == ts[j]
        {
          MoveAllAt(s0, t, maxIterations, w, c1, c2, globalBestPosition.value, rng, j);
        }
        assert particles == ts;
      } else {
        assert particles == [];
      }
    }

    /** `_opposition_based_learning`: only `particles[:n_particles // 4]` are
        visited; each takes its opposite position when that scores strictly
        better than its stored fitness. The global best is not touched. */
    method OppositionPass(f: seq<real> -> real)
      requires Valid()
      modifies this
      ensures Valid()
      ensures globalBestPosition == old(globalBestPosition) && globalBestFitness == old(globalBestFitness)
      ensures particles == OpposePrefix(old(particles), nParticles / 4, f)
    {
      ghost var s0 := particles;
      ghost var ts := OpposePrefix(s0, nParticles / 4, f);
      var count := if nParticles / 4 <= |particles| then nParticles / 4 else |particles|;
      for i := 0 to count
        invariant |particles| == |s0|
        invariant globalBestPosition == old(globalBestPosition) && globalBestFitness == old(globalBestFitness)
        invariant forall j :: 0 <= j < i ==> particles[j] == Oppose(s0[j], f)
        invariant forall j :: i <= j < |particles| ==> particles[j] == s0[j]
      {
        var particle := particles[i];
        var opposite := Opposite(particle.position);
        var fit := f(opposite);
        if Below(fit, particle.fitness) {
          particles := particles[i := particle.(position := opposite, fitness := Some(fit))];
        }
      }
      forall j | 0 <= j < |s0|
        ensures particles[j] == ts[j]
      {
        OpposePrefixAt(s0, nParticles / 4, f, j);
      }
      assert particles == ts;
    }

    /** `_quantum_enhancement` in iteration `t`: for each pair (0, 1), (2, 3), …
        one of the two takes the superposition of both positions. */
    method QuantumPass(t: nat, rng: Rng)
      requires Valid() && WellFormed(rng)
      modifies this
      ensures Valid()
      ensures globalBestPosition == old(globalBestPosition) && globalBestFitness == old(globalBestFitness)
      ensures particles == SuperposeAll(old(particles), rng, t)
    {
      ghost var s0 := particles;
      ghost var ts := SuperposeAll(s0, rng, t);
      var i := 0;
      while i + 1 < |particles|
        invariant 0 <= i <= |particles| == |s0| && i % 2 == 0
        invariant globalBestPosition == old(globalBestPosition) && globalBestFitness == old(globalBestFitness)
        invariant forall j :: 0 <= j < |particles| ==> particles[j] == if j < i then ts[j] else s0[j]
      {
        var first, second := particles[i], particles[i + 1];
        var d := rng.quantum(t, i / 2);
        var superposition := Superposition(first.position, second.position, d.alpha);
        SuperposeAllPair(s0, rng, t, i);
        ghost var before := particles;
        if d.coin < 0.5 {
          particles := particles[i := first.(position := superposition)];
        } else {
          particles := particles[i + 1 := second.(position := superposition)];
        }
        SuperposeStep(s0, ts, i, superposition, d.coin, before, particles);
        i := i + 2;
      }
      if i < |s0| {
        SuperposeAllUnpaired(s0, rng, t, i);
      }
      PrefixDone(s0, ts, i, particles);
    }

    /** Round `t` of the main loop of `optimize`, in place. */
    method Round(t: nat, f: seq<real> -> real, quantumEnhanced: bool, rng: Rng)
      requires Valid() && WellFormed(rng) && t < maxIterations
      modifies this
      ensures Valid()
      ensures State() == RoundStep(old(State()), t, maxIterations, nParticles, f, quantumEnhanced, rng)
    {
      var w := AdaptiveInertia(t, maxIterations);
      var c1 := AdaptiveCognitive(t, maxIterations);
      var c2 := AdaptiveSocial(t, maxIterations);
      EvaluatePass(f);
      assert particles != [] ==> globalBestPosition.Some? by {
        assert Positions(old(particles)) != [] ==> GlobalBest().Some? && GlobalBest().value.fitness <= f(Positions(old(particles))[0]);
      }
      MovePass(t, w, c1, c2, rng);
      if t % 10 == 0 {
        OppositionPass(f);
      }
      if quantumEnhanced && t % 5 == 0 {
        QuantumPass(t, rng);
      }
    }

    /** `optimize`: a fresh swarm, then `max_iterations` rounds, and the route
        of the global best. The final swarm and global best are those of the
        specification `Run`, which starts from the global best the previous call
        left; the global best never gets worse than that one. */
    method Optimize(start: Waypoint, dest: Waypoint, priorities: Priorities, quantumEnhanced: bool, d: Haversine, rng: Rng)
      returns (outcome: Outcome)
      requires Valid() && WellFormed(rng)
      modifies this
      ensures Valid()
      ensures State() == Run(SwarmState(InitialSwarm(rng, nParticles), old(GlobalBest())), maxIterations,
                             maxIterations, nParticles, Objective(d, start, dest, priorities), quantumEnhanced, rng)
      ensures AtMost(globalBestFitness, old(globalBestFitness))
      ensures outcome.Optimized? <==> globalBestPosition.Some?
      ensures nParticles > 0 && maxIterations > 0 ==> outcome.Optimized?
      ensures outcome.Optimized? ==>
        outcome.route == RouteFor(start, dest, priorities, d, globalBestPosition.value, globalBestFitness.value)
    {
      InitializeSwarm(rng);
      ghost var s0 := State();
      var fitness := Objective(d, start, dest, priorities);
      for iteration := 0 to maxIterations
        invariant Valid()
        invariant State() == Run(s0, iteration, maxIterations, nParticles, fitness, quantumEnhanced, rng)
      {
        Round(iteration, fitness, quantumEnhanced, rng);
      }
      outcome := Report(start, dest, priorities, d);
    }

    /** The end of `optimize`: the path, distance, ETA, fuel and scores of the
        global best; without a global best `_generate_path` fails. */
    method Report(start: Waypoint, dest: Waypoint, priorities: Priorities, d: Haversine) returns (outcome: Outcome)
      requires Valid()
      ensures outcome.Optimized? <==> globalBestPosition.Some?
      ensures outcome.Optimized? ==>
        outcome.route == RouteFor(start, dest, priorities, d, globalBestPosition.value, globalBestFitness.value)
    {
      if globalBestPosition.None? {
        outcome := Crashed(GlobalBestMissing);
        return;
      }
      var position := globalBestPosition.value;
      var path := GeneratePath(start, dest, position);
      var distance := CalculateDistance(d, path);
      var eta := EstimateEtaHours(distance);
      var fuel := EstimateFuel(distance, priorities);
      var safety := ComputeSafetyScore(path);
      var scores := Scores(FuelScore(d, path), TimeScore(d, path), safety, 100.0 - globalBestFitness.value * 10.0);
      outcome := Optimized(RouteResult(path, distance, eta, fuel, scores));
    }

    /** `reoptimize`: re-plan from a third of the way along `currentPath` to its
        end with safety-heavy priorities from the wave height and wind speed,
        by a full `optimize` run without superposition. */
    method Reoptimize(currentPath: seq<Waypoint>, waveHeight: real, windSpeed: real, d: Haversine, rng: Rng)
      returns (outcome: Outcome)
      requires Valid() && WellFormed(rng)
      modifies this
      ensures Valid()
      ensures currentPath == [] ==> outcome == Crashed(EmptyPath) && unchanged(this)
      ensures currentPath != [] ==> (outcome.Optimized? <==> globalBestPosition.Some?)
      ensures forall plan | ReplanOf(currentPath, waveHeight, windSpeed) == Some(plan) ::
        State() == Run(SwarmState(InitialSwarm(rng, nParticles), old(GlobalBest())), maxIterations,
                       maxIterations, nParticles, Objective(d, plan.start, plan.dest, plan.priorities), false, rng) &&
        (outcome.Optimized? ==>
          outcome.route == RouteFor(plan.start, plan.dest, plan.priorities, d, globalBestPosition.value, globalBestFitness.value))
      ensures outcome.Optimized? ==>
        var path := outcome.route.path;
        currentPath != [] && |path| >= 2 && path[0] == currentPath[|currentPath| / 3] && path[|path| - 1] == currentPath[|currentPath| - 1]
      ensures outcome.Optimized? ==>
        var r := outcome.route;
        r.distance == PathDistance(d, r.path) && r.etaHours == EstimateEtaHours(r.distance) && r.fuel == ReplanFuelRate * r.distance
      ensures currentPath != [] && nParticles > 0 && maxIterations > 0 ==> outcome.Optimized?
      ensures AtMost(globalBestFitness, old(globalBestFitness))
    {
      var plan := ReplanOf(currentPath, waveHeight, windSpeed);
      if plan.None? {
        outcome := Crashed(EmptyPath);
        return;
      }
      outcome := Optimize(plan.value.start, plan.value.dest, plan.value.priorities, false, d, rng);
    }
  }
}
