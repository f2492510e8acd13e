/** The value-level rules of the HACOPSO swarm (backend/hacopso.py): the
    adaptive coefficient schedules, the chaos perturbation, boundary handling,
    and what one evaluation, move, opposition or superposition step does to a
    particle. The classes in module Hacopso apply these rules in place. */
module Swarm {

  import opened Wrappers
  import opened Geo
  import Objectives

  // ---------------------------------------------------------------------------
  // Adaptive schedules (`_adaptive_inertia`, `_adaptive_cognitive`, `_adaptive_social`)

  const InertiaMax: real := 0.9
  const InertiaMin: real := 0.4
  const CognitiveMax: real := 2.5
  const CognitiveMin: real := 1.5
  const SocialMax: real := 2.5
  const SocialMin: real := 1.5

  /** `k * iteration / maxIterations` lies in [0, k] while 0 <= iteration <= maxIterations. */
  lemma ScaledProgress(k: real, iteration: int, maxIterations: int)
    requires k >= 0.0 && maxIterations > 0 && 0 <= iteration <= maxIterations
    ensures 0.0 <= k * (iteration as real) / (maxIterations as real) <= k
    ensures k > 0.0 && iteration < maxIterations ==> k * (iteration as real) / (maxIterations as real) < k
  {
    var m := maxIterations as real;
    var x := k * (iteration as real);
    Objectives.ProductNonNegative(k, iteration as real);
    Objectives.WeightedAtMost(k, iteration as real, m);
    Objectives.QuotientAtMost(x, m, k);
    assert x / m >= 0.0 by {
      Objectives.NonNegativeFactor(x / m, m);
    }
    if k > 0.0 && iteration < maxIterations {
      assert (x / m) * m == x;
      assert k * m - x == k * (m - iteration as real);
    }
  }

  /** `k * i / m <= k * j / m` for `i <= j`, a non-negative `k` and `m > 0`. */
  lemma ProgressMonotone(k: real, i: int, j: int, maxIterations: int)
    requires k >= 0.0 && maxIterations > 0 && i <= j
    ensures k * (i as real) / (maxIterations as real) <= k * (j as real) / (maxIterations as real)
  {
    var m := maxIterations as real;
    Objectives.WeightedAtMost(k, i as real, j as real);
    var d := k * (j as real) / m - k * (i as real) / m;
    assert d * m == k * (j as real) - k * (i as real);
    Objectives.NonNegativeFactor(d, m);
  }

  /** `_adaptive_inertia`: `w` decays linearly from 0.9 to 0.4 over the run.
      Python divides by `max_iterations`, so a zero budget raises. */
  function AdaptiveInertia(iteration: int, maxIterations: int): (w: real)
    requires maxIterations > 0
    ensures 0 <= iteration <= maxIterations ==> InertiaMin <= w <= InertiaMax
    ensures iteration == 0 ==> w == InertiaMax
    ensures iteration == maxIterations ==> w == InertiaMin
    ensures 0 <= iteration < maxIterations ==> InertiaMin < w
  {
    if 0 <= iteration <= maxIterations then
      ScaledProgress(InertiaMax - InertiaMin, iteration, maxIterations);
      InertiaMax - (InertiaMax - InertiaMin) * (iteration as real) / (maxIterations as real)
    else
      InertiaMax - (InertiaMax - InertiaMin) * (iteration as real) / (maxIterations as real)
  }

  /** `_adaptive_cognitive`: `c1` decays linearly from 2.5 to 1.5 over the run. */
  function AdaptiveCognitive(iteration: int, maxIterations: int): (c1: real)
    requires maxIterations > 0
    ensures 0 <= iteration <= maxIterations ==> CognitiveMin <= c1 <= CognitiveMax
    ensures iteration == 0 ==> c1 == CognitiveMax
    ensures iteration == maxIterations ==> c1 == CognitiveMin
    ensures 0 <= iteration < maxIterations ==> CognitiveMin < c1
  {
    if 0 <= iteration <= maxIterations then
      ScaledProgress(CognitiveMax - CognitiveMin, iteration, maxIterations);
      CognitiveMax - (CognitiveMax - CognitiveMin) * (iteration as real) / (maxIterations as real)
    else
      CognitiveMax - (CognitiveMax - CognitiveMin) * (iteration as real) / (maxIterations as real)
  }

  /** `_adaptive_social`: `c2` grows linearly from 1.5 to 2.5 over the run. */
  function AdaptiveSocial(iteration: int, maxIterations: int): (c2: real)
    requires maxIterations > 0
    ensures 0 <= iteration <= maxIterations ==> SocialMin <= c2 <= SocialMax
    ensures iteration == 0 ==> c2 == SocialMin
    ensures iteration == maxIterations ==> c2 == SocialMax
    ensures 0 <= iteration < maxIterations ==> c2 < SocialMax
  {
    if 0 <= iteration <= maxIterations then
      ScaledProgress(SocialMax - SocialMin, iteration, maxIterations);
      SocialMin + (SocialMax - SocialMin) * (iteration as real) / (maxIterations as real)
    else
      SocialMin + (SocialMax - SocialMin) * (iteration as real) / (maxIterations as real)
  }

  /** Later iterations never have a larger inertia or cognitive coefficient,
      nor a smaller social coefficient. */
  lemma SchedulesMonotone(i: int, j: int, maxIterations: int)
    requires maxIterations > 0 && i <= j
    ensures AdaptiveInertia(j, maxIterations) <= AdaptiveInertia(i, maxIterations)
    ensures AdaptiveCognitive(j, maxIterations) <= AdaptiveCognitive(i, maxIterations)
    ensures AdaptiveSocial(i, maxIterations) <= AdaptiveSocial(j, maxIterations)
  {
    ProgressMonotone(InertiaMax - InertiaMin, i, j, maxIterations);
    ProgressMonotone(CognitiveMax - CognitiveMin, i, j, maxIterations);
    ProgressMonotone(SocialMax - SocialMin, i, j, maxIterations);
  }


  // ---------------------------------------------------------------------------
  // Chaos perturbation (`chaos_map`, `_chaos_perturbation`)

  const ChaosFactor: real := 0.1

  /** The logistic map `4 x (1 - x)`, which maps [0, 1] into itself. */
  function ChaosMap(x: real): (y: real)
    ensures 0.0 <= x <= 1.0 ==> 0.0 <= y <= 1.0
  {
    assert 4.0 * x * (1.0 - x) == 1.0 - (2.0 * x - 1.0) * (2.0 * x - 1.0);
    if 0.0 <= x <= 1.0 then
      SquareAtMostOne(2.0 * x - 1.0);
      4.0 * x * (1.0 - x)
    else
      4.0 * x * (1.0 - x)
  }

  lemma SquareAtMostOne(e: real)
    requires -1.0 <= e <= 1.0
    ensures 0.0 <= e * e <= 1.0
  {
    if e >= 0.0 {
      Geo.ScaledSpan(e, e);
    } else {
      var m := -e;
      Geo.ScaledSpan(m, m);
      assert m * m == e * e;
    }
  }

  /** The magnitude `0.1 (1 - iteration / maxIterations)`, which shrinks to 0. */
  function ChaosMagnitude(iteration: int, maxIterations: int): (m: real)
    requires maxIterations > 0
    ensures 0 <= iteration <= maxIterations ==> 0.0 <= m <= ChaosFactor
    ensures iteration == maxIterations ==> m == 0.0
    ensures 0 <= iteration < maxIterations ==> 0.0 < m
  {
    if 0 <= iteration <= maxIterations then
      ScaledProgress(1.0, iteration, maxIterations);
      assert 1.0 * (iteration as real) / (maxIterations as real) == (iteration as real) / (maxIterations as real);
      ChaosFactor * (1.0 - (iteration as real) / (maxIterations as real))
    else
      ChaosFactor * (1.0 - (iteration as real) / (maxIterations as real))
  }

  /** The last iteration `optimize` runs is `maxIterations - 1`, not
      `maxIterations`: there the schedules stop one step short of their end
      values, and the chaos magnitude is still positive. */
  lemma {:induction false} LastIterationValues(maxIterations: int)
    requires maxIterations > 0
    ensures var m := maxIterations as real;
      AdaptiveInertia(maxIterations - 1, maxIterations) == InertiaMin + (InertiaMax - InertiaMin) / m &&
      AdaptiveCognitive(maxIterations - 1, maxIterations) == CognitiveMin + (CognitiveMax - CognitiveMin) / m &&
      AdaptiveSocial(maxIterations - 1, maxIterations) == SocialMax - (SocialMax - SocialMin) / m &&
      ChaosMagnitude(maxIterations - 1, maxIterations) == ChaosFactor / m &&
      ChaosMagnitude(maxIterations - 1, maxIterations) > 0.0
  {
    var m := maxIterations as real;
    var last := (maxIterations - 1) as real;
    assert last / m == 1.0 - 1.0 / m;
    assert (InertiaMax - InertiaMin) * last / m == (InertiaMax - InertiaMin) - (InertiaMax - InertiaMin) / m;
    assert (CognitiveMax - CognitiveMin) * last / m == (CognitiveMax - CognitiveMin) - (CognitiveMax - CognitiveMin) / m;
    assert (SocialMax - SocialMin) * last / m == (SocialMax - SocialMin) - (SocialMax - SocialMin) / m;
  }

  /** `_chaos_perturbation`: the Gaussian draws `noise` scaled by the logistic
      map of the uniform draw `seed` and by the shrinking magnitude. */
  function ChaosPerturbation(iteration: int, maxIterations: int, seed: real, noise: seq<real>): (c: seq<real>)
    requires maxIterations > 0
    ensures |c| == |noise|
    ensures iteration == maxIterations ==> forall i :: 0 <= i < |c| ==> c[i] == 0.0
  {
    var chaos, magnitude := ChaosMap(seed), ChaosMagnitude(iteration, maxIterations);
    seq(|noise|, i requires 0 <= i < |noise| => noise[i] * chaos * magnitude)
  }

  // ---------------------------------------------------------------------------
  // Vectors (numpy arrays of one particle)

  function Add(a: seq<real>, b: seq<real>): (c: seq<real>)
    requires |a| == |b|
    ensures |c| == |a|
  {
    seq(|a|, i requires 0 <= i < |a| => a[i] + b[i])
  }

  function Sub(a: seq<real>, b: seq<real>): (c: seq<real>)
    requires |a| == |b|
    ensures |c| == |a|
  {
    seq(|a|, i requires 0 <= i < |a| => a[i] - b[i])
  }

  function Scale(a: seq<real>, k: real): (c: seq<real>)
    ensures |c| == |a|
  {
    seq(|a|, i requires 0 <= i < |a| => k * a[i])
  }

  function Clip(x: real): real
  {
    if x < 0.0 then 0.0 else if x > 1.0 then 1.0 else x
  }

  /** `_handle_boundaries`: `np.clip(position, 0.0, 1.0)`, the projection onto
      the unit box, which leaves a position already inside it unchanged. */
  function HandleBoundaries(position: seq<real>): (r: seq<real>)
    ensures |r| == |position|
    ensures InUnitBox(r)
    ensures InUnitBox(position) ==> r == position
    ensures forall i :: 0 <= i < |r| && 0.0 <= position[i] <= 1.0 ==> r[i] == position[i]
  {
    seq(|position|, i requires 0 <= i < |position| => Clip(position[i]))
  }

  /** Clipping twice is clipping once. */
  lemma HandleBoundariesIdempotent(position: seq<real>)
    ensures HandleBoundaries(HandleBoundaries(position)) == HandleBoundaries(position)
  {
  }

  /** The opposite position `1.0 - position` of opposition-based learning: the
      mirror image in the unit box, an involution that keeps the box. */
  function Opposite(position: seq<real>): (r: seq<real>)
    ensures |r| == |position|
    ensures InUnitBox(position) ==> InUnitBox(r)
    ensures forall i :: 0 <= i < |r| ==> r[i] + position[i] == 1.0
  {
    seq(|position|, i requires 0 <= i < |position| => 1.0 - position[i])
  }

  lemma OppositeInvolution(position: seq<real>)
    ensures Opposite(Opposite(position)) == position
  {
  }

  // ---------------------------------------------------------------------------
  // Particles: states and the comparisons against `float('inf')`

  /** The fields of a `Particle`; `None` stands for `float('inf')`. */
  datatype Particle = Particle(
    position: seq<real>,
    velocity: seq<real>,
    bestPosition: seq<real>,
    bestFitness: Option<real>,
    fitness: Option<real>)

  /** `x < bound`, where a missing bound is `float('inf')`. */
  predicate Below(x: real, bound: Option<real>)
  {
    bound.None? || x < bound.value
  }

  /** `a <= b` on values that may be `float('inf')`. */
  predicate AtMost(a: Option<real>, b: Option<real>)
  {
    b.None? || (a.Some? && a.value <= b.value)
  }

  /** All vectors of a particle have length `n`. */
  predicate Shaped(s: Particle, n: nat)
  {
    |s.position| == n && |s.velocity| == n && |s.bestPosition| == n
  }

  /** The particle's position and personal best lie in the unit box. */
  predicate Boxed(s: Particle)
  {
    InUnitBox(s.position) && InUnitBox(s.bestPosition)
  }

  /** The evaluation step of `optimize` for one particle: store the fresh
      fitness, and take the position as personal best when it is strictly better.
      Afterwards the personal best is no worse than before and no worse than the
      fresh fitness, and it is either the old one or the current position. */
  function Evaluate(s: Particle, fit: real): (t: Particle)
    ensures t.position == s.position && t.velocity == s.velocity && t.fitness == Some(fit)
    ensures AtMost(t.bestFitness, t.fitness) && AtMost(t.bestFitness, s.bestFitness)
    ensures (t.bestFitness, t.bestPosition) == (s.bestFitness, s.bestPosition) ||
            (t.bestFitness, t.bestPosition) == (Some(fit), s.position)
    ensures Below(fit, s.bestFitness) ==> t.bestFitness == Some(fit) && t.bestPosition == s.position
    ensures !Below(fit, s.bestFitness) ==> t.bestPosition == s.bestPosition && t.bestFitness == s.bestFitness
  {
    var stored := s.(fitness := Some(fit));
    if Below(fit, s.bestFitness) then stored.(bestPosition := s.position, bestFitness := Some(fit))
    else stored
  }

  /** The evaluation step applied to every particle of a swarm: each particle
      stays where it is, holds the objective's value at its own position, and
      has a personal best no worse than before and no worse than that value,
      which is either its old personal best or its current position. */
  function EvaluateAll(ss: seq<Particle>, f: seq<real> -> real): (ts: seq<Particle>)
    ensures |ts| == |ss|
    ensures forall i :: 0 <= i < |ts| ==>
      ts[i].position == ss[i].position && ts[i].velocity == ss[i].velocity &&
      ts[i].fitness == Some(f(ss[i].position)) &&
      AtMost(ts[i].bestFitness, ts[i].fitness) && AtMost(ts[i].bestFitness, ss[i].bestFitness) &&
      (ts[i].bestPosition == ss[i].bestPosition || ts[i].bestPosition == ss[i].position)
  {
    var ts := seq(|ss|, i requires 0 <= i < |ss| => Evaluate(ss[i], f(ss[i].position)));
    assert forall i :: 0 <= i < |ts| ==> ts[i] == Evaluate(ss[i], f(ss[i].position));
    ts
  }

  /** Particle `i` after the evaluation step. */
  lemma EvaluateAllAt(ss: seq<Particle>, f: seq<real> -> real, i: nat)
    requires i < |ss|
    ensures EvaluateAll(ss, f)[i] == Evaluate(ss[i], f(ss[i].position))
  {
  }

  function Positions(ss: seq<Particle>): (ps: seq<seq<real>>)
    ensures |ps| == |ss|
    ensures forall i :: 0 <= i < |ps| ==> ps[i] == ss[i].position
  {
    seq(|ss|, i requires 0 <= i < |ss| => ss[i].position)
  }

  // ---------------------------------------------------------------------------
  // The global best

  /** `global_best_fitness` together with `global_best_position`. */
  datatype Best = Best(fitness: real, position: seq<real>)

  function FitnessOf(g: Option<Best>): Option<real>
  {
    if g.Some? then Some(g.value.fitness) else None
  }

  /** The global-best updates of one evaluation pass, in particle order: a
      particle whose fitness is strictly below the best so far replaces it.
      The result is never worse than the best before the pass, is no worse than
      any fitness evaluated in the pass, and exists once the pass saw a particle. */
  function GlobalAfter(g: Option<Best>, positions: seq<seq<real>>, f: seq<real> -> real): (r: Option<Best>)
    ensures AtMost(FitnessOf(r), FitnessOf(g))
    ensures forall k :: 0 <= k < |positions| ==> r.Some? && r.value.fitness <= f(positions[k])
    decreases |positions|
  {
    if positions == [] then g
    else
      var before := GlobalAfter(g, positions[..|positions| - 1], f);
      var p := positions[|positions| - 1];
      if Below(f(p), FitnessOf(before)) then Some(Best(f(p), p)) else before
  }

  /** A pass over the first `i + 1` positions is the pass over the first `i`
      followed by the update for position `i` alone. */
  lemma GlobalAfterPrefix(g: Option<Best>, positions: seq<seq<real>>, i: nat, f: seq<real> -> real)
    requires i < |positions|
    ensures GlobalAfter(g, positions[..i + 1], f) == GlobalAfter(GlobalAfter(g, positions[..i], f), [positions[i]], f)
  {
    assert positions[..i + 1][..i] == positions[..i];
    assert [positions[i]][..0] == [];
  }

  /** The global best after a pass is the one from before it, or the position
      and fitness of a particle evaluated in the pass. */
  lemma {:induction false} GlobalBestComesFromPass(g: Option<Best>, positions: seq<seq<real>>, f: seq<real> -> real)
    ensures GlobalAfter(g, positions, f) == g ||
      exists k :: 0 <= k < |positions| && GlobalAfter(g, positions, f) == Some(Best(f(positions[k]), positions[k]))
    decreases |positions|
  {
    if positions != [] {
      var init := positions[..|positions| - 1];
      GlobalBestComesFromPass(g, init, f);
      if GlobalAfter(g, positions, f) != g && GlobalAfter(g, positions, f) == GlobalAfter(g, init, f) {
        var k :| 0 <= k < |init| && GlobalAfter(g, init, f) == Some(Best(f(init[k]), init[k]));
        assert init[k] == positions[k];
      }
    }
  }

  /** The global best's fitness is the fitness of its position under `f`. */
  predicate Consistent(g: Option<Best>, f: seq<real> -> real)
  {
    g.Some? ==> g.value.fitness == f(g.value.position)
  }

  /** A pass keeps a global best that agrees with the objective in agreement. */
  lemma {:induction false} GlobalAfterConsistent(g: Option<Best>, positions: seq<seq<real>>, f: seq<real> -> real)
    requires Consistent(g, f)
    ensures Consistent(GlobalAfter(g, positions, f), f)
    decreases |positions|
  {
    if positions != [] {
      GlobalAfterConsistent(g, positions[..|positions| - 1], f);
    }
  }

  /** A global best no fitness of the pass beats survives the pass unchanged.
      Since `_initialize_swarm` does not reset the global best, a best found in
      an earlier `optimize` call, for other endpoints and priorities, survives
      this way, and then lies about the current objective. */
  lemma {:induction false} CarriedBestSurvives(g: Option<Best>, positions: seq<seq<real>>, f: seq<real> -> real)
    requires g.Some? && forall k :: 0 <= k < |positions| ==> g.value.fitness <= f(positions[k])
    ensures GlobalAfter(g, positions, f) == g
    decreases |positions|
  {
    if positions != [] {
      CarriedBestSurvives(g, positions[..|positions| - 1], f);
    }
  }

  /** One concrete case: a carried best of fitness 0.1 outlives a pass in which
      every position scores 1.0, although its own position scores 1.0 too. */
  lemma StaleBestExample()
    ensures var f := (p: seq<real>) => 1.0;
      var stale := Some(Best(0.1, [0.5, 0.5]));
      GlobalAfter(stale, [[0.2, 0.8]], f) == stale && !Consistent(stale, f)
  {
    var f := (p: seq<real>) => 1.0;
    CarriedBestSurvives(Some(Best(0.1, [0.5, 0.5])), [[0.2, 0.8]], f);
  }

  // ---------------------------------------------------------------------------
  // Moving, opposition and superposition

  /** The uniform and Gaussian draws that one particle's move consumes:
      `r1, r2`, the chaos seed and the chaos noise vector. */
  datatype Draw = Draw(r1: real, r2: real, chaosSeed: real, noise: seq<real>)

  /** The velocity and position update of `optimize` for one particle, with
      inertia `w`, coefficients `c1, c2`, global best `g` and chaos vector `chaos`;
      the new position is clipped to the unit box. Bests and fitness are kept. */
  function Move(s: Particle, w: real, c1: real, c2: real, g: seq<real>, r1: real, r2: real, chaos: seq<real>): (t: Particle)
    requires Shaped(s, |s.position|) && |g| == |s.position| && |chaos| == |s.position|
    ensures Shaped(t, |s.position|) && InUnitBox(t.position)
    ensures t.bestPosition == s.bestPosition && t.bestFitness == s.bestFitness && t.fitness == s.fitness
    ensures t.position == HandleBoundaries(Add(s.position, t.velocity))
  {
    var inertia := Scale(s.velocity, w);
    var cognitive := Scale(Sub(s.bestPosition, s.position), c1 * r1);
    var social := Scale(Sub(g, s.position), c2 * r2);
    var velocity := Add(Add(Add(inertia, cognitive), social), chaos);
    s.(velocity := velocity, position := HandleBoundaries(Add(s.position, velocity)))
  }

  /** `_opposition_based_learning` for one particle: the opposite position
      replaces the position, with its fitness, only when that fitness is strictly
      below the stored one. The stored fitness never increases, the box is kept,
      and velocity and personal best are untouched. */
  function Oppose(s: Particle, f: seq<real> -> real): (t: Particle)
    ensures t.velocity == s.velocity && t.bestPosition == s.bestPosition && t.bestFitness == s.bestFitness
    ensures t == s || (t.position == Opposite(s.position) && t.fitness == Some(f(t.position)) && Below(f(t.position), s.fitness))
    ensures Below(f(Opposite(s.position)), s.fitness) ==>
      t == s.(position := Opposite(s.position), fitness := Some(f(Opposite(s.position))))
    ensures AtMost(t.fitness, s.fitness)
    ensures InUnitBox(s.position) ==> InUnitBox(t.position)
  {
    var opposite := Opposite(s.position);
    var fit := f(opposite);
    if Below(fit, s.fitness) then s.(position := opposite, fitness := Some(fit)) else s
  }

  /** An opposition step can leave a particle's fitness below its personal best:
      the personal best is not updated by it. */
  lemma OppositionBypassesPersonalBest()
    ensures var s := Particle([0.25], [0.0], [0.25], Some(0.5), Some(0.5));
      var t := Oppose(s, (p: seq<real>) => if p == [0.75] then 0.1 else 0.5);
      t.fitness == Some(0.1) && t.bestFitness == Some(0.5)
  {
    var s := Particle([0.25], [0.0], [0.25], Some(0.5), Some(0.5));
    assert Opposite(s.position) == [0.75];
  }

  /** A convex combination of two points of the unit box stays in it. */
  lemma ConvexInBox(x: real, y: real, alpha: real)
    requires 0.0 <= x <= 1.0 && 0.0 <= y <= 1.0 && 0.0 <= alpha <= 1.0
    ensures 0.0 <= alpha * x + (1.0 - alpha) * y <= 1.0
  {
    var beta := 1.0 - alpha;
    var p := alpha * x;
    var q := beta * y;
    Geo.ScaledSpan(alpha, x);
    Geo.ScaledSpan(beta, y);
    assert p <= alpha;
    assert q <= beta;
  }

  /** The superposition `alpha p1 + (1 - alpha) p2` of `_quantum_enhancement`. */
  function Superposition(p1: seq<real>, p2: seq<real>, alpha: real): (r: seq<real>)
    requires |p1| == |p2|
    ensures |r| == |p1|
    ensures InUnitBox(p1) && InUnitBox(p2) && 0.0 <= alpha <= 1.0 ==> InUnitBox(r)
  {
    var r := Add(Scale(p1, alpha), Scale(p2, 1.0 - alpha));
    assert InUnitBox(p1) && InUnitBox(p2) && 0.0 <= alpha <= 1.0 ==> InUnitBox(r) by {
      if InUnitBox(p1) && InUnitBox(p2) && 0.0 <= alpha <= 1.0 {
        forall i | 0 <= i < |r| ensures 0.0 <= r[i] <= 1.0 {
          ConvexInBox(p1[i], p2[i], alpha);
        }
      }
    }
    r
  }

  /** The two uniform draws `_quantum_enhancement` makes for one pair: the
      weight `alpha` of the superposition and the coin that picks which of the
      two particles takes it. */
  datatype QuantumDraw = QuantumDraw(alpha: real, coin: real)

  /** The state of particle `i` after the superposition pass over the pairs
      `(0, 1), (2, 3), …`; a last unpaired particle is left alone. */
  function Superposed(ss: seq<Particle>, i: nat, pair: nat -> QuantumDraw): (t: Particle)
    requires i < |ss| && forall k :: 0 <= k < |ss| ==> |ss[k].position| == |ss[0].position|
    ensures t.velocity == ss[i].velocity && t.bestPosition == ss[i].bestPosition
    ensures t.bestFitness == ss[i].bestFitness && t.fitness == ss[i].fitness
    ensures |t.position| == |ss[i].position|
    ensures t.position == ss[i].position ||
      (i % 2 == 0 && i + 1 < |ss| && t.position == Superposition(ss[i].position, ss[i + 1].position, pair(i / 2).alpha)) ||
      (i % 2 == 1 && t.position == Superposition(ss[i - 1].position, ss[i].position, pair(i / 2).alpha))
  {
    if i % 2 == 0 && i + 1 < |ss| then
      var d := pair(i / 2);
      if d.coin < 0.5 then ss[i].(position := Superposition(ss[i].position, ss[i + 1].position, d.alpha)) else ss[i]
    else if i % 2 == 1 then
      var d := pair(i / 2);
      if d.coin < 0.5 then ss[i] else ss[i].(position := Superposition(ss[i - 1].position, ss[i].position, d.alpha))
    else
      ss[i]
  }

  /** The two particles of pair `i / 2` after the superposition pass: the coin
      decides which of the two takes the superposition. */
  lemma SuperposedPair(ss: seq<Particle>, i: nat, pair: nat -> QuantumDraw)
    requires i % 2 == 0 && i + 1 < |ss| && forall k :: 0 <= k < |ss| ==> |ss[k].position| == |ss[0].position|
    ensures var d := pair(i / 2);
      var sup := Superposition(ss[i].position, ss[i + 1].position, d.alpha);
      Superposed(ss, i, pair) == (if d.coin < 0.5 then ss[i].(position := sup) else ss[i]) &&
      Superposed(ss, i + 1, pair) == (if d.coin < 0.5 then ss[i + 1] else ss[i + 1].(position := sup))
  {
    assert (i + 1) % 2 == 1 && (i + 1) / 2 == i / 2;
  }

  /** In each pair exactly one of the two particles takes the superposition. */
  lemma {:induction false} OneOfEachPairMoves(ss: seq<Particle>, j: nat, pair: nat -> QuantumDraw)
    requires 2 * j + 1 < |ss| && forall k :: 0 <= k < |ss| ==> |ss[k].position| == |ss[0].position|
    ensures var sup := Superposition(ss[2 * j].position, ss[2 * j + 1].position, pair(j).alpha);
      (Superposed(ss, 2 * j, pair).position == sup && Superposed(ss, 2 * j + 1, pair) == ss[2 * j + 1]) ||
      (Superposed(ss, 2 * j, pair) == ss[2 * j] && Superposed(ss, 2 * j + 1, pair).position == sup)
  {
    assert (2 * j) % 2 == 0 && (2 * j) / 2 == j;
    assert (2 * j + 1) % 2 == 1 && (2 * j + 1) / 2 == j;
  }

  /** The superposition pass keeps every position in the unit box. */
  lemma SuperposedInBox(ss: seq<Particle>, i: nat, pair: nat -> QuantumDraw)
    requires i < |ss| && forall k :: 0 <= k < |ss| ==> |ss[k].position| == |ss[0].position|
    requires forall k :: 0 <= k < |ss| ==> InUnitBox(ss[k].position)
    requires 0.0 <= pair(i / 2).alpha <= 1.0
    ensures InUnitBox(Superposed(ss, i, pair).position)
  {
  }
}
