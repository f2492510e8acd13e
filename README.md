# HACOPSO route optimizer and audit chain: a Dafny model

This project models the core of a maritime route-planning backend in Dafny 4.11. It has three parts.

- **The HACOPSO optimizer** (`backend/hacopso.py`). HACOPSO is a particle-swarm optimizer with adaptive coefficients, a chaos term, opposition-based learning and a "quantum" superposition step.
  - A particle's position vector in the unit box becomes a waypoint path between a start and a destination.
  - Each path is scored for fuel, time and safety, and weighted by the voyage priorities.
  - The swarm is evaluated, moved and perturbed for a fixed number of rounds.
  - `reoptimize` re-plans a route from a third of the way along it, with safety-heavy priorities that depend on the wave height and wind speed.
- **The hash-linked audit log** (`backend/main.py`).
  - `log_audit_entry` appends a row whose `prev_hash` is the hash of the newest row. The row's hash is SHA-256 (FIPS 180-4) and its signature HMAC-SHA256 (RFC 2104), both computed over the same concatenated string.
  - `verify_audit_chain` walks the rows in id order. It checks each link and each signature and reports the first failure.
- **The telemetry endpoint** (`backend/main.py`). `push_telemetry` stores a sample. When the waves are strictly higher than 4.5 m, `trigger_reoptimization` re-plans that sample's route and overwrites the stored path, distance, ETA and fuel estimate.

Modules:

| module | file | contents |
|---|---|---|
| `Wrappers` | wrappers.dfy | `Option` |
| `Geo` | geo.dfy | waypoints, `_generate_path`, `_calculate_distance` (the Haversine distance is a parameter) |
| `Objectives` | objectives.dfy | the three scores, `_estimate_fuel`, `_estimate_eta`, `_multi_objective_fitness` |
| `Swarm` | swarm.dfy | schedules, chaos term, vector arithmetic, boundary handling, opposition, superposition, and the per-particle and global-best rules |
| `Hacopso` | hacopso.dfy | the pure round-by-round specification (`RoundStep`, `Run`) and the `Optimizer` class, whose methods update the swarm and the global best in place |
| `AuditChain` | auditchain.dfy | the audit table as a `seq<Entry>`, the checks of `verify_audit_chain`, tamper lemmas, and the `AuditLog` class |
| `Api` | api.dfy | the `Backend` class with the route and telemetry tables, `TriggerReoptimization` and `PushTelemetry` |

External inputs become parameters:
- Random draws: `Hacopso.Rng`, an oracle from indices to draws. `WellFormed` states only the ranges and shapes numpy guarantees.
- The Haversine distance: `Geo.Haversine`, any non-negative function of two waypoints.
- SHA-256 and HMAC: `AuditChain.Crypto`, uninterpreted functions on strings.
- The `AUDIT_SECRET` environment variable: an `Option<string>`.
- The JSON text `json.dumps` produces: a given string.
- The sample timestamp: a given string.

`float('inf')` bests are `None`.

### Behaviour of the code worth knowing

- Opposition-based learning visits `particles[:n_particles // 4]`, the first quarter of the swarm in storage order. It compares the opposite position's fitness against the fitness stored at this iteration's evaluation, before the move that followed it, and it updates neither the personal best nor the global best (`Swarm.OppositionBypassesPersonalBest`).
- `_initialize_swarm` never resets the global best. A later `optimize` or `reoptimize` call starts from the best the previous call left, even after a change of objective (`Swarm.CarriedBestSurvives`, `Swarm.StaleBestExample`). `Hacopso.Optimizer.Optimize` states this in its `Run` postcondition.
- `optimize` runs iterations `0 … max_iterations - 1`. At the last of them the inertia and the coefficients stop one step short of 0.4, 1.5 and 2.5, and the chaos magnitude is still `0.1 / max_iterations` (`Swarm.LastIterationValues`).
- `push_telemetry` writes no audit entry; only `log_audit_entry` appends to the audit table.
- `verify_audit_chain` never recomputes the stored hash (`AuditChain.TamperedHash`), and it never checks the first row's `prev_hash` (`AuditChain.TamperedFields`).
- Hash and signature cover the same concatenated string. Because that string has no separators, moving characters between the action and the data goes undetected (`AuditChain.ShiftedBoundaryUndetected`).

## Model

| member | source | states |
|---|---|---|
| Geo.PathOf | backend/hacopso.py:245-262 | the path has `len(position) // 2 + 2` waypoints, starts exactly at `start`, ends exactly at the destination, and waypoint `k` is control point `k - 1` |
| Geo.GeneratePath | backend/hacopso.py:245-262 | the loop builds exactly `PathOf` |
| Geo.PathWithinSpan | backend/hacopso.py:256-259 | with every position component in [0, 1], each intermediate waypoint's latitude lies between the start and destination latitudes, and likewise its longitude |
| Geo.PathDistance | backend/hacopso.py:264-269 | the summed leg length of a path is non-negative |
| Geo.CalculateDistance | backend/hacopso.py:264-269 | the loop accumulates exactly `PathDistance` |
| Geo.PathAtLeastDirect | backend/hacopso.py:264-269 | under a metric distance, a path is at least as long as the direct leg from its first to its last waypoint |
| Geo.DirectPathDistance | backend/hacopso.py:264-269 | a two-waypoint path is as long as its single leg |
| Objectives.FuelScore | backend/hacopso.py:285-289 | the fuel score is in [0, 1], and it is the distance over 5000 nm unless capped at 1 |
| Objectives.TimeScore | backend/hacopso.py:291-300 | the time score never exceeds 1, and it is never negative when the distance is a metric |
| Objectives.DirectTimeScore | backend/hacopso.py:291-300 | a single-leg path has no detour, so its time score is half its normalised length, capped at 1 |
| Objectives.WaypointHazard | backend/hacopso.py:308-315 | a waypoint adds 0, 0.1 or 0.2; 0.1 exactly in the band -10 ≤ lat ≤ 10 and 0.2 exactly when abs(lat) > 60 (the bands are disjoint) |
| Objectives.HazardTotal | backend/hacopso.py:306-315 | the accumulated hazard lies between 0 and 0.2 times the number of waypoints |
| Objectives.SafetyScore | backend/hacopso.py:302-317 | the safety score lies in [0, 0.2] |
| Objectives.ComputeSafetyScore | backend/hacopso.py:302-317 | the accumulating loop returns exactly `SafetyScore` |
| Objectives.EstimateFuel | backend/hacopso.py:325-329 | with a non-negative distance and a fuel priority in [0, 1], the estimate lies between 0.35 and 0.5 tonnes per nautical mile |
| Objectives.FuelEstimateFallsWithPriority | backend/hacopso.py:325-329 | a higher fuel priority never raises the fuel estimate for the same distance |
| Objectives.Truncate | backend/hacopso.py:319-323 | Python's `int()` truncates toward zero, for both signs |
| Objectives.EstimateEtaHours | backend/hacopso.py:319-323 | the ETA is the whole number of hours at 15 knots: `h * 15 <= distance < (h + 1) * 15` |
| Objectives.Fitness | backend/hacopso.py:214-243 | with non-negative weights, the fitness is at most `wf + wt + 0.2 ws`, and at least 0 under a metric distance |
| Objectives.DefaultFitnessRange | backend/hacopso.py:236-241 | without priorities (weights 0.33, 0.33 and 0.34) the fitness is at most 0.728, and at least 0 under a metric distance |
| Swarm.AdaptiveInertia | backend/hacopso.py:331-333 | `w` stays in [0.4, 0.9] for iterations 0 to `max_iterations`; it is 0.9 at iteration 0, stays strictly above 0.4 on every iteration the loop runs (0 to `max_iterations - 1`), and is 0.4 at iteration `max_iterations` |
| Swarm.AdaptiveCognitive | backend/hacopso.py:335-337 | `c1` stays in [1.5, 2.5]; it is 2.5 at iteration 0, stays strictly above 1.5 on every iteration the loop runs, and is 1.5 at iteration `max_iterations` |
| Swarm.AdaptiveSocial | backend/hacopso.py:339-341 | `c2` stays in [1.5, 2.5]; it is 1.5 at iteration 0, stays strictly below 2.5 on every iteration the loop runs, and is 2.5 at iteration `max_iterations` |
| Swarm.SchedulesMonotone | backend/hacopso.py:331-341 | `w` and `c1` never increase and `c2` never decreases from iteration to iteration |
| Swarm.ChaosMap | backend/hacopso.py:54 | the logistic map sends [0, 1] into [0, 1] |
| Swarm.ChaosMagnitude | backend/hacopso.py:343-348 | the chaos magnitude lies in [0, 0.1] for iterations 0 to `max_iterations`, is strictly positive on every iteration the loop runs, and is 0 at iteration `max_iterations` |
| Swarm.ChaosPerturbation | backend/hacopso.py:343-348 | the perturbation has the noise's length, and is zero at iteration `max_iterations` |
| Swarm.LastIterationValues | backend/hacopso.py:83-87 | at iteration `max_iterations - 1`, the last one `optimize` runs, `w = 0.4 + 0.5/m`, `c1 = 1.5 + 1/m`, `c2 = 2.5 - 1/m`, and the chaos magnitude is `0.1/m > 0` (for `m = max_iterations`) |
| Swarm.HandleBoundaries | backend/hacopso.py:388-395 | the result keeps the length and lies in the unit box; a position in the box is returned unchanged, as is every component already in [0, 1] |
| Swarm.HandleBoundariesIdempotent | backend/hacopso.py:388-395 | clipping twice is clipping once |
| Swarm.Opposite | backend/hacopso.py:359 | each opposite component adds to the original to give 1, and the box is kept |
| Swarm.OppositeInvolution | backend/hacopso.py:359 | the opposite of the opposite is the original position |
| Swarm.Evaluate | backend/hacopso.py:89-103 | the particle gets its fresh fitness; its personal best is never worse than that fitness nor than before; it is replaced by the current position and that fitness when the fitness is strictly lower, and otherwise (a tie included) kept |
| Swarm.EvaluateAll | backend/hacopso.py:89-103 | across the swarm no particle moves; each holds the objective's value at its own position; each personal best is no worse than before and no worse than that value, and is either the old personal best or the current position |
| Swarm.GlobalAfter | backend/hacopso.py:104-107 | after the pass the global best is never worse than before and is at most every freshly evaluated fitness, so it exists after a non-empty pass |
| Swarm.GlobalAfterPrefix | backend/hacopso.py:89-107 | the pass visits the particles in order: one more particle is one more step |
| Swarm.GlobalBestComesFromPass | backend/hacopso.py:104-107 | the global best after the pass is the one before or one of the evaluated positions with its fitness |
| Swarm.GlobalAfterConsistent | backend/hacopso.py:104-107 | if the best going in is the objective's value at its own position, the best coming out is too |
| Swarm.CarriedBestSurvives | backend/hacopso.py:195-212 | a carried-over best that no particle beats survives the pass unchanged |
| Swarm.StaleBestExample | backend/hacopso.py:56-58 | a best carried over from another objective can survive with a fitness that the current objective does not give its position |
| Swarm.Move | backend/hacopso.py:110-130 | the moved particle keeps its shape, personal best and fitness, and its new position is the clipped sum of position and new velocity, inside the box |
| Swarm.Oppose | backend/hacopso.py:357-370 | the particle jumps to the opposite position, with its fitness, exactly when that fitness is strictly below the stored one, and is otherwise unchanged; its fitness never increases, the box is kept, and the velocity and personal best are untouched |
| Swarm.OppositionBypassesPersonalBest | backend/hacopso.py:368-370 | an accepted opposite can leave the personal best worse than the particle's new fitness |
| Swarm.Superposition | backend/hacopso.py:377-381 | the superposition of two positions in the box, with a weight in [0, 1], is in the box |
| Swarm.Superposed | backend/hacopso.py:372-386 | only the position changes, and it is either unchanged or the superposition of its pair |
| Swarm.SuperposedPair | backend/hacopso.py:375-386 | the coin decides which member of the pair takes the superposition; the other is unchanged |
| Swarm.OneOfEachPairMoves | backend/hacopso.py:375-386 | exactly one particle of each pair takes the superposition |
| Swarm.SuperposedInBox | backend/hacopso.py:372-386 | superposition keeps a swarm in the box inside the box |
| Hacopso.GlobalBestStep | backend/hacopso.py:104-107 | one step of the evaluation loop on the global-best fields extends the global best from the particles before `i` to those up to `i` |
| Hacopso.InitialSwarm | backend/hacopso.py:195-212 | `n` particles, each with its personal best at its start position and with no fitness yet; all in the box |
| Hacopso.MoveWith | backend/hacopso.py:110-130 | one particle's velocity and position update with its own draws: it keeps its shape, its personal best and its fitness, and lands inside the unit box |
| Hacopso.MoveAll | backend/hacopso.py:110-130 | the move pass keeps the swarm in the box and leaves every personal best and fitness alone |
| Hacopso.OpposePrefix | backend/hacopso.py:350-370 | only `particles[:n_particles // 4]` can change; no fitness increases; no personal best changes; the box is kept |
| Hacopso.SuperposeAll | backend/hacopso.py:372-386 | the superposition pass keeps the swarm in the box and changes only positions |
| Hacopso.SuperposeAllPair | backend/hacopso.py:375-386 | pair `i / 2` after the pass: the coin picks which particle takes the superposition |
| Hacopso.SuperposeAllUnpaired | backend/hacopso.py:375 | a last particle without a partner is left alone |
| Hacopso.RoundStep | backend/hacopso.py:83-138 | one round keeps the swarm in the box; its global best is the evaluation pass's, is never worse, and exists after a round over a non-empty swarm |
| Hacopso.Run | backend/hacopso.py:83-138 | after `k` rounds the global best is never worse than at the start, and it exists once a round has run over a non-empty swarm |
| Hacopso.RunMonotone | backend/hacopso.py:83-138 | the global best after `k` rounds is no worse than after any `j <= k` rounds |
| Hacopso.RunConsistent | backend/hacopso.py:83-138 | a run starting from no best, or a consistent one, ends with a best that is the objective's value at its own position |
| Hacopso.RouteFor | backend/hacopso.py:140-162 | the reported path runs from start to destination within the corridor; distance and ETA are non-negative; the fuel estimate lies in its band; the scores lie in their ranges; `overall == 100 - 10 * fitness` |
| Hacopso.DefaultOverallRange | backend/hacopso.py:149-154 | a route planned without priorities and scored with its position's fitness has `overall` at least 92.72, and at most 100 under a metric distance |
| Hacopso.ReplanOf | backend/hacopso.py:164-193 | re-planning needs a non-empty path; it restarts at `current_path[len // 3]`, keeps the last waypoint, and uses fuel = time = 0.3 and safety = 0.4 + (wave/10 + wind/50)/2 |
| Hacopso.ReplanWeightsExceedOne | backend/hacopso.py:173-185 | the safety weight is at least 0.4, and with any wave or wind the weights sum to more than 1 |
| Hacopso.ReplanOfComputedRoute | backend/hacopso.py:173-185 | a route `optimize` produced has 12 waypoints, so re-planning restarts from its waypoint 4 and keeps its destination |
| Hacopso.Optimizer.constructor | backend/hacopso.py:31-58 | an empty swarm and no global best; `Valid()` holds, so the two global-best fields exist together, and every pass keeps it |
| Hacopso.Optimizer.InitializeSwarm | backend/hacopso.py:195-212 | the loop appends exactly `InitialSwarm`; the global best is left untouched |
| Hacopso.Optimizer.EvaluatePass | backend/hacopso.py:89-107 | in place, every particle is evaluated as `EvaluateAll` says, and the two global-best fields end as `GlobalAfter` of the old best over the old positions |
| Hacopso.Optimizer.MovePass | backend/hacopso.py:110-130 | in place, the swarm becomes `MoveAll`; the global best is untouched |
| Hacopso.Optimizer.OppositionPass | backend/hacopso.py:350-370 | in place, the swarm becomes `OpposePrefix` over the first quarter; the global best is untouched |
| Hacopso.Optimizer.QuantumPass | backend/hacopso.py:372-386 | in place, the swarm becomes `SuperposeAll`; the global best is untouched |
| Hacopso.Optimizer.Round | backend/hacopso.py:83-138 | one in-place round is exactly `RoundStep` of the old state |
| Hacopso.Optimizer.Optimize | backend/hacopso.py:60-162 | the final state is `Run` from a fresh swarm and the previous global best; the best never gets worse; a route is reported exactly when a global best exists (always, with particles and iterations), and it is `RouteFor` that best |
| Hacopso.Optimizer.Report | backend/hacopso.py:140-162 | without a global best the run crashes; otherwise the result is `RouteFor` that best |
| Hacopso.Optimizer.Reoptimize | backend/hacopso.py:164-193 | an empty path crashes and changes nothing; otherwise it runs `optimize` without superposition under `ReplanOf`'s choices and reports `RouteFor` the final best; a new path starts a third of the way along and ends at the old end; its distance is the path's length, its ETA the whole hours at 15 knots, and its fuel 0.455 t per nautical mile; the global best never gets worse |
| AuditChain.Zeros | backend/main.py:220 | `"0" * n` has length `n` and only zeros |
| AuditChain.TailHashOfNewest | backend/main.py:219-220 | an empty log links to 64 zeros; otherwise to the hash of the row with the highest id |
| AuditChain.NewEntry | backend/main.py:218-238 | the new row links to the newest row (or to 64 zeros), its id exceeds every stored id, and its hash and signature are SHA-256 and HMAC of one and the same string built from its own fields, so it passes the signature check |
| AuditChain.Appended | backend/main.py:211-242 | append adds at most one row, at the end, and keeps the earlier rows; it adds one exactly when the new hash is not already stored (the `hash` column is unique, backend/database.py:54) |
| AuditChain.Verify | backend/main.py:244-269 | no entries exactly for an empty log; "all verified" carries the row count and only when every row passes; a broken chain names a row after the first whose link fails, and an invalid signature a row whose link holds but whose signature fails, in both cases with every earlier row passing |
| AuditChain.FirstFault | backend/main.py:255-267 | the result is the first row at or after `i` that fails the link or the signature check, or none exactly when every such row passes |
| AuditChain.ValidIffSound | backend/main.py:244-269 | the chain verifies exactly when every row passes both checks |
| AuditChain.InvalidNamesFirstFault | backend/main.py:255-267 | the verdict names the first failing row: a broken chain when its link fails, else an invalid signature |
| AuditChain.NewEntryPasses | backend/main.py:219-238 | the appended row links to the previous tail and carries a valid signature |
| AuditChain.AppendKeepsSound | backend/main.py:211-242 | appending under an unchanged secret keeps a sound log sound |
| AuditChain.AppendKeepsOrder | backend/main.py:211-242 | appending keeps the rows in increasing id order |
| AuditChain.AppendAll | backend/main.py:211-242 | a series of appends keeps the earlier rows and adds at most one row per request |
| AuditChain.AppendAllVerifies | backend/main.py:223-240 | a sound log extended only by appends under one secret stays sound and verifies |
| AuditChain.FreshLogVerifies | backend/main.py:252-269 | a log written only by appends from empty verifies |
| AuditChain.TamperedHash | backend/main.py:257-259 | a changed stored hash is caught only at the next row's link check, and not at all in the last row |
| AuditChain.TamperedSignature | backend/main.py:262-267 | a changed signature is reported as an invalid signature at that row |
| AuditChain.TamperedPrevHash | backend/main.py:257-259 | a changed `prev_hash` of a row after the first is reported as a broken chain at that row |
| AuditChain.TamperedFields | backend/main.py:255-267 | a change that keeps the links is caught exactly when the stored signature no longer matches; this includes the first row's `prev_hash` |
| AuditChain.ShiftedBoundaryUndetected | backend/main.py:263 | moving characters between action and data is never detected |
| AuditChain.WrongSecret | backend/main.py:262-266 | verifying under another secret fails at the first row unless the two HMACs agree |
| AuditChain.AuditLog.constructor | backend/database.py:48-57 | the table of a fresh database starts empty |
| AuditChain.AuditLog.Append | backend/main.py:211-242 | the table becomes `Appended` under the environment's secret; a receipt is returned exactly when a row was added, and it carries that row's hash and signature |
| AuditChain.AuditLog.VerifyChain | backend/main.py:244-269 | over the rows kept in id order, the early-return loop answers exactly `Verify` |
| Api.FindRoute | backend/main.py:292 | the first row with the route id, or none exactly when no row has it |
| Api.Backend.constructor | backend/main.py:46-50 | the module-level `hacopso_optimizer` is a fresh optimizer with 50 particles, 100 iterations, no swarm and no global best, shared by every request; a fresh database's `routes` and `telemetry` tables (backend/database.py:20-43) start empty |
| Api.Backend.TriggerReoptimization | backend/main.py:287-308 | a missing route changes nothing, the optimizer included; a found route with an empty stored path crashes before `optimize` runs and leaves the optimizer unchanged; a failed re-plan leaves every row as it was; a successful one refreshes only that row's path, distance, ETA and fuel, with the distance the new path's length, the ETA its whole hours at 15 knots and the fuel 0.455 t per nautical mile; the new path runs from a third of the way along the old path to its end; the optimizer ends in the state of `Run` under the re-plan, and its global best never gets worse; with the deployed 50 particles and 100 iterations, a found route with a non-empty path is always re-planned successfully |
| Api.Backend.PushTelemetry | backend/main.py:156-189 | the sample is always stored first; re-planning happens exactly when the wave height is strictly above 4.5, with the guarantees of `TriggerReoptimization` on the refreshed row and the optimizer; above 4.5 a found route with a non-empty path is always refreshed and the answer is "received"; at or below 4.5 neither the routes nor the optimizer change, and above it the optimizer is unchanged when the route is missing or its stored path is empty; the answer is "received" unless re-planning raised |

## Left out

- The Haversine trigonometry (backend/hacopso.py:271-283) is a parameter: any non-negative distance function.
- Objectives.TimeScore: the lower bound 0 of the docstring is proved only under `Geo.Metric` (zero self-distance and the triangle inequality), which the great-circle distance has but the abstract distance parameter is not required to have.
- Floating-point rounding is not modelled: all arithmetic is on `real`. Numpy's vectorised arithmetic is written as element-wise functions.
- `np.random` is an oracle of draws (`Hacopso.Rng`). Its seeding and the order in which numpy draws values are not modelled, and no claim of determinism is made.
- The Gaussian noise of `_chaos_perturbation` and the chaos seed are oracle values. Only their shape and the magnitude schedule are modelled.
- SHA-256, HMAC-SHA256 and hex encoding are uninterpreted functions on strings. No collision resistance is assumed.
- The `AUDIT_SECRET` lookup is an `Option<string>` parameter, read once per call. The source reads it again for every row in `verify_audit_chain`, so the model assumes the variable does not change during one verification.
- `json.dumps` and `json.loads` are not modelled. The audit data arrives already as the JSON text, and stored paths are sequences of waypoints.
- `Hacopso.RouteResult` keeps the ETA as whole hours; the source formats it as "<hours> hrs".
- A run that leaves no global best (no particles, or `max_iterations == 0` on a first call) makes `_generate_path(…, None)` raise in the source; the model reports this as `Crashed(GlobalBestMissing)` instead of an exception.
- Particles are datatype values in a `seq`, not objects, so aliasing between `Particle` objects is not modelled. The source never shares them.
- `route_id` derivation from `datetime.utcnow()`, `compute_route` and `get_route` are not modelled. The stored `scores` are a field of `Api.RouteRow` that `trigger_reoptimization` never rewrites.
- FastAPI routing, CORS, `BackgroundTasks`, the WebSocket registry and broadcasts, and `quantum_simulate` are I/O plumbing.
- The SQLAlchemy schema and sessions (backend/database.py) are not modelled. The tables are sequences, a commit is an assignment, and database id columns are the next integer.
- backend/telemetry_simulator.py and backend/simulate_voyage.py are random simulators and HTTP clients, and are not part of this model.
- The `seed` argument of the constructor is not modelled: it only seeds numpy, which the `Rng` oracle replaces.
