/** The telemetry endpoint of backend/main.py: `push_telemetry` stores the
    sample and, for waves strictly higher than 4.5 m, has
    `trigger_reoptimization` re-plan the stored route with the shared
    optimizer and overwrite its path, distance, ETA and fuel estimate. */
module Api {

  import opened Wrappers
  import opened Geo
  import opened Objectives
  import opened Swarm
  import opened Hacopso

  /** The `TelemetryData` request body, as the `telemetry` table stores it. */
  datatype Telemetry = Telemetry(routeId: string, timestamp: string, waveHeight: real, windSpeed: real,
                                 currentSpeed: real, visibility: real, temperature: real)

  /** A row of the `routes` table (path and scores decoded from their JSON text). */
  datatype RouteRow = RouteRow(routeId: string, path: seq<Waypoint>, distance: real, etaHours: int,
                               fuelEstimate: real, scores: Scores)

  /** The wave height, in metres, above which a route is re-planned. */
  const WaveThreshold: real := 4.5

  /** What `push_telemetry` answers: `{"status": "received"}`, or a server
      error when re-planning raised. */
  datatype Response = Received | ServerError(reason: Crash)

  /** `db.query(Route).filter(Route.route_id == id).first()` */
  function FindRoute(routes: seq<RouteRow>, id: string): (r: Option<nat>)
    ensures r.Some? ==> r.value < |routes| && routes[r.value].routeId == id
    ensures r.Some? ==> forall j :: 0 <= j < r.value ==> routes[j].routeId != id
    ensures r.None? <==> forall j :: 0 <= j < |routes| ==> routes[j].routeId != id
    decreases |routes|
  {
    if routes == [] then None
    else if routes[0].routeId == id then Some(0)
    else match FindRoute(routes[1..], id)
      case None => None
      case Some(k) => Some(k + 1)
  }

  /** The route row after a successful re-plan: the scores are not rewritten. */
  function Refreshed(row: RouteRow, r: RouteResult): RouteRow
  {
    row.(path := r.path, distance := r.distance, etaHours := r.etaHours, fuelEstimate := r.fuel)
  }

  /** How `trigger_reoptimization` for route `id` turns the table `before`
      into `after`, given the outcome of re-planning (`None` when it never
      ran): no such route, nothing happens; a failed re-plan leaves every
      row as it was; a successful one refreshes that row and no other. */
  predicate RouteUpdate(before: seq<RouteRow>, after: seq<RouteRow>, id: string, outcome: Option<Outcome>)
  {
    match FindRoute(before, id)
    case None => outcome.None? && after == before
    case Some(k) =>
      outcome.Some? &&
      (outcome.value.Crashed? ==> after == before) &&
      (outcome.value.Optimized? ==> after == before[k := Refreshed(before[k], outcome.value.route)])
  }

  /** The re-planned route runs from the waypoint a third of the way along the
      stored path to that path's last waypoint; an empty stored path cannot be
      re-planned. */
  predicate Replanned(before: seq<RouteRow>, id: string, outcome: Option<Outcome>)
  {
    match FindRoute(before, id)
    case None => true
    case Some(k) =>
      var path := before[k].path;
      outcome.Some? &&
      (path == [] ==> outcome.value == Crashed(EmptyPath)) &&
      (outcome.value.Optimized? ==>
        var newPath := outcome.value.route.path;
        path != [] && |newPath| >= 2 &&
        newPath[0] == path[|path| / 3] && newPath[|newPath| - 1] == path[|path| - 1])
  }

  /** The stored figures of a re-planned row follow from its stored path: the
      distance is the path's length, the ETA its whole hours at 15 knots, and
      the fuel estimate that of the re-planning weights. */
  predicate FiguresFollowPath(row: RouteRow, d: Haversine)
  {
    row.distance == PathDistance(d, row.path) && row.etaHours == EstimateEtaHours(row.distance) &&
    row.fuelEstimate == ReplanFuelRate * row.distance
  }

  /** The swarm size and iteration budget of the module-level optimizer. */
  const DeployedParticles: nat := 50
  const DeployedIterations: nat := 100

  class Backend {
    var routes: seq<RouteRow>
    var telemetry: seq<Telemetry>
    /** `hacopso_optimizer`, shared by every request. */
    const optimizer: Optimizer

    predicate Valid()
      reads this, optimizer
    {
      optimizer.Valid() && optimizer.nParticles == DeployedParticles && optimizer.maxIterations == DeployedIterations
    }

    /** Start-up: `hacopso_optimizer = HACOPSO(n_particles=50, max_iterations=100)`
        with no swarm and no global best, and a fresh database's empty tables. */
    constructor ()
      ensures routes == [] && telemetry == [] && Valid() && fresh(optimizer)
      ensures optimizer.particles == [] && optimizer.GlobalBest().None?
    {
      optimizer := new Optimizer(DeployedParticles, DeployedIterations);
      routes := [];
      telemetry := [];
    }

    /** `trigger_reoptimization`: look the route up, re-plan it from its stored
        path with the sample's wave height and wind speed, and store the new
        path, distance, ETA and fuel estimate. */
    method TriggerReoptimization(routeId: string, data: Telemetry, d: Haversine, rng: Rng)
      returns (outcome: Option<Outcome>)
      requires Valid() && WellFormed(rng)
      modifies this, optimizer
      ensures Valid()
      ensures telemetry == old(telemetry)
      ensures RouteUpdate(old(routes), routes, routeId, outcome)
      ensures Replanned(old(routes), routeId, outcome)
      ensures outcome.None? ==> unchanged(optimizer)
      ensures outcome == Some(Crashed(EmptyPath)) ==> unchanged(optimizer)
      ensures AtMost(optimizer.globalBestFitness, old(optimizer.globalBestFitness))
      ensures var found := FindRoute(old(routes), routeId);
        found.Some? && outcome.Some? && outcome.value.Optimized? ==>
          found.value < |routes| && FiguresFollowPath(routes[found.value], d)
      ensures var found := FindRoute(old(routes), routeId);
        found.Some? ==>
          forall plan | ReplanOf(old(routes)[found.value].path, data.waveHeight, data.windSpeed) == Some(plan) ::
            optimizer.State() == Run(SwarmState(InitialSwarm(rng, optimizer.nParticles), old(optimizer.GlobalBest())),
                                     optimizer.maxIterations, optimizer.maxIterations, optimizer.nParticles,
                                     Objective(d, plan.start, plan.dest, plan.priorities), false, rng)
      ensures FindRoute(old(routes), routeId).Some? && old(routes)[FindRoute(old(routes), routeId).value].path != [] ==>
        outcome.Some? && outcome.value.Optimized?
    {
      var found := FindRoute(routes, routeId);
      if found.None? {
        return None;
      }
      var k := found.value;
      var route := routes[k];
      var result := optimizer.Reoptimize(route.path, data.waveHeight, data.windSpeed, d, rng);
      outcome := Some(result);
      if result.Crashed? {
        return;
      }
      routes := routes[k := Refreshed(route, result.route)];
    }

    /** `push_telemetry`: store the sample, then re-plan its route when the
        waves are strictly higher than 4.5 m. */
    method PushTelemetry(data: Telemetry, d: Haversine, rng: Rng)
      returns (response: Response, outcome: Option<Outcome>)
      requires Valid() && WellFormed(rng)
      modifies this, optimizer
      ensures Valid()
      ensures telemetry == old(telemetry) + [data]
      ensures data.waveHeight <= WaveThreshold ==> outcome.None? && routes == old(routes) && unchanged(optimizer)
      ensures data.waveHeight > WaveThreshold ==>
        RouteUpdate(old(routes), routes, data.routeId, outcome) && Replanned(old(routes), data.routeId, outcome)
      ensures outcome.None? ==> unchanged(optimizer)
      ensures outcome == Some(Crashed(EmptyPath)) ==> unchanged(optimizer)
      ensures AtMost(optimizer.globalBestFitness, old(optimizer.globalBestFitness))
      ensures var found := FindRoute(old(routes), data.routeId);
        found.Some? && outcome.Some? && outcome.value.Optimized? ==>
          found.value < |routes| && FiguresFollowPath(routes[found.value], d)
      ensures var found := FindRoute(old(routes), data.routeId);
        data.waveHeight > WaveThreshold && found.Some? ==>
          forall plan | ReplanOf(old(routes)[found.value].path, data.waveHeight, data.windSpeed) == Some(plan) ::
            optimizer.State() == Run(SwarmState(InitialSwarm(rng, optimizer.nParticles), old(optimizer.GlobalBest())),
                                     optimizer.maxIterations, optimizer.maxIterations, optimizer.nParticles,
                                     Objective(d, plan.start, plan.dest, plan.priorities), false, rng)
      ensures data.waveHeight > WaveThreshold && FindRoute(old(routes), data.routeId).Some? &&
              old(routes)[FindRoute(old(routes), data.routeId).value].path != [] ==>
        outcome.Some? && outcome.value.Optimized? && response == Received
      ensures response == if outcome.Some? && outcome.value.Crashed? then ServerError(outcome.value.reason) else Received
    {
      telemetry := telemetry + [data];
      outcome := None;
      if data.waveHeight > WaveThreshold {
        outcome := TriggerReoptimization(data.routeId, data, d, rng);
      }
      if outcome.Some? && outcome.value.Crashed? {
        return ServerError(outcome.value.reason), outcome;
      }
      response := Received;
    }
  }
}
