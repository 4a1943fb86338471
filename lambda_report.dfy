/** The handler's `run_fuel_optimization`: the fixed-level baseline the
    optimized profile is compared with, and the report that compares them. */
module LambdaReport {
  import opened Common
  import opened LambdaHandler

  /** The fuel burned so far and the mass left. */
  datatype Totals = Totals(fuel: real, mass: real)

  /** The report the tool hands back; `round()` of the figures is left out. */
  datatype Report =
    | Success(baselineFuel: real, optimizedFuel: real, fuelSaved: real, route: seq<State>)
    | ErrorReport(message: string)

  /** The baseline's `i`-th segment: 35000 ft, 450 kt, 15 C, whatever the
      weather, from the mass reached so far. */
  function BaselineSegment(plan: FlightPlan, world: World, i: nat, massKg: real): Outcome<real>
    requires WellFormed(plan, world) && i + 1 < |plan.waypoints|
  {
    var wps := plan.waypoints;
    var distanceKm := world.haversineKm(world.coords[wps[i]], world.coords[wps[i + 1]]);
    CalculateFuelBurn(world, plan.aircraft, massKg, BASELINE_ALTITUDE_FT, distanceKm, TAS_KTS, BASELINE_TEMPERATURE_C)
  }

  /** The baseline after its first `k` segments. The burned fuel and the
      mass left always add up to the initial mass, and the speed being a
      constant 450 kt, only the fuel model can make it raise. */
  function BaselineTotals(plan: FlightPlan, world: World, k: nat): (r: Outcome<Totals>)
    requires WellFormed(plan, world) && k < |plan.waypoints|
    ensures r.Ok? ==> r.value.fuel + r.value.mass == plan.initialMass
    ensures r.Raised? ==> r.failure == FuelModelRaised
  {
    if k == 0 then Ok(Totals(0.0, plan.initialMass))
    else
      match BaselineTotals(plan, world, k - 1)
      case Raised(f) => Raised(f)
      case Ok(t) =>
        match BaselineSegment(plan, world, k - 1, t.mass)
        case Raised(f) => Raised(f)
        case Ok(burn) => Ok(Totals(t.fuel + burn, t.mass - burn))
  }

  /** A baseline segment is the search's edge into FL350 on a day without
      weather data. */
  lemma BaselineSegmentIsCalmFL350(plan: FlightPlan, world: World, i: nat, massKg: real)
    requires WellFormed(plan, world) && i + 1 < |plan.waypoints|
    ensures BaselineSegment(plan, world, i, massKg)
            == SegmentBurn(plan, map[], world, plan.waypoints[i], plan.waypoints[i + 1], massKg, 350)
  {
    assert plan.waypoints[i] in plan.waypoints && plan.waypoints[i + 1] in plan.waypoints;
  }

  /** Once the baseline has raised, later segments do not undo it. */
  lemma {:induction false} BaselineRaisedStays(plan: FlightPlan, world: World, k: nat, k': nat)
    requires WellFormed(plan, world) && k <= k' < |plan.waypoints|
    requires BaselineTotals(plan, world, k).Raised?
    ensures BaselineTotals(plan, world, k') == BaselineTotals(plan, world, k)
    decreases k' - k
  {
    if k < k' {
      BaselineRaisedStays(plan, world, k, k' - 1);
    }
  }

  /** With a fuel model that answers with non-negative flows and
      non-negative distances, the baseline does not raise, burns a
      non-negative amount of fuel, and the mass never grows. */
  lemma {:induction false} BaselineBurnsNonNegative(plan: FlightPlan, world: World, k: nat)
    requires WellFormed(plan, world) && k < |plan.waypoints|
    requires forall q :: world.enroute(q).Some? && world.enroute(q).value >= 0.0
    requires forall a, b :: world.haversineKm(a, b) >= 0.0
    ensures BaselineTotals(plan, world, k).Ok?
    ensures BaselineTotals(plan, world, k).value.fuel >= 0.0
    ensures BaselineTotals(plan, world, k).value.mass <= plan.initialMass
  {
    if k > 0 {
      BaselineBurnsNonNegative(plan, world, k - 1);
      var t := BaselineTotals(plan, world, k - 1).value;
      var wps := plan.waypoints;
      var distanceKm := world.haversineKm(world.coords[wps[k - 1]], world.coords[wps[k]]);
      BurnMonotoneInDistance(world, plan.aircraft, t.mass, BASELINE_ALTITUDE_FT, distanceKm, distanceKm,
                             TAS_KTS, BASELINE_TEMPERATURE_C);
    }
  }

  /** A fuel model that always raises makes the baseline raise as soon as
      there is a segment. */
  lemma {:induction false} BaselineRaisesWithModel(plan: FlightPlan, world: World, k: nat)
    requires WellFormed(plan, world) && 0 < k < |plan.waypoints| && AlwaysRaises(world)
    ensures BaselineTotals(plan, world, k) == Raised(FuelModelRaised)
  {
    if k > 1 {
      BaselineRaisesWithModel(plan, world, k - 1);
    }
  }

  /** With a fuel model that always answers, the baseline does not raise:
      its speed is a constant 450 kt, so there is no zero division either. */
  lemma {:induction false} BaselineAnswers(plan: FlightPlan, world: World, k: nat)
    requires WellFormed(plan, world) && k < |plan.waypoints| && AlwaysAnswers(world)
    ensures BaselineTotals(plan, world, k).Ok?
  {
    if k > 0 {
      BaselineAnswers(plan, world, k - 1);
    }
  }

  /** The baseline loop: every segment flown at 35000 ft from the mass the
      previous ones left, its burn added to the fuel and taken off the mass. */
  method BaselineFuel(plan: FlightPlan, world: World) returns (r: Outcome<Totals>)
    requires WellFormed(plan, world)
    ensures r == BaselineTotals(plan, world, |plan.waypoints| - 1)
  {
    var wps := plan.waypoints;
    var baselineMass, baselineFuel := plan.initialMass, 0.0;
    for i := 0 to |wps| - 1
      invariant BaselineTotals(plan, world, i) == Ok(Totals(baselineFuel, baselineMass))
    {
      assert wps[i] in wps && wps[i + 1] in wps;
      var distanceKm := world.haversineKm(world.coords[wps[i]], world.coords[wps[i + 1]]);
      var fuelBurned := CalculateFuelBurn(world, plan.aircraft, baselineMass, BASELINE_ALTITUDE_FT, distanceKm,
                                          TAS_KTS, BASELINE_TEMPERATURE_C);
      if fuelBurned.Raised? {
        r := Raised(fuelBurned.failure);
        BaselineRaisedStays(plan, world, i + 1, |wps| - 1);
        return;
      }
      baselineFuel, baselineMass := baselineFuel + fuelBurned.value, baselineMass - fuelBurned.value;
    }
    r := Ok(Totals(baselineFuel, baselineMass));
  }

  /** `run_fuel_optimization`: the baseline, then the search, then the
      report. An exception of either escapes. A report of success carries
      the baseline's fuel, a route that follows the plan to the destination,
      and the saving as the baseline minus the optimized fuel; the error
      report comes exactly when the destination is not on the plan. The
      optimized fuel is what the fuel model charges along some route of the
      plan to the route's last state, and a fuel model that always answers,
      with no head wind cancelling the airspeed, yields a report of success
      whenever the destination is on the plan. */
  method RunFuelOptimization(plan: FlightPlan, weather: WeatherData, world: World) returns (r: Outcome<Report>)
    requires WellFormed(plan, world)
    ensures var baseline := BaselineTotals(plan, world, |plan.waypoints| - 1);
            && (baseline.Raised? ==> r == Raised(baseline.failure))
            && (r.Ok? ==> baseline.Ok?)
            && (r.Ok? && r.value.Success? ==>
                  && r.value.baselineFuel == baseline.value.fuel
                  && r.value.fuelSaved == r.value.baselineFuel - r.value.optimizedFuel
                  && FollowsPlan(plan, r.value.route)
                  && HasPricedRoute(plan, weather, world, r.value.route[|r.value.route| - 1], r.value.optimizedFuel))
            && (r.Ok? ==> (r.value.ErrorReport? <==> plan.destination !in plan.waypoints))
            && (r.Ok? && r.value.ErrorReport? ==> r.value.message == FAILURE_MESSAGE)
            && (plan.waypoints[0] == plan.destination && baseline.Ok? ==>
                  r == Ok(Success(baseline.value.fuel, 0.0, baseline.value.fuel, [StartState(plan)])))
            && (AlwaysRaises(world) && |plan.waypoints| > 1 ==> r == Raised(FuelModelRaised))
            && (AlwaysAnswers(world) && GroundSpeedNonZero(plan, weather) && plan.destination in plan.waypoints ==>
                  r.Ok? && r.value.Success?)
  {
    var baseline := BaselineFuel(plan, world);
    if AlwaysRaises(world) && |plan.waypoints| > 1 {
      BaselineRaisesWithModel(plan, world, |plan.waypoints| - 1);
    }
    if AlwaysAnswers(world) {
      BaselineAnswers(plan, world, |plan.waypoints| - 1);
    }
    if baseline.Raised? {
      return Raised(baseline.failure);
    }
    var search, cameFrom, mass := AStarSearch(plan, weather, world);
    if search.Raised? {
      return Raised(search.failure);
    }
    var baselineFuel := baseline.value.fuel;
    match search.value.path
    case Some(path) =>
      var optimizedFuel := search.value.totalFuel.value;
      r := Ok(Success(baselineFuel, optimizedFuel, baselineFuel - optimizedFuel, path));
    case None =>
      r := Ok(ErrorReport(FAILURE_MESSAGE));
  }
}
