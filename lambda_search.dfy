/** The handler-side optimizer: a uniform-cost search over (waypoint, flight
    level) states with predecessor, cost and mass tables, the path it rebuilds
    from the predecessor links, the fixed-level baseline, and the report that
    compares the two. The fuel model is not guarded here: when it raises, the
    exception leaves the search and the report. */
module LambdaHandler {
  import opened Common

  type Waypoint = string

  /** The six flight levels every segment may be flown at, lowest first. */
  const FLIGHT_LEVELS: seq<int> := [290, 310, 330, 350, 370, 390]
  /** The search starts at `FLIGHT_LEVELS[3]`. */
  const START_LEVEL_INDEX: nat := 3
  const TAS_KTS: real := 450.0
  const DEFAULT_TEMPERATURE_C: real := 15.0
  const DEFAULT_WIND_KTS: real := 0.0
  const KM_PER_NM: real := 1.852
  const SECONDS_PER_HOUR: real := 3600.0
  const BASELINE_ALTITUDE_FT: int := 35000
  const BASELINE_TEMPERATURE_C: real := 15.0
  const FAILURE_MESSAGE: string := "Optimization failed to find a path."

  /** A search state and a route element: a waypoint and a flight level. */
  datatype State = State(waypoint: Waypoint, level: int)

  /** The arguments of `FuelFlow(ac, pax=0).enroute(mass, alt, tas, isa_dev)`. */
  datatype FuelFlowQuery = FuelFlowQuery(aircraft: string, massKg: real, altitudeFt: int, tasKts: real, isaDev: real)

  /** Configuration the handler reads but does not own: the coordinate table,
      the great-circle distance in kilometres, and the fuel-flow model in kg/s,
      whose `None` stands for an exception raised inside OpenAP. */
  datatype World = World(
    coords: map<Waypoint, Coord>,
    haversineKm: (Coord, Coord) -> real,
    enroute: FuelFlowQuery -> Option<real>)

  /** The weather record of one waypoint; `None` is a missing key. */
  datatype WeatherReport = WeatherReport(temperatureC: Option<real>, windSpeedKts: Option<real>)

  type WeatherData = map<Waypoint, WeatherReport>

  /** The exceptions that can leave the search: one raised by the fuel model,
      and the division by a zero ground speed. */
  datatype Failure = FuelModelRaised | ZeroDivision

  /** A value, or the exception that escaped instead. */
  datatype Outcome<T> = Ok(value: T) | Raised(failure: Failure)

  /** The flight-plan fields the optimizer reads. */
  datatype FlightPlan = FlightPlan(flightId: string, waypoints: seq<Waypoint>, aircraft: string,
                                   initialMass: real, destination: Waypoint)

  /** What the search needs of its input: a first waypoint, waypoints that
      identify their position (`list.index` and the goal test go by name), and
      coordinates for each of them (otherwise Python raises `KeyError`). */
  predicate WellFormed(plan: FlightPlan, world: World) {
    && |plan.waypoints| > 0
    && Distinct(plan.waypoints)
    && forall wp :: wp in plan.waypoints ==> wp in world.coords
  }

  ghost predicate AlwaysRaises(world: World) {
    forall q :: world.enroute(q).None?
  }

  /** The fuel model answers every query: OpenAP never raises. */
  ghost predicate AlwaysAnswers(world: World) {
    forall q :: world.enroute(q).Some?
  }

  /** No waypoint of the plan reports a head wind that cancels the 450 kt
      airspeed, so no segment divides by a zero ground speed. */
  predicate GroundSpeedNonZero(plan: FlightPlan, weather: WeatherData) {
    forall wp :: wp in plan.waypoints ==> Wind(weather, wp) != -TAS_KTS
  }

  /** Position of a waypoint in the plan, -1 when it is not on it. */
  function Position(wps: seq<Waypoint>, wp: Waypoint): int {
    if wp in wps then IndexOf(wps, wp) else -1
  }

  function StartState(plan: FlightPlan): State
    requires |plan.waypoints| > 0
  {
    State(plan.waypoints[0], FLIGHT_LEVELS[START_LEVEL_INDEX])
  }

  /** The temperature's excess over the ISA reference of 15 C at sea level
      falling 2 C per 1000 ft. */
  function IsaDeviation(temperatureC: real, altitudeFt: int): real {
    temperatureC - (15.0 - (altitudeFt as real / 1000.0 * 2.0))
  }

  /** The deviation is zero, or positive, exactly when the temperature is, or
      exceeds, the ISA reference at that altitude. */
  lemma IsaDeviationSign(temperatureC: real, altitudeFt: int)
    ensures IsaDeviation(temperatureC, altitudeFt) == 0.0 <==> temperatureC == 15.0 - 2.0 * (altitudeFt as real) / 1000.0
    ensures IsaDeviation(temperatureC, altitudeFt) > 0.0 <==> temperatureC > 15.0 - 2.0 * (altitudeFt as real) / 1000.0
  {
  }

  /** For one temperature, every 1000 ft of altitude adds 2 C of deviation. */
  lemma IsaDeviationLapse(temperatureC: real, altitudeFt: int)
    ensures IsaDeviation(temperatureC, altitudeFt + 1000) == IsaDeviation(temperatureC, altitudeFt) + 2.0
  {
  }

  function FlowQuery(aircraft: string, massKg: real, altitudeFt: int, tasKts: real, temperatureC: real): FuelFlowQuery {
    FuelFlowQuery(aircraft, massKg, altitudeFt, tasKts, IsaDeviation(temperatureC, altitudeFt))
  }

  /** `calculate_fuel_burn`: the fuel model's flow in kg/s times the flight
      time in seconds of `distance_km` at `tas_kts`. The fuel model is asked
      first; its exception escapes, and so does the division by a zero speed. */
  function CalculateFuelBurn(world: World, aircraft: string, massKg: real, altitudeFt: int,
                             distanceKm: real, tasKts: real, temperatureC: real): (r: Outcome<real>)
    ensures r == Raised(FuelModelRaised) <==>
              world.enroute(FlowQuery(aircraft, massKg, altitudeFt, tasKts, temperatureC)).None?
    ensures r == Raised(ZeroDivision) <==>
              world.enroute(FlowQuery(aircraft, massKg, altitudeFt, tasKts, temperatureC)).Some? && tasKts == 0.0
  {
    match world.enroute(FlowQuery(aircraft, massKg, altitudeFt, tasKts, temperatureC))
    case None => Raised(FuelModelRaised)
    case Some(flow) =>
      if tasKts == 0.0 then Raised(ZeroDivision)
      else
        var hours := (distanceKm / KM_PER_NM) / tasKts;
        Ok(flow * hours * SECONDS_PER_HOUR)
  }

  /** The burn is the fuel flow over the flight time: burn x speed x 1.852 =
      flow x distance x 3600. */
  lemma BurnIsFlowTimesTime(world: World, aircraft: string, massKg: real, altitudeFt: int,
                            distanceKm: real, tasKts: real, temperatureC: real)
    ensures var r := CalculateFuelBurn(world, aircraft, massKg, altitudeFt, distanceKm, tasKts, temperatureC);
            r.Ok? ==>
              r.value * tasKts * KM_PER_NM
              == world.enroute(FlowQuery(aircraft, massKg, altitudeFt, tasKts, temperatureC)).value * distanceKm * SECONDS_PER_HOUR
  {
    var r := CalculateFuelBurn(world, aircraft, massKg, altitudeFt, distanceKm, tasKts, temperatureC);
    if r.Ok? {
      var hours := (distanceKm / KM_PER_NM) / tasKts;
      assert hours * tasKts * KM_PER_NM == distanceKm;
    }
  }

  /** With a non-negative fuel flow and a positive speed, the burn is
      non-negative and does not decrease with the distance flown. */
  lemma BurnMonotoneInDistance(world: World, aircraft: string, massKg: real, altitudeFt: int,
                               d1: real, d2: real, tasKts: real, temperatureC: real)
    requires 0.0 <= d1 <= d2 && tasKts > 0.0
    requires world.enroute(FlowQuery(aircraft, massKg, altitudeFt, tasKts, temperatureC)).Some?
    requires world.enroute(FlowQuery(aircraft, massKg, altitudeFt, tasKts, temperatureC)).value >= 0.0
    ensures CalculateFuelBurn(world, aircraft, massKg, altitudeFt, d1, tasKts, temperatureC).Ok?
    ensures 0.0 <= CalculateFuelBurn(world, aircraft, massKg, altitudeFt, d1, tasKts, temperatureC).value
              <= CalculateFuelBurn(world, aircraft, massKg, altitudeFt, d2, tasKts, temperatureC).value
  {
    var flow := world.enroute(FlowQuery(aircraft, massKg, altitudeFt, tasKts, temperatureC)).value;
    var h1 := (d1 / KM_PER_NM) / tasKts;
    var h2 := (d2 / KM_PER_NM) / tasKts;
    assert 0.0 <= h1 <= h2;
    assert flow * h1 <= flow * h2;
  }

  /** The temperature reported for a waypoint; 15 C when the waypoint or
      its temperature has no entry. */
  function Temperature(weather: WeatherData, wp: Waypoint): (t: real)
    ensures wp !in weather ==> t == DEFAULT_TEMPERATURE_C
  {
    if wp in weather && weather[wp].temperatureC.Some? then weather[wp].temperatureC.value else DEFAULT_TEMPERATURE_C
  }

  /** The wind speed reported for a waypoint; none when the waypoint or its
      wind has no entry. */
  function Wind(weather: WeatherData, wp: Waypoint): (w: real)
    ensures wp !in weather ==> w == DEFAULT_WIND_KTS
  {
    if wp in weather && weather[wp].windSpeedKts.Some? then weather[wp].windSpeedKts.value else DEFAULT_WIND_KTS
  }

  /** The burn of the segment from `fromWp` (at mass `currentMass`) to
      `nextWp` at `nextLevel`: altitude = level x 100 ft, speed = 450 kt plus
      the next waypoint's wind, and its temperature, both defaulted when the
      weather has no entry. Only a head wind of exactly 450 kt makes the
      division fail. */
  function SegmentBurn(plan: FlightPlan, weather: WeatherData, world: World, fromWp: Waypoint, nextWp: Waypoint,
                       currentMass: real, nextLevel: int): (r: Outcome<real>)
    requires fromWp in world.coords && nextWp in world.coords
    ensures r == Raised(ZeroDivision) ==> Wind(weather, nextWp) == -TAS_KTS
  {
    var distanceKm := world.haversineKm(world.coords[fromWp], world.coords[nextWp]);
    var groundSpeedKts := TAS_KTS + Wind(weather, nextWp);
    CalculateFuelBurn(world, plan.aircraft, currentMass, nextLevel * 100, distanceKm, groundSpeedKts, Temperature(weather, nextWp))
  }

  /** The recorded cost of a state, infinite when it has none. */
  function Lookup(g: map<State, Cost>, s: State): Cost {
    if s in g then g[s] else Infinite
  }

  /** A pair of the plan's waypoints and flight levels: the keys of `g_score`. */
  predicate InTable(wps: seq<Waypoint>, s: State) {
    s.waypoint in wps && s.level in FLIGHT_LEVELS
  }

  /** `g_score` has one entry per (plan waypoint, level). */
  ghost predicate KeysOk(wps: seq<Waypoint>, g: map<State, Cost>) {
    forall s :: s in g <==> InTable(wps, s)
  }

  /** A state has a recorded mass only with a finite cost, and then
      mass + cost = initial mass: the cost is the fuel burnt to reach it. */
  ghost predicate MassOk(initialMass: real, g: map<State, Cost>, mass: map<State, real>) {
    forall s :: s in mass ==> s in g && g[s].Finite? && mass[s] + g[s].value == initialMass
  }

  /** Every state with a finite cost has a recorded mass. */
  ghost predicate FiniteRecorded(g: map<State, Cost>, mass: map<State, real>) {
    forall s :: s in g && g[s].Finite? ==> s in mass
  }

  /** Every recorded state other than the start has a predecessor. */
  ghost predicate Rooted(start: State, cameFrom: map<State, State>, mass: map<State, real>) {
    forall s {:trigger mass[s]} :: s in mass ==> s == start || s in cameFrom
  }

  /** A predecessor link joins two recorded states one waypoint apart. */
  ghost predicate Linked(wps: seq<Waypoint>, cameFrom: map<State, State>, mass: map<State, real>) {
    forall s {:trigger cameFrom[s]} :: s in cameFrom ==>
      && s in mass && cameFrom[s] in mass
      && Position(wps, s.waypoint) == Position(wps, cameFrom[s].waypoint) + 1
  }

  /** What holds of `came_from`, `g_score` and `mass_at_node` throughout:
      the start state has cost 0, the initial mass and no predecessor, and the
      five invariants above. */
  ghost predicate TablesOk(plan: FlightPlan, cameFrom: map<State, State>, g: map<State, Cost>, mass: map<State, real>)
    requires |plan.waypoints| > 0
  {
    var start := StartState(plan);
    && KeysOk(plan.waypoints, g)
    && start in mass && mass[start] == plan.initialMass
    && start in g && g[start] == Finite(0.0)
    && start !in cameFrom
    && MassOk(plan.initialMass, g, mass)
    && FiniteRecorded(g, mass)
    && Rooted(start, cameFrom, mass)
    && Linked(plan.waypoints, cameFrom, mass)
  }

  predicate QueueInMass(q: seq<Entry<State>>, mass: map<State, real>) {
    forall i :: 0 <= i < |q| ==> q[i].item in mass
  }

  lemma RecordKeepsMassOk(initialMass: real, g: map<State, Cost>, mass: map<State, real>, next: State, newCost: real, newMass: real)
    requires MassOk(initialMass, g, mass) && newMass + newCost == initialMass
    ensures MassOk(initialMass, g[next := Finite(newCost)], mass[next := newMass])
  {
    var g', mass' := g[next := Finite(newCost)], mass[next := newMass];
    forall s | s in mass'
      ensures s in g' && g'[s].Finite? && mass'[s] + g'[s].value == initialMass
    {
      if s != next {
        assert mass'[s] == mass[s];
      }
    }
  }

  lemma RecordKeepsFiniteRecorded(g: map<State, Cost>, mass: map<State, real>, next: State, newCost: real, newMass: real)
    requires FiniteRecorded(g, mass)
    ensures FiniteRecorded(g[next := Finite(newCost)], mass[next := newMass])
  {
    var g', mass' := g[next := Finite(newCost)], mass[next := newMass];
    forall s | s in g' && g'[s].Finite?
      ensures s in mass'
    {
      if s != next {
        assert g'[s] == g[s];
      }
    }
  }

  lemma RecordKeepsRooted(start: State, cameFrom: map<State, State>, mass: map<State, real>, next: State,
                          current: State, newMass: real)
    requires Rooted(start, cameFrom, mass)
    ensures Rooted(start, cameFrom[next := current], mass[next := newMass])
  {
    var cameFrom', mass' := cameFrom[next := current], mass[next := newMass];
    forall s | s in mass'
      ensures s == start || s in cameFrom'
    {
      if s != next {
        assert mass'[s] == mass[s];
      }
    }
  }

  lemma RecordKeepsLinked(wps: seq<Waypoint>, cameFrom: map<State, State>, mass: map<State, real>, next: State,
                          current: State, newMass: real)
    requires Linked(wps, cameFrom, mass) && current in mass
    requires Position(wps, next.waypoint) == Position(wps, current.waypoint) + 1
    ensures Linked(wps, cameFrom[next := current], mass[next := newMass])
  {
    var cameFrom', mass' := cameFrom[next := current], mass[next := newMass];
    forall s | s in cameFrom'
      ensures s in mass' && cameFrom'[s] in mass'
      ensures Position(wps, s.waypoint) == Position(wps, cameFrom'[s].waypoint) + 1
    {
      if s != next {
        assert cameFrom'[s] == cameFrom[s];
      }
    }
  }

  /** Recording a finite cost, a mass and a predecessor one waypoint earlier
      for a state of the table, with mass + cost = initial mass, keeps the
      tables consistent. */
  lemma RecordKeepsTables(plan: FlightPlan, cameFrom: map<State, State>, g: map<State, Cost>, mass: map<State, real>,
                          openSet: seq<Entry<State>>, current: State, next: State, newCost: real, newMass: real, priority: real)
    requires |plan.waypoints| > 0 && TablesOk(plan, cameFrom, g, mass) && QueueInMass(openSet, mass)
    requires current in mass && InTable(plan.waypoints, next)
    requires Position(plan.waypoints, next.waypoint) == Position(plan.waypoints, current.waypoint) + 1
    requires newMass + newCost == plan.initialMass
    ensures TablesOk(plan, cameFrom[next := current], g[next := Finite(newCost)], mass[next := newMass])
    ensures QueueInMass(openSet + [Entry(priority, next)], mass[next := newMass])
  {
    var start := StartState(plan);
    assert Position(plan.waypoints, start.waypoint) == 0;
    assert next != start;
    RecordKeepsMassOk(plan.initialMass, g, mass, next, newCost, newMass);
    RecordKeepsFiniteRecorded(g, mass, next, newCost, newMass);
    RecordKeepsRooted(start, cameFrom, mass, next, current, newMass);
    RecordKeepsLinked(plan.waypoints, cameFrom, mass, next, current, newMass);
  }

  /** The four structures the search updates in place: `came_from`,
      `g_score`, `mass_at_node` and the `open_set` heap. */
  datatype Tables = Tables(cameFrom: map<State, State>, g: map<State, Cost>, mass: map<State, real>,
                           openSet: seq<Entry<State>>)

  /** One turn of the `for next_fl` loop once the segment's `burn` is known
      (an exception escapes): the tentative cost through `current`, and on a
      strict improvement the predecessor, cost and mass (current mass minus
      the burn) of `next` recorded together and `next` pushed with its new
      cost as priority. */
  function Relax(current: State, currentMass: real, next: State, burn: Outcome<real>, t: Tables): Outcome<Tables> {
    if burn.Raised? then Raised(burn.failure)
    else
      var tentative := Lookup(t.g, current).Plus(burn.value);
      if tentative.Less(Lookup(t.g, next)) then
        Ok(Tables(t.cameFrom[next := current], t.g[next := tentative], t.mass[next := currentMass - burn.value],
                  t.openSet + [Entry(tentative.value, next)]))
      else Ok(t)
  }

  /** The burns of the segment from `current` to `nextWp` at each of the six
      levels, all at the popped state's mass. */
  function LevelBurns(plan: FlightPlan, weather: WeatherData, world: World, current: State, currentMass: real,
                      nextWp: Waypoint): seq<Outcome<real>>
    requires current.waypoint in world.coords && nextWp in world.coords
  {
    seq(|FLIGHT_LEVELS|, j requires 0 <= j < |FLIGHT_LEVELS| =>
      SegmentBurn(plan, weather, world, current.waypoint, nextWp, currentMass, FLIGHT_LEVELS[j]))
  }

  /** The tables after the first `k` turns of the `for next_fl` loop, in the
      order of `FLIGHT_LEVELS`, the turn at level `FLIGHT_LEVELS[j]` burning
      `burns[j]`; the first exception ends the loop. */
  function Expansion(current: State, currentMass: real, nextWp: Waypoint, burns: seq<Outcome<real>>, t: Tables,
                     k: nat): Outcome<Tables>
    requires k <= |burns| == |FLIGHT_LEVELS|
  {
    if k == 0 then Ok(t)
    else
      match Expansion(current, currentMass, nextWp, burns, t, k - 1)
      case Raised(f) => Raised(f)
      case Ok(t') => Relax(current, currentMass, State(nextWp, FLIGHT_LEVELS[k - 1]), burns[k - 1], t')
  }

  /** Once a turn has raised, the whole loop has raised that exception. */
  lemma {:induction false} ExpansionRaisedSticks(current: State, currentMass: real, nextWp: Waypoint,
                                                 burns: seq<Outcome<real>>, t: Tables, j: nat, k: nat, f: Failure)
    requires j <= k <= |burns| == |FLIGHT_LEVELS|
    requires Expansion(current, currentMass, nextWp, burns, t, j) == Raised(f)
    ensures Expansion(current, currentMass, nextWp, burns, t, k) == Raised(f)
    decreases k
  {
    if j < k {
      ExpansionRaisedSticks(current, currentMass, nextWp, burns, t, j, k - 1, f);
    }
  }

  /** A fuel model that always raises makes the burn at the first level
      raise. */
  lemma FirstBurnRaises(plan: FlightPlan, weather: WeatherData, world: World, current: State, currentMass: real,
                        nextWp: Waypoint)
    requires current.waypoint in world.coords && nextWp in world.coords && AlwaysRaises(world)
    ensures LevelBurns(plan, weather, world, current, currentMass, nextWp)[0] == Raised(FuelModelRaised)
  {
  }

  /** A first burn that raises stops the very first turn. */
  lemma ExpansionFirstRaises(current: State, currentMass: real, nextWp: Waypoint, burns: seq<Outcome<real>>, t: Tables)
    requires |burns| == |FLIGHT_LEVELS| && burns[0].Raised?
    ensures Expansion(current, currentMass, nextWp, burns, t, |FLIGHT_LEVELS|) == Raised(burns[0].failure)
  {
    ExpansionRaisedSticks(current, currentMass, nextWp, burns, t, 1, |FLIGHT_LEVELS|, burns[0].failure);
  }

  /** Burns that all come back let every turn of the loop through. */
  lemma {:induction false} ExpansionOk(current: State, currentMass: real, nextWp: Waypoint, burns: seq<Outcome<real>>,
                                       t: Tables, k: nat)
    requires k <= |burns| == |FLIGHT_LEVELS|
    requires forall j :: 0 <= j < |burns| ==> burns[j].Ok?
    ensures Expansion(current, currentMass, nextWp, burns, t, k).Ok?
  {
    if k > 0 {
      ExpansionOk(current, currentMass, nextWp, burns, t, k - 1);
    }
  }

  /** With a fuel model that always answers and a ground speed that is not
      zero at `nextWp`, the burns at all six levels come back. */
  lemma LevelBurnsOk(plan: FlightPlan, weather: WeatherData, world: World, current: State, currentMass: real,
                     nextWp: Waypoint)
    requires current.waypoint in world.coords && nextWp in world.coords
    requires AlwaysAnswers(world) && Wind(weather, nextWp) != -TAS_KTS
    ensures forall j :: 0 <= j < |FLIGHT_LEVELS| ==> LevelBurns(plan, weather, world, current, currentMass, nextWp)[j].Ok?
  {
    forall j | 0 <= j < |FLIGHT_LEVELS|
      ensures LevelBurns(plan, weather, world, current, currentMass, nextWp)[j].Ok?
    {
      var r := SegmentBurn(plan, weather, world, current.waypoint, nextWp, currentMass, FLIGHT_LEVELS[j]);
      assert r != Raised(FuelModelRaised) && r != Raised(ZeroDivision);
    }
  }

  /** What a turn of the `for next_fl` loop relies on: consistent tables, the
      popped state recorded with its mass, and `nextWp` the plan's waypoint
      after the popped state's. */
  ghost predicate Expandable(plan: FlightPlan, current: State, currentMass: real, nextWp: Waypoint, t: Tables)
  {
    && |plan.waypoints| > 0
    && TablesOk(plan, t.cameFrom, t.g, t.mass) && QueueInMass(t.openSet, t.mass)
    && current in t.mass && currentMass == t.mass[current]
    && nextWp in plan.waypoints
    && Position(plan.waypoints, nextWp) == Position(plan.waypoints, current.waypoint) + 1
  }

  /** A turn of the loop keeps the tables consistent and the popped state's
      record as it was. */
  lemma RelaxKeepsTables(plan: FlightPlan, current: State, currentMass: real, nextWp: Waypoint, level: int,
                         burn: Outcome<real>, t: Tables)
    requires Expandable(plan, current, currentMass, nextWp, t) && level in FLIGHT_LEVELS
    ensures Relax(current, currentMass, State(nextWp, level), burn, t).Ok? ==>
              Expandable(plan, current, currentMass, nextWp, Relax(current, currentMass, State(nextWp, level), burn, t).value)
  {
    var next := State(nextWp, level);
    if burn.Ok? {
      var tentative := Lookup(t.g, current).Plus(burn.value);
      if tentative.Less(Lookup(t.g, next)) {
        RecordKeepsTables(plan, t.cameFrom, t.g, t.mass, t.openSet, current, next, tentative.value,
                          currentMass - burn.value, tentative.value);
      }
    }
  }

  /** A turn of the loop only adds: recorded states stay recorded, the queue
      keeps its entries and gains at most `next`, and a newly recorded state
      is the one pushed. */
  lemma RelaxOnlyAdds(current: State, currentMass: real, next: State, burn: Outcome<real>, t: Tables)
    ensures Relax(current, currentMass, next, burn, t).Ok? ==>
              var r := Relax(current, currentMass, next, burn, t).value;
              && t.mass.Keys <= r.mass.Keys
              && |t.openSet| <= |r.openSet| <= |t.openSet| + 1
              && r.openSet[..|t.openSet|] == t.openSet
              && (|r.openSet| > |t.openSet| ==> r.openSet[|t.openSet|].item == next)
              && r.mass.Keys <= t.mass.Keys + Items(r.openSet)
  {
    var r := Relax(current, currentMass, next, burn, t);
    if r.Ok? && |r.value.openSet| > |t.openSet| {
      assert r.value.openSet[..|t.openSet|] == t.openSet;
      ItemsMember(r.value.openSet, |t.openSet|);
    }
  }

  /** A turn changes the tables only on a strict improvement of `next`'s
      cost, and then records `next`'s predecessor, finite cost and mass (the
      current mass less the burn) together and pushes `next` at its new
      cost. No cost ever rises. */
  lemma RelaxOnlyImproves(current: State, currentMass: real, next: State, burn: Outcome<real>, t: Tables)
    ensures Relax(current, currentMass, next, burn, t).Ok? <==> burn.Ok?
    ensures Relax(current, currentMass, next, burn, t).Ok? ==>
              var r := Relax(current, currentMass, next, burn, t).value;
              var tentative := Lookup(t.g, current).Plus(burn.value);
              && (forall s :: Lookup(r.g, s).AtMost(Lookup(t.g, s)))
              && (r != t <==> tentative.Less(Lookup(t.g, next)))
              && (r != t ==>
                    && tentative.Finite? && r.g[next] == tentative
                    && r.cameFrom[next] == current && r.mass[next] == currentMass - burn.value
                    && r.openSet == t.openSet + [Entry(tentative.value, next)])
  {
    if burn.Ok? {
      var tentative := Lookup(t.g, current).Plus(burn.value);
      if tentative.Less(Lookup(t.g, next)) {
        assert |Relax(current, currentMass, next, burn, t).value.openSet| > |t.openSet|;
      }
    }
  }

  /** A turn whose burn comes back leaves its successor with a recorded mass:
      either the turn recorded it, or its cost was already no greater than
      the finite tentative one. */
  lemma RelaxRecordsNext(current: State, currentMass: real, next: State, burn: Outcome<real>, t: Tables)
    requires current in t.g && t.g[current].Finite? && FiniteRecorded(t.g, t.mass)
    ensures Relax(current, currentMass, next, burn, t).Ok? ==> next in Relax(current, currentMass, next, burn, t).value.mass
  {
    if burn.Ok? && !Lookup(t.g, current).Plus(burn.value).Less(Lookup(t.g, next)) {
      assert next in t.g && t.g[next].Finite?;
    }
  }

  /** The whole loop keeps the tables consistent. */
  lemma {:induction false} ExpansionKeepsTables(plan: FlightPlan, current: State, currentMass: real, nextWp: Waypoint,
                                                burns: seq<Outcome<real>>, t: Tables, k: nat)
    requires k <= |burns| == |FLIGHT_LEVELS|
    requires Expandable(plan, current, currentMass, nextWp, t)
    ensures Expansion(current, currentMass, nextWp, burns, t, k).Ok? ==>
              Expandable(plan, current, currentMass, nextWp, Expansion(current, currentMass, nextWp, burns, t, k).value)
  {
    if k > 0 {
      ExpansionKeepsTables(plan, current, currentMass, nextWp, burns, t, k - 1);
      var prev := Expansion(current, currentMass, nextWp, burns, t, k - 1);
      if prev.Ok? {
        RelaxKeepsTables(plan, current, currentMass, nextWp, FLIGHT_LEVELS[k - 1], burns[k - 1], prev.value);
      }
    }
  }

  /** The loop keeps the queue's entries and pushes at most one entry per
      level turned, each a state of `nextWp`. */
  lemma {:induction false} ExpansionPushesNext(current: State, currentMass: real, nextWp: Waypoint,
                                               burns: seq<Outcome<real>>, t: Tables, k: nat)
    requires k <= |burns| == |FLIGHT_LEVELS|
    ensures Expansion(current, currentMass, nextWp, burns, t, k).Ok? ==>
              var r := Expansion(current, currentMass, nextWp, burns, t, k).value;
              && |t.openSet| <= |r.openSet| <= |t.openSet| + k
              && r.openSet[..|t.openSet|] == t.openSet
              && (forall i :: |t.openSet| <= i < |r.openSet| ==> r.openSet[i].item.waypoint == nextWp)
  {
    if k > 0 {
      ExpansionPushesNext(current, currentMass, nextWp, burns, t, k - 1);
      var prev := Expansion(current, currentMass, nextWp, burns, t, k - 1);
      if prev.Ok? {
        var next := State(nextWp, FLIGHT_LEVELS[k - 1]);
        RelaxOnlyAdds(current, currentMass, next, burns[k - 1], prev.value);
        var r := Relax(current, currentMass, next, burns[k - 1], prev.value);
        if r.Ok? {
          var q, q', q'' := t.openSet, prev.value.openSet, r.value.openSet;
          assert q''[..|q|] == q'[..|q|];
          forall i | |q| <= i < |q''|
            ensures q''[i].item.waypoint == nextWp
          {
            if i < |q'| {
              assert q''[i] == q'[i];
            }
          }
        }
      }
    }
  }

  /** The loop only records states: recorded states stay recorded, and every
      newly recorded state is on the queue. */
  lemma {:induction false} ExpansionRecordsQueued(current: State, currentMass: real, nextWp: Waypoint,
                                                  burns: seq<Outcome<real>>, t: Tables, k: nat)
    requires k <= |burns| == |FLIGHT_LEVELS|
    ensures Expansion(current, currentMass, nextWp, burns, t, k).Ok? ==>
              var r := Expansion(current, currentMass, nextWp, burns, t, k).value;
              && t.mass.Keys <= r.mass.Keys
              && r.mass.Keys <= t.mass.Keys + Items(r.openSet)
  {
    if k > 0 {
      ExpansionRecordsQueued(current, currentMass, nextWp, burns, t, k - 1);
      var prev := Expansion(current, currentMass, nextWp, burns, t, k - 1);
      if prev.Ok? {
        var next := State(nextWp, FLIGHT_LEVELS[k - 1]);
        RelaxOnlyAdds(current, currentMass, next, burns[k - 1], prev.value);
        var r := Relax(current, currentMass, next, burns[k - 1], prev.value);
        if r.Ok? {
          ItemsGrow(prev.value.openSet, r.value.openSet);
        }
      }
    }
  }

  /** The loop leaves the popped state's cost as it was and keeps every
      finite cost with a recorded mass. */
  lemma {:induction false} ExpansionKeepsCurrent(current: State, currentMass: real, nextWp: Waypoint,
                                                 burns: seq<Outcome<real>>, t: Tables, k: nat)
    requires k <= |burns| == |FLIGHT_LEVELS| && nextWp != current.waypoint
    requires current in t.g && t.g[current].Finite? && FiniteRecorded(t.g, t.mass)
    ensures var r := Expansion(current, currentMass, nextWp, burns, t, k);
            r.Ok? ==> current in r.value.g && r.value.g[current] == t.g[current] && FiniteRecorded(r.value.g, r.value.mass)
  {
    if k > 0 {
      ExpansionKeepsCurrent(current, currentMass, nextWp, burns, t, k - 1);
      var prev := Expansion(current, currentMass, nextWp, burns, t, k - 1);
      if prev.Ok? {
        var u, burn := prev.value, burns[k - 1];
        var next := State(nextWp, FLIGHT_LEVELS[k - 1]);
        if burn.Ok? {
          var tentative := Lookup(u.g, current).Plus(burn.value);
          if tentative.Less(Lookup(u.g, next)) {
            RecordKeepsFiniteRecorded(u.g, u.mass, next, tentative.value, currentMass - burn.value);
          }
        }
      }
    }
  }

  /** After the loop has turned through the first `k` levels without an
      exception, the successor at each of them has a recorded mass. */
  lemma {:induction false} ExpansionRecordsLevels(current: State, currentMass: real, nextWp: Waypoint,
                                                  burns: seq<Outcome<real>>, t: Tables, k: nat)
    requires k <= |burns| == |FLIGHT_LEVELS| && nextWp != current.waypoint
    requires current in t.g && t.g[current].Finite? && FiniteRecorded(t.g, t.mass)
    ensures Expansion(current, currentMass, nextWp, burns, t, k).Ok? ==>
              forall j :: 0 <= j < k ==>
                State(nextWp, FLIGHT_LEVELS[j]) in Expansion(current, currentMass, nextWp, burns, t, k).value.mass
  {
    if k > 0 {
      var prev := Expansion(current, currentMass, nextWp, burns, t, k - 1);
      var next := State(nextWp, FLIGHT_LEVELS[k - 1]);
      if prev.Ok? {
        var u := prev.value;
        var r := Relax(current, currentMass, next, burns[k - 1], u);
        ExpansionRecordsLevels(current, currentMass, nextWp, burns, t, k - 1);
        ExpansionKeepsCurrent(current, currentMass, nextWp, burns, t, k - 1);
        RelaxOnlyAdds(current, currentMass, next, burns[k - 1], u);
        RelaxRecordsNext(current, currentMass, next, burns[k - 1], u);
        if r.Ok? {
          forall j | 0 <= j < k
            ensures State(nextWp, FLIGHT_LEVELS[j]) in r.value.mass
          {
            if j < k - 1 {
              assert State(nextWp, FLIGHT_LEVELS[j]) in u.mass;
            }
          }
        }
      }
    }
  }

  /** The `for next_fl in FLIGHT_LEVELS` loop of one expansion, run on the
      tables in place: it computes `Expansion` over all six levels with the
      segment burns at the popped state's mass. */
  method ExpandLevels(plan: FlightPlan, weather: WeatherData, world: World, current: State, currentMass: real,
                      nextWp: Waypoint, cameFrom: map<State, State>, g: map<State, Cost>, mass: map<State, real>,
                      openSet: seq<Entry<State>>)
    returns (failure: Option<Failure>, cameFrom': map<State, State>, g': map<State, Cost>,
             mass': map<State, real>, openSet': seq<Entry<State>>)
    requires current.waypoint in world.coords && nextWp in world.coords
    requires current in g
    ensures var burns := LevelBurns(plan, weather, world, current, currentMass, nextWp);
            var r := Expansion(current, currentMass, nextWp, burns, Tables(cameFrom, g, mass, openSet), |FLIGHT_LEVELS|);
            && (failure.None? ==> r == Ok(Tables(cameFrom', g', mass', openSet')))
            && (failure.Some? ==> r == Raised(failure.value))
  {
    ghost var t := Tables(cameFrom, g, mass, openSet);
    ghost var burns := LevelBurns(plan, weather, world, current, currentMass, nextWp);
    failure, cameFrom', g', mass', openSet' := None, cameFrom, g, mass, openSet;
    for k := 0 to |FLIGHT_LEVELS|
      invariant current in g'
      invariant Expansion(current, currentMass, nextWp, burns, t, k) == Ok(Tables(cameFrom', g', mass', openSet'))
    {
      var nextLevel := FLIGHT_LEVELS[k];
      var burn := SegmentBurn(plan, weather, world, current.waypoint, nextWp, currentMass, nextLevel);
      assert burn == burns[k];
      if burn.Raised? {
        ExpansionRaisedSticks(current, currentMass, nextWp, burns, t, k + 1, |FLIGHT_LEVELS|, burn.failure);
        return Some(burn.failure), cameFrom', g', mass', openSet';
      }
      var next := State(nextWp, nextLevel);
      var tentative := g'[current].Plus(burn.value);
      if tentative.Less(Lookup(g', next)) {
        cameFrom', g' := cameFrom'[next := current], g'[next := tentative];
        mass' := mass'[next := currentMass - burn.value];
        openSet' := openSet' + [Entry(tentative.value, next)];
      }
    }
  }

  /** `chain` walks `came_from` backwards from a state at position `top`:
      each state is recorded, sits one waypoint before the one ahead of it,
      and is the predecessor of the one ahead of it. */
  ghost predicate BackChain(wps: seq<Waypoint>, cameFrom: map<State, State>, mass: map<State, real>,
                            chain: seq<State>, top: int)
  {
    && (forall i :: 0 <= i < |chain| ==> chain[i] in mass && Position(wps, chain[i].waypoint) == top - i)
    && (forall i :: 0 <= i < |chain| - 1 ==> chain[i] in cameFrom && cameFrom[chain[i]] == chain[i + 1])
  }

  lemma BackChainExtend(wps: seq<Waypoint>, cameFrom: map<State, State>, mass: map<State, real>,
                        chain: seq<State>, top: int, previous: State)
    requires BackChain(wps, cameFrom, mass, chain, top) && chain != []
    requires chain[|chain| - 1] in cameFrom && cameFrom[chain[|chain| - 1]] == previous
    requires previous in mass && Position(wps, previous.waypoint) == top - |chain|
    ensures BackChain(wps, cameFrom, mass, chain + [previous], top)
  {
    var c := chain + [previous];
    forall i | 0 <= i < |c| - 1
      ensures c[i] in cameFrom && cameFrom[c[i]] == c[i + 1]
    {
      assert c[i] == chain[i];
    }
  }

  /** A backward chain that reaches position 0, reversed, runs forward along
      the plan's waypoints from the first. */
  lemma BackChainReversed(wps: seq<Waypoint>, cameFrom: map<State, State>, mass: map<State, real>,
                          chain: seq<State>, top: int)
    requires BackChain(wps, cameFrom, mass, chain, top) && |chain| == top + 1
    requires forall s :: s in mass ==> s.waypoint in wps
    ensures var path := Reverse(chain);
            && (forall j :: 0 <= j < |path| ==> path[j] in mass && path[j].waypoint == wps[j])
            && (forall j :: 0 < j < |path| ==> path[j] in cameFrom && cameFrom[path[j]] == path[j - 1])
  {
    var path := Reverse(chain);
    forall j | 0 <= j < |path|
      ensures path[j] in mass && path[j].waypoint == wps[j]
    {
      assert path[j] == chain[|chain| - 1 - j];
      assert Position(wps, path[j].waypoint) == j;
    }
    forall j | 0 < j < |path|
      ensures path[j] in cameFrom && cameFrom[path[j]] == path[j - 1]
    {
      assert path[j] == chain[|chain| - 1 - j];
      assert path[j - 1] == chain[|chain| - j];
    }
  }

  /** The rebuild loop of `a_star_search` at the goal: follow `came_from`
      from `goal` back to the start, summing g(state) - g(predecessor) over
      the links, then add the start state and reverse. The route passes the
      plan's waypoints in order from the first up to the goal's, each step
      following a predecessor link, and the sum telescopes to the goal's
      cost, the fuel burnt from the initial mass down to the goal's mass. */
  method ReconstructPath(plan: FlightPlan, cameFrom: map<State, State>, g: map<State, Cost>, mass: map<State, real>,
                         goal: State)
    returns (path: seq<State>, totalFuel: real)
    requires |plan.waypoints| > 0 && TablesOk(plan, cameFrom, g, mass) && goal in mass
    ensures |path| == Position(plan.waypoints, goal.waypoint) + 1
    ensures path[0] == StartState(plan) && path[|path| - 1] == goal
    ensures forall j :: 0 <= j < |path| ==> path[j] in mass && path[j].waypoint == plan.waypoints[j]
    ensures forall j :: 0 < j < |path| ==> path[j] in cameFrom && cameFrom[path[j]] == path[j - 1]
    ensures totalFuel == g[goal].value && totalFuel + mass[goal] == plan.initialMass
  {
    var wps := plan.waypoints;
    ghost var top := Position(wps, goal.waypoint);
    var current := goal;
    var reversed: seq<State> := [];
    totalFuel := 0.0;
    MassOfRecorded(plan, cameFrom, g, mass, goal);
    while current in cameFrom
      invariant current in mass && |reversed| + Position(wps, current.waypoint) == top
      invariant BackChain(wps, cameFrom, mass, reversed + [current], top)
      invariant (reversed + [current])[0] == goal
      invariant g[current].Finite? && totalFuel == g[goal].value - g[current].value
      decreases Position(wps, current.waypoint)
    {
      var previous := cameFrom[current];
      BackStep(plan, cameFrom, g, mass, reversed, current, top);
      reversed := reversed + [current];
      totalFuel := totalFuel + (g[current].value - g[previous].value);
      current := previous;
    }
    BackChainToStart(plan, cameFrom, g, mass, reversed, current, top);
    path := Reverse(reversed + [current]);
  }

  /** A recorded state has a finite cost and the initial mass less that
      cost. */
  lemma MassOfRecorded(plan: FlightPlan, cameFrom: map<State, State>, g: map<State, Cost>, mass: map<State, real>,
                       s: State)
    requires |plan.waypoints| > 0 && TablesOk(plan, cameFrom, g, mass) && s in mass
    ensures s in g && g[s].Finite? && mass[s] + g[s].value == plan.initialMass
  {
  }

  /** One step back along `came_from` extends the chain by a recorded state
      one waypoint earlier, whose cost is finite. */
  lemma BackStep(plan: FlightPlan, cameFrom: map<State, State>, g: map<State, Cost>, mass: map<State, real>,
                 reversed: seq<State>, current: State, top: int)
    requires |plan.waypoints| > 0 && TablesOk(plan, cameFrom, g, mass) && current in cameFrom
    requires BackChain(plan.waypoints, cameFrom, mass, reversed + [current], top)
    requires |reversed| + Position(plan.waypoints, current.waypoint) == top
    ensures var previous := cameFrom[current];
            && previous in mass && previous in g && g[previous].Finite?
            && |reversed + [current]| + Position(plan.waypoints, previous.waypoint) == top
            && BackChain(plan.waypoints, cameFrom, mass, reversed + [current] + [previous], top)
            && (reversed + [current] + [previous])[0] == (reversed + [current])[0]
  {
    var previous := cameFrom[current];
    assert previous in mass && Position(plan.waypoints, current.waypoint) == Position(plan.waypoints, previous.waypoint) + 1;
    MassOfRecorded(plan, cameFrom, g, mass, previous);
    BackChainExtend(plan.waypoints, cameFrom, mass, reversed + [current], top, previous);
  }

  /** The walk back stops at the start state, at position 0; reversed, the
      chain is then a route along the plan's waypoints from the first. */
  lemma BackChainToStart(plan: FlightPlan, cameFrom: map<State, State>, g: map<State, Cost>, mass: map<State, real>,
                         reversed: seq<State>, current: State, top: int)
    requires |plan.waypoints| > 0 && TablesOk(plan, cameFrom, g, mass) && current in mass && current !in cameFrom
    requires BackChain(plan.waypoints, cameFrom, mass, reversed + [current], top)
    requires |reversed| + Position(plan.waypoints, current.waypoint) == top
    ensures current == StartState(plan)
    ensures var path := Reverse(reversed + [current]);
            && |path| == top + 1
            && (forall j :: 0 <= j < |path| ==> path[j] in mass && path[j].waypoint == plan.waypoints[j])
            && (forall j :: 0 < j < |path| ==> path[j] in cameFrom && cameFrom[path[j]] == path[j - 1])
  {
    assert current in mass;
    forall s | s in mass
      ensures s.waypoint in plan.waypoints
    {
      MassOfRecorded(plan, cameFrom, g, mass, s);
    }
    BackChainReversed(plan.waypoints, cameFrom, mass, reversed + [current], top);
  }

  /** Termination weight of a state: 7 to the number of segments still to
      fly from its waypoint. Expanding a state pushes at most six states one
      waypoint further on. */
  function StateWeight(wps: seq<Waypoint>): State -> nat {
    (s: State) => StateRank(wps, s)
  }

  function StateRank(wps: seq<Waypoint>, s: State): nat {
    if s.waypoint in wps then Pow(7, |wps| - 1 - IndexOf(wps, s.waypoint)) else 0
  }

  /** Popping a state that is not at the last waypoint and pushing at most
      six states of the next waypoint makes the queue strictly lighter. */
  lemma ExpansionLighter(wps: seq<Waypoint>, queued: seq<Entry<State>>, m: nat, openSet: seq<Entry<State>>, index: nat)
    requires m < |queued| && queued[m].item.waypoint in wps
    requires index == IndexOf(wps, queued[m].item.waypoint) && index + 1 < |wps|
    requires IndexOf(wps, wps[index + 1]) == index + 1
    requires |queued| - 1 <= |openSet| <= |queued| - 1 + |FLIGHT_LEVELS|
    requires openSet[..|queued| - 1] == RemoveAt(queued, m)
    requires forall i :: |queued| - 1 <= i < |openSet| ==> openSet[i].item.waypoint == wps[index + 1]
    ensures Weight(openSet, StateWeight(wps)) < Weight(queued, StateWeight(wps))
  {
    var e := |wps| - 2 - index;
    var each := Pow(7, e);
    RankOfSuccessor(wps, queued[m].item, index, e);
    forall i | |queued| - 1 <= i < |openSet|
      ensures StateWeight(wps)(openSet[i].item) == each
    {
      RankAt(wps, openSet[i].item, index + 1, e);
    }
    PopAndPushLighter(queued, m, openSet, StateWeight(wps), 7, each);
  }

  lemma RankAt(wps: seq<Waypoint>, s: State, index: nat, e: nat)
    requires index < |wps| && s.waypoint == wps[index] && IndexOf(wps, wps[index]) == index
    requires e == |wps| - 1 - index
    ensures StateWeight(wps)(s) == Pow(7, e)
  {
  }

  lemma RankOfSuccessor(wps: seq<Waypoint>, s: State, index: nat, e: nat)
    requires s.waypoint in wps && index == IndexOf(wps, s.waypoint)
    requires e + 2 + index == |wps|
    ensures Pow(7, e) > 0 && StateWeight(wps)(s) == 7 * Pow(7, e)
  {
    PowPositive(7, e);
    assert |wps| - 1 - index == e + 1;
  }

  /** Popping a state without pushing anything makes the queue lighter. */
  lemma PopLighter(wps: seq<Waypoint>, queued: seq<Entry<State>>, m: nat)
    requires m < |queued| && queued[m].item.waypoint in wps
    ensures Weight(RemoveAt(queued, m), StateWeight(wps)) < Weight(queued, StateWeight(wps))
  {
    WeightRemoveAt(queued, m, StateWeight(wps));
    PowPositive(7, |wps| - 1 - IndexOf(wps, queued[m].item.waypoint));
  }

  /** The pairs of the plan's waypoints and the six levels. */
  function TableKeys(wps: seq<Waypoint>): (keys: set<State>)
    ensures forall s :: s in keys <==> InTable(wps, s)
  {
    set wp, level | wp in wps && level in FLIGHT_LEVELS :: State(wp, level)
  }

  /** A popped state that was not the goal: when it is not at the last
      waypoint, its expansion left the state of the next waypoint at the same
      level with a recorded mass. */
  ghost predicate Settled(plan: FlightPlan, s: State, mass: map<State, real>) {
    var wps := plan.waypoints;
    && s.waypoint in wps && s.waypoint != plan.destination
    && (IndexOf(wps, s.waypoint) + 1 < |wps| ==> State(wps[IndexOf(wps, s.waypoint) + 1], s.level) in mass)
  }

  /** Every popped state is settled. Instances come from `Settled` terms
      only: a popped state's successor is recorded, and a recorded state is
      popped or queued, so instances driven by membership would walk the
      plan without end. */
  ghost predicate AllSettled(plan: FlightPlan, popped: set<State>, mass: map<State, real>) {
    forall s {:trigger Settled(plan, s, mass)} :: s in popped ==> Settled(plan, s, mass)
  }

  /** Recording more states keeps the popped states settled. */
  lemma SettledGrows(plan: FlightPlan, popped: set<State>, current: State, mass: map<State, real>, mass': map<State, real>)
    requires AllSettled(plan, popped, mass) && mass.Keys <= mass'.Keys && Settled(plan, current, mass')
    ensures AllSettled(plan, popped + {current}, mass')
  {
    forall s | s in popped + {current}
      ensures Settled(plan, s, mass')
    {
      if s != current {
        assert Settled(plan, s, mass);
      }
    }
  }

  /** When the queue runs dry every recorded state has been popped and
      settled. Then the start state and, one waypoint at a time, its
      successors at the start level were all popped without being the goal:
      the destination is not on the plan. */
  lemma {:induction false} ExhaustedMissesDestination(plan: FlightPlan, mass: map<State, real>, popped: set<State>, i: nat)
    requires |plan.waypoints| > 0 && Distinct(plan.waypoints) && i < |plan.waypoints|
    requires StartState(plan) in mass && mass.Keys <= popped
    requires AllSettled(plan, popped, mass)
    ensures State(plan.waypoints[i], FLIGHT_LEVELS[START_LEVEL_INDEX]) in popped
    ensures forall j :: 0 <= j <= i ==> plan.waypoints[j] != plan.destination
  {
    var wps := plan.waypoints;
    if i > 0 {
      ExhaustedMissesDestination(plan, mass, popped, i - 1);
      IndexOfDistinct(wps, i - 1);
      assert Settled(plan, State(wps[i - 1], FLIGHT_LEVELS[START_LEVEL_INDEX]), mass);
    }
    assert Settled(plan, State(wps[i], FLIGHT_LEVELS[START_LEVEL_INDEX]), mass);
  }

  /** The loop invariant of the search: consistent tables, a queue of
      recorded states, and every recorded state either still queued or popped
      and settled. */
  ghost predicate SearchInv(plan: FlightPlan, t: Tables, popped: set<State>) {
    && |plan.waypoints| > 0
    && TablesOk(plan, t.cameFrom, t.g, t.mass) && QueueInMass(t.openSet, t.mass)
    && (forall s :: s in t.mass ==> s in popped || s in Items(t.openSet))
    && (AllSettled(plan, popped, t.mass))
  }

  /** The search invariant right after `current` was popped: `current` is
      recorded, and it counts as popped though it is not settled yet. */
  ghost predicate PoppedInv(plan: FlightPlan, t: Tables, popped: set<State>, current: State) {
    && |plan.waypoints| > 0
    && current in t.mass && InTable(plan.waypoints, current)
    && TablesOk(plan, t.cameFrom, t.g, t.mass) && QueueInMass(t.openSet, t.mass)
    && (forall s :: s in t.mass ==> s in popped + {current} || s in Items(t.openSet))
    && AllSettled(plan, popped, t.mass)
  }

  /** The tables `g_score`, `came_from` and `mass_at_node` start with. */
  function InitialTables(plan: FlightPlan): Tables
    requires |plan.waypoints| > 0
  {
    var start := StartState(plan);
    Tables(map[], (map s | s in TableKeys(plan.waypoints) :: Infinite)[start := Finite(0.0)],
           map[start := plan.initialMass], [Entry(0.0, start)])
  }

  /** The search starts with cost 0 at the start state, every other pair of
      a plan waypoint and a level at infinite cost, no other key in
      `g_score`, the start state alone with a mass (the initial one), no
      predecessors, and the start state alone on the queue at priority 0. */
  lemma InitialCosts(plan: FlightPlan)
    requires |plan.waypoints| > 0
    ensures var t := InitialTables(plan);
            && t.g.Keys == TableKeys(plan.waypoints)
            && (forall s :: s in t.g ==> (t.g[s] == Finite(0.0) <==> s == StartState(plan)))
            && (forall s :: s in t.g && s != StartState(plan) ==> t.g[s] == Infinite)
            && t.mass == map[StartState(plan) := plan.initialMass]
            && t.cameFrom == map[] && t.openSet == [Entry(0.0, StartState(plan))]
  {
    assert StartState(plan) in TableKeys(plan.waypoints);
  }

  lemma InitialSearchInv(plan: FlightPlan)
    requires |plan.waypoints| > 0
    ensures SearchInv(plan, InitialTables(plan), {})
  {
    var t := InitialTables(plan);
    ItemsMember(t.openSet, 0);
  }

  /** Popping the entry at `m` keeps the invariant once its state is counted
      as popped, though that state is not settled yet. */
  lemma PopKeepsInv(plan: FlightPlan, t: Tables, popped: set<State>, m: nat)
    requires SearchInv(plan, t, popped) && m < |t.openSet|
    ensures PoppedInv(plan, Tables(t.cameFrom, t.g, t.mass, RemoveAt(t.openSet, m)), popped, t.openSet[m].item)
  {
    ItemsRemoveAt(t.openSet, m);
  }

  /** A popped state at the last waypoint that is not the goal is settled as
      it is; the invariant then holds again. */
  lemma SkippedKeepsInv(plan: FlightPlan, t: Tables, popped: set<State>, current: State)
    requires PoppedInv(plan, t, popped, current) && current.waypoint != plan.destination
    requires IndexOf(plan.waypoints, current.waypoint) + 1 >= |plan.waypoints|
    ensures SearchInv(plan, t, popped + {current})
  {
    assert Settled(plan, current, t.mass);
    SettledGrows(plan, popped, current, t.mass, t.mass);
  }

  /** A popped state that is not the goal and not at the last waypoint is
      settled by its expansion; the invariant then holds again. */
  lemma ExpandedKeepsInv(plan: FlightPlan, t: Tables, popped: set<State>, current: State, nextWp: Waypoint,
                         burns: seq<Outcome<real>>, t': Tables)
    requires PoppedInv(plan, t, popped, current) && Distinct(plan.waypoints) && |burns| == |FLIGHT_LEVELS|
    requires current.waypoint != plan.destination
    requires IndexOf(plan.waypoints, current.waypoint) + 1 < |plan.waypoints|
    requires nextWp == plan.waypoints[IndexOf(plan.waypoints, current.waypoint) + 1]
    requires Expansion(current, t.mass[current], nextWp, burns, t, |FLIGHT_LEVELS|) == Ok(t')
    ensures SearchInv(plan, t', popped + {current})
    ensures |t.openSet| <= |t'.openSet| <= |t.openSet| + |FLIGHT_LEVELS| && t'.openSet[..|t.openSet|] == t.openSet
    ensures forall i :: |t.openSet| <= i < |t'.openSet| ==> t'.openSet[i].item.waypoint == nextWp
  {
    var wps := plan.waypoints;
    IndexOfDistinct(wps, IndexOf(wps, current.waypoint) + 1);
    assert Expandable(plan, current, t.mass[current], nextWp, t);
    ExpandedTables(plan, t, popped, current, nextWp, burns, t');
    ExpandedSettles(plan, t, popped, current, nextWp, burns, t');
  }

  /** The tables after an expansion are consistent, its queue extends the old
      one by states of `nextWp`, and every recorded state is popped or
      queued. */
  lemma ExpandedTables(plan: FlightPlan, t: Tables, popped: set<State>, current: State, nextWp: Waypoint,
                       burns: seq<Outcome<real>>, t': Tables)
    requires current in t.mass && Expandable(plan, current, t.mass[current], nextWp, t) && |burns| == |FLIGHT_LEVELS|
    requires forall s :: s in t.mass ==> s in popped + {current} || s in Items(t.openSet)
    requires Expansion(current, t.mass[current], nextWp, burns, t, |FLIGHT_LEVELS|) == Ok(t')
    ensures TablesOk(plan, t'.cameFrom, t'.g, t'.mass) && QueueInMass(t'.openSet, t'.mass)
    ensures forall s :: s in t'.mass ==> s in popped + {current} || s in Items(t'.openSet)
    ensures |t.openSet| <= |t'.openSet| <= |t.openSet| + |FLIGHT_LEVELS| && t'.openSet[..|t.openSet|] == t.openSet
    ensures forall i :: |t.openSet| <= i < |t'.openSet| ==> t'.openSet[i].item.waypoint == nextWp
  {
    var k := |FLIGHT_LEVELS|;
    var currentMass := t.mass[current];
    ExpansionKeepsTables(plan, current, currentMass, nextWp, burns, t, k);
    ExpansionPushesNext(current, currentMass, nextWp, burns, t, k);
    ExpansionRecordsQueued(current, currentMass, nextWp, burns, t, k);
    ItemsGrow(t.openSet, t'.openSet);
  }

  /** After an expansion the popped state is settled: its successor at its
      own level is recorded. */
  lemma ExpandedSettles(plan: FlightPlan, t: Tables, popped: set<State>, current: State, nextWp: Waypoint,
                        burns: seq<Outcome<real>>, t': Tables)
    requires current in t.mass && Expandable(plan, current, t.mass[current], nextWp, t) && |burns| == |FLIGHT_LEVELS|
    requires current.waypoint in plan.waypoints && current.waypoint != plan.destination
    requires current.level in FLIGHT_LEVELS
    requires IndexOf(plan.waypoints, current.waypoint) + 1 < |plan.waypoints|
    requires nextWp == plan.waypoints[IndexOf(plan.waypoints, current.waypoint) + 1]
    requires AllSettled(plan, popped, t.mass)
    requires Expansion(current, t.mass[current], nextWp, burns, t, |FLIGHT_LEVELS|) == Ok(t')
    ensures AllSettled(plan, popped + {current}, t'.mass)
  {
    var k := |FLIGHT_LEVELS|;
    var currentMass := t.mass[current];
    ExpansionRecordsQueued(current, currentMass, nextWp, burns, t, k);
    assert nextWp != current.waypoint && t.g[current].Finite?;
    ExpansionRecordsLevels(current, currentMass, nextWp, burns, t, k);
    var j :| 0 <= j < k && FLIGHT_LEVELS[j] == current.level;
    assert State(nextWp, FLIGHT_LEVELS[j]) in t'.mass;
    assert Settled(plan, current, t'.mass);
    SettledGrows(plan, popped, current, t.mass, t'.mass);
  }

  /** The fuel the model charges along `route`: each segment priced by
      `SegmentBurn` at the mass left after the segments before it, starting
      from the initial mass; the first exception is the route's outcome. */
  function RoutePrice(plan: FlightPlan, weather: WeatherData, world: World, route: seq<State>): Outcome<real>
    requires forall j :: 0 <= j < |route| ==> route[j].waypoint in world.coords
  {
    if |route| <= 1 then Ok(0.0)
    else
      match RoutePrice(plan, weather, world, route[..|route| - 1])
      case Raised(f) => Raised(f)
      case Ok(fuel) =>
        match SegmentBurn(plan, weather, world, route[|route| - 2].waypoint, route[|route| - 1].waypoint,
                          plan.initialMass - fuel, route[|route| - 1].level)
        case Raised(f) => Raised(f)
        case Ok(burn) => Ok(fuel + burn)
  }

  /** Every state of `route` is at one of the six flight levels. */
  predicate AtFlightLevels(route: seq<State>) {
    |route| == 0 || (AtFlightLevels(route[..|route| - 1]) && route[|route| - 1].level in FLIGHT_LEVELS)
  }

  lemma {:induction false} AtFlightLevelsIndex(route: seq<State>, j: nat)
    requires AtFlightLevels(route) && j < |route|
    ensures route[j].level in FLIGHT_LEVELS
  {
    if j < |route| - 1 {
      AtFlightLevelsIndex(route[..|route| - 1], j);
    }
  }

  /** `route` runs along the plan from the start state to `s`, at one of the
      six levels at every waypoint, and the model charges `cost` on it. */
  ghost predicate PricedRoute(plan: FlightPlan, weather: WeatherData, world: World, route: seq<State>, s: State,
                              cost: real)
    requires WellFormed(plan, world)
  {
    && 0 < |route| <= |plan.waypoints|
    && route[0] == StartState(plan) && route[|route| - 1] == s
    && (forall j {:trigger route[j]} :: 0 <= j < |route| ==> route[j].waypoint == plan.waypoints[j])
    && AtFlightLevels(route)
    && RoutePrice(plan, weather, world, route) == Ok(cost)
  }

  /** Every recorded state's cost is what the model charges along some route
      of the plan to it. */
  ghost predicate Priced(plan: FlightPlan, weather: WeatherData, world: World, g: map<State, Cost>,
                         mass: map<State, real>)
    requires WellFormed(plan, world)
  {
    && (forall s :: s in mass ==> s in g && g[s].Finite?)
    && (forall s {:trigger HasPricedRoute(plan, weather, world, s, g[s].value)} :: s in mass ==>
          HasPricedRoute(plan, weather, world, s, g[s].value))
  }

  /** Extending a priced route to `current` by the segment to `next`, at the
      mass `current` was recorded with, prices the segment by its burn. */
  lemma PricedRouteExtend(plan: FlightPlan, weather: WeatherData, world: World, route: seq<State>, current: State,
                          cost: real, next: State, burn: real)
    requires WellFormed(plan, world) && PricedRoute(plan, weather, world, route, current, cost)
    requires |route| < |plan.waypoints| && next.waypoint == plan.waypoints[|route|] && next.level in FLIGHT_LEVELS
    requires SegmentBurn(plan, weather, world, current.waypoint, next.waypoint, plan.initialMass - cost, next.level)
             == Ok(burn)
    ensures PricedRoute(plan, weather, world, route + [next], next, cost + burn)
  {
    var route' := route + [next];
    assert route'[..|route'| - 1] == route;
  }

  /** Some route of the plan to `s` is priced at `cost`. */
  ghost predicate HasPricedRoute(plan: FlightPlan, weather: WeatherData, world: World, s: State, cost: real)
    requires WellFormed(plan, world)
  {
    exists route :: PricedRoute(plan, weather, world, route, s, cost)
  }

  /** A state priced at `cost` whose plan successor `next` is reached by a
      segment burning `burn` at the mass left prices `next` at
      `cost + burn`. */
  lemma PricedStep(plan: FlightPlan, weather: WeatherData, world: World, current: State, cost: real, next: State,
                   burn: real)
    requires WellFormed(plan, world) && HasPricedRoute(plan, weather, world, current, cost)
    requires next.waypoint in plan.waypoints && next.level in FLIGHT_LEVELS
    requires Position(plan.waypoints, next.waypoint) == Position(plan.waypoints, current.waypoint) + 1
    requires SegmentBurn(plan, weather, world, current.waypoint, next.waypoint, plan.initialMass - cost, next.level)
             == Ok(burn)
    ensures HasPricedRoute(plan, weather, world, next, cost + burn)
  {
    var route :| PricedRoute(plan, weather, world, route, current, cost);
    PricedRouteReaches(plan, weather, world, route, current, cost, next);
    PricedRouteExtend(plan, weather, world, route, current, cost, next, burn);
  }

  /** A priced route to `current` ends at `current`'s position, so the
      plan's next waypoint is the one right after the route. */
  lemma PricedRouteReaches(plan: FlightPlan, weather: WeatherData, world: World, route: seq<State>, current: State,
                           cost: real, next: State)
    requires WellFormed(plan, world) && PricedRoute(plan, weather, world, route, current, cost)
    requires next.waypoint in plan.waypoints
    requires Position(plan.waypoints, next.waypoint) == Position(plan.waypoints, current.waypoint) + 1
    ensures |route| < |plan.waypoints| && next.waypoint == plan.waypoints[|route|]
  {
    IndexOfDistinct(plan.waypoints, |route| - 1);
  }

  /** Recording for `next` a cost it is priced at keeps every recorded cost
      priced. */
  lemma RecordPriced(plan: FlightPlan, weather: WeatherData, world: World, g: map<State, Cost>,
                     mass: map<State, real>, next: State, cost: real, newMass: real)
    requires WellFormed(plan, world) && Priced(plan, weather, world, g, mass)
    requires HasPricedRoute(plan, weather, world, next, cost)
    ensures Priced(plan, weather, world, g[next := Finite(cost)], mass[next := newMass])
  {
    var g', mass' := g[next := Finite(cost)], mass[next := newMass];
    forall s | s in mass'
      ensures s in g' && g'[s].Finite? && HasPricedRoute(plan, weather, world, s, g'[s].value)
    {
      if s != next {
        assert s in mass && g'[s] == g[s];
      }
    }
  }

  /** Each level's burn that comes back prices the successor at that level
      at `cost` plus the burn. */
  ghost predicate BurnsPriced(plan: FlightPlan, weather: WeatherData, world: World, nextWp: Waypoint, cost: real,
                              burns: seq<Outcome<real>>)
    requires WellFormed(plan, world)
  {
    forall j {:trigger burns[j]} :: 0 <= j < |burns| && j < |FLIGHT_LEVELS| && burns[j].Ok? ==>
      HasPricedRoute(plan, weather, world, State(nextWp, FLIGHT_LEVELS[j]), cost + burns[j].value)
  }

  /** The six burns out of a state priced at `cost`, at the mass left after
      burning `cost`, price each successor they reach. */
  lemma LevelBurnsPriced(plan: FlightPlan, weather: WeatherData, world: World, current: State, cost: real,
                         nextWp: Waypoint)
    requires WellFormed(plan, world) && HasPricedRoute(plan, weather, world, current, cost)
    requires current.waypoint in plan.waypoints && nextWp in plan.waypoints
    requires Position(plan.waypoints, nextWp) == Position(plan.waypoints, current.waypoint) + 1
    ensures BurnsPriced(plan, weather, world, nextWp, cost,
                        LevelBurns(plan, weather, world, current, plan.initialMass - cost, nextWp))
  {
    assert current.waypoint in world.coords && nextWp in world.coords;
    var burns := LevelBurns(plan, weather, world, current, plan.initialMass - cost, nextWp);
    forall j {:trigger burns[j]} | 0 <= j < |burns| && j < |FLIGHT_LEVELS| && burns[j].Ok?
      ensures HasPricedRoute(plan, weather, world, State(nextWp, FLIGHT_LEVELS[j]), cost + burns[j].value)
    {
      LevelPriced(plan, weather, world, current, cost, nextWp, j);
    }
  }

  /** The burn at level `FLIGHT_LEVELS[j]`, when it comes back, prices the
      successor at that level. */
  lemma LevelPriced(plan: FlightPlan, weather: WeatherData, world: World, current: State, cost: real,
                    nextWp: Waypoint, j: nat)
    requires WellFormed(plan, world) && HasPricedRoute(plan, weather, world, current, cost)
    requires current.waypoint in plan.waypoints && nextWp in plan.waypoints
    requires Position(plan.waypoints, nextWp) == Position(plan.waypoints, current.waypoint) + 1
    requires current.waypoint in world.coords && nextWp in world.coords && j < |FLIGHT_LEVELS|
    requires LevelBurns(plan, weather, world, current, plan.initialMass - cost, nextWp)[j].Ok?
    ensures HasPricedRoute(plan, weather, world, State(nextWp, FLIGHT_LEVELS[j]),
                           cost + LevelBurns(plan, weather, world, current, plan.initialMass - cost, nextWp)[j].value)
  {
    var next := State(nextWp, FLIGHT_LEVELS[j]);
    var burn := SegmentBurn(plan, weather, world, current.waypoint, nextWp, plan.initialMass - cost, next.level);
    assert LevelBurns(plan, weather, world, current, plan.initialMass - cost, nextWp)[j] == burn;
    PricedStep(plan, weather, world, current, cost, next, burn.value);
  }

  /** A turn of the loop, at level `FLIGHT_LEVELS[j]`, keeps every recorded
      cost priced, and the popped state's cost: a newly recorded successor is
      priced at the popped state's cost plus the burn. */
  lemma RelaxKeepsPriced(plan: FlightPlan, weather: WeatherData, world: World, current: State, currentMass: real,
                         cost: real, nextWp: Waypoint, burns: seq<Outcome<real>>, j: nat, t: Tables)
    requires WellFormed(plan, world) && Priced(plan, weather, world, t.g, t.mass)
    requires current in t.g && t.g[current] == Finite(cost) && nextWp != current.waypoint
    requires j < |burns| == |FLIGHT_LEVELS| && BurnsPriced(plan, weather, world, nextWp, cost, burns)
    ensures var r := Relax(current, currentMass, State(nextWp, FLIGHT_LEVELS[j]), burns[j], t);
            r.Ok? ==> Priced(plan, weather, world, r.value.g, r.value.mass) && current in r.value.g
                      && r.value.g[current] == Finite(cost)
  {
    var next, burn := State(nextWp, FLIGHT_LEVELS[j]), burns[j];
    var r := Relax(current, currentMass, next, burn, t);
    if r.Ok? && r.value != t {
      assert HasPricedRoute(plan, weather, world, next, cost + burn.value);
      RecordPriced(plan, weather, world, t.g, t.mass, next, cost + burn.value, currentMass - burn.value);
    }
  }

  /** The whole loop keeps every recorded cost priced, and the popped
      state's cost. */
  lemma {:induction false} ExpansionKeepsPriced(plan: FlightPlan, weather: WeatherData, world: World, current: State,
                                                currentMass: real, cost: real, nextWp: Waypoint,
                                                burns: seq<Outcome<real>>, t: Tables, k: nat)
    requires WellFormed(plan, world) && k <= |burns| == |FLIGHT_LEVELS| && nextWp != current.waypoint
    requires current in t.g && t.g[current] == Finite(cost) && Priced(plan, weather, world, t.g, t.mass)
    requires BurnsPriced(plan, weather, world, nextWp, cost, burns)
    ensures var r := Expansion(current, currentMass, nextWp, burns, t, k);
            r.Ok? ==> Priced(plan, weather, world, r.value.g, r.value.mass) && current in r.value.g
                      && r.value.g[current] == Finite(cost)
  {
    if k > 0 {
      ExpansionKeepsPriced(plan, weather, world, current, currentMass, cost, nextWp, burns, t, k - 1);
      var prev := Expansion(current, currentMass, nextWp, burns, t, k - 1);
      if prev.Ok? {
        RelaxKeepsPriced(plan, weather, world, current, currentMass, cost, nextWp, burns, k - 1, prev.value);
      }
    }
  }

  /** What `a_star_search` returns: the route (None when the heap ran dry)
      and its total fuel (`inf` then). */
  datatype SearchResult = SearchResult(path: Option<seq<State>>, totalFuel: Cost)

  /** A route that starts at the first waypoint at FL350 and follows the
      plan, at one of the six flight levels, up to the destination. */
  predicate FollowsPlan(plan: FlightPlan, path: seq<State>)
    requires |plan.waypoints| > 0
  {
    && 0 < |path| <= |plan.waypoints|
    && path[0] == StartState(plan) && path[|path| - 1].waypoint == plan.destination
    && forall j :: 0 <= j < |path| ==> path[j].waypoint == plan.waypoints[j] && path[j].level in FLIGHT_LEVELS
  }

  /** A route of the search: it follows the plan, each of its states is
      recorded, and each is the predecessor of the next. */
  ghost predicate RouteOk(plan: FlightPlan, cameFrom: map<State, State>, mass: map<State, real>, path: seq<State>)
    requires |plan.waypoints| > 0
  {
    && FollowsPlan(plan, path)
    && (forall j :: 0 <= j < |path| ==> path[j] in mass)
    && (forall j :: 0 < j < |path| ==> path[j] in cameFrom && cameFrom[path[j]] == path[j - 1])
  }

  /** A route rebuilt at the goal is a `RouteOk` route. */
  lemma RebuiltRouteOk(plan: FlightPlan, cameFrom: map<State, State>, g: map<State, Cost>, mass: map<State, real>,
                       goal: State, path: seq<State>)
    requires |plan.waypoints| > 0 && TablesOk(plan, cameFrom, g, mass) && goal in mass
    requires goal.waypoint == plan.destination
    requires |path| == Position(plan.waypoints, goal.waypoint) + 1
    requires path[0] == StartState(plan) && path[|path| - 1] == goal
    requires forall j :: 0 <= j < |path| ==> path[j] in mass && path[j].waypoint == plan.waypoints[j]
    requires forall j :: 0 < j < |path| ==> path[j] in cameFrom && cameFrom[path[j]] == path[j - 1]
    ensures RouteOk(plan, cameFrom, mass, path)
  {
    forall j | 0 <= j < |path|
      ensures path[j].level in FLIGHT_LEVELS
    {
      assert path[j] in g;
    }
  }

  /** One turn of the loop after the pop, for a state that is not the goal:
      `waypoints.index` of its waypoint, and unless that is the last one, the
      expansion to the next waypoint at all six levels. The tables change as
      `Expansion` says; the search invariant holds again with the state
      counted as popped, and the queue is lighter than before the pop. */
  method ExpandPopped(plan: FlightPlan, weather: WeatherData, world: World, current: State,
                      cameFrom: map<State, State>, g: map<State, Cost>, mass: map<State, real>,
                      openSet: seq<Entry<State>>, ghost popped: set<State>, ghost queued: seq<Entry<State>>, ghost m: nat)
    returns (failure: Option<Failure>, cameFrom': map<State, State>, g': map<State, Cost>,
             mass': map<State, real>, openSet': seq<Entry<State>>)
    requires WellFormed(plan, world)
    requires m < |queued| && current == queued[m].item && openSet == RemoveAt(queued, m)
    requires current.waypoint != plan.destination && PoppedInv(plan, Tables(cameFrom, g, mass, openSet), popped, current)
    requires Priced(plan, weather, world, g, mass)
    ensures var wps := plan.waypoints;
            var index := IndexOf(wps, current.waypoint);
            && (index + 1 >= |wps| ==> failure.None? && Tables(cameFrom', g', mass', openSet') == Tables(cameFrom, g, mass, openSet))
            && (index + 1 < |wps| ==>
                  var burns := LevelBurns(plan, weather, world, current, mass[current], wps[index + 1]);
                  var r := Expansion(current, mass[current], wps[index + 1], burns, Tables(cameFrom, g, mass, openSet), |FLIGHT_LEVELS|);
                  && (failure.None? ==> r == Ok(Tables(cameFrom', g', mass', openSet')))
                  && (failure.Some? ==> r == Raised(failure.value)))
    ensures failure.None? ==>
              && SearchInv(plan, Tables(cameFrom', g', mass', openSet'), popped + {current})
              && Weight(openSet', StateWeight(plan.waypoints)) < Weight(queued, StateWeight(plan.waypoints))
    ensures failure.None? ==> Priced(plan, weather, world, g', mass')
    ensures AlwaysRaises(world) && IndexOf(plan.waypoints, current.waypoint) + 1 < |plan.waypoints| ==>
              failure == Some(FuelModelRaised)
    ensures AlwaysAnswers(world) && GroundSpeedNonZero(plan, weather) ==> failure.None?
  {
    var wps := plan.waypoints;
    var index := IndexOf(wps, current.waypoint);
    if index + 1 >= |wps| {
      PopLighter(wps, queued, m);
      SkippedKeepsInv(plan, Tables(cameFrom, g, mass, openSet), popped, current);
      return None, cameFrom, g, mass, openSet;
    }
    failure, cameFrom', g', mass', openSet' := ExpandSuccessors(plan, weather, world, current, index, cameFrom, g, mass,
                                                                openSet, popped, queued, m);
  }

  /** The expansion of a popped state at position `index` below the last
      waypoint: `ExpandLevels` towards waypoint `index + 1`, which keeps the
      search invariant and makes the queue lighter than before the pop. */
  method ExpandSuccessors(plan: FlightPlan, weather: WeatherData, world: World, current: State, index: nat,
                          cameFrom: map<State, State>, g: map<State, Cost>, mass: map<State, real>,
                          openSet: seq<Entry<State>>, ghost popped: set<State>, ghost queued: seq<Entry<State>>,
                          ghost m: nat)
    returns (failure: Option<Failure>, cameFrom': map<State, State>, g': map<State, Cost>,
             mass': map<State, real>, openSet': seq<Entry<State>>)
    requires WellFormed(plan, world)
    requires m < |queued| && current == queued[m].item && openSet == RemoveAt(queued, m)
    requires current.waypoint != plan.destination && PoppedInv(plan, Tables(cameFrom, g, mass, openSet), popped, current)
    requires index == IndexOf(plan.waypoints, current.waypoint) && index + 1 < |plan.waypoints|
    requires Priced(plan, weather, world, g, mass)
    ensures var nextWp := plan.waypoints[index + 1];
            var burns := LevelBurns(plan, weather, world, current, mass[current], nextWp);
            var r := Expansion(current, mass[current], nextWp, burns, Tables(cameFrom, g, mass, openSet), |FLIGHT_LEVELS|);
            && (failure.None? ==> r == Ok(Tables(cameFrom', g', mass', openSet')))
            && (failure.Some? ==> r == Raised(failure.value))
    ensures failure.None? ==>
              && SearchInv(plan, Tables(cameFrom', g', mass', openSet'), popped + {current})
              && Weight(openSet', StateWeight(plan.waypoints)) < Weight(queued, StateWeight(plan.waypoints))
    ensures failure.None? ==> Priced(plan, weather, world, g', mass')
    ensures AlwaysRaises(world) ==> failure == Some(FuelModelRaised)
    ensures AlwaysAnswers(world) && GroundSpeedNonZero(plan, weather) ==> failure.None?
  {
    var wps := plan.waypoints;
    var currentMass := mass[current];
    var nextWp := wps[index + 1];
    ghost var before := Tables(cameFrom, g, mass, openSet);
    ghost var burns := LevelBurns(plan, weather, world, current, currentMass, nextWp);
    failure, cameFrom', g', mass', openSet' := ExpandLevels(plan, weather, world, current, currentMass, nextWp,
                                                            cameFrom, g, mass, openSet);
    IndexOfDistinct(wps, index + 1);
    if AlwaysRaises(world) {
      FirstBurnRaises(plan, weather, world, current, currentMass, nextWp);
      ExpansionFirstRaises(current, currentMass, nextWp, burns, before);
    }
    if AlwaysAnswers(world) && GroundSpeedNonZero(plan, weather) {
      LevelBurnsOk(plan, weather, world, current, currentMass, nextWp);
      ExpansionOk(current, currentMass, nextWp, burns, before, |FLIGHT_LEVELS|);
    }
    if failure.None? {
      ExpandedKeepsInv(plan, before, popped, current, nextWp, burns, Tables(cameFrom', g', mass', openSet'));
      ExpansionLighter(wps, queued, m, openSet', index);
      ExpandedPriced(plan, weather, world, current, nextWp, before, Tables(cameFrom', g', mass', openSet'));
    }
  }

  /** An expansion that did not raise keeps every recorded cost priced. */
  lemma ExpandedPriced(plan: FlightPlan, weather: WeatherData, world: World, current: State, nextWp: Waypoint,
                       t: Tables, t': Tables)
    requires WellFormed(plan, world) && Priced(plan, weather, world, t.g, t.mass)
    requires current in t.mass && MassOk(plan.initialMass, t.g, t.mass)
    requires current.waypoint in plan.waypoints && nextWp in plan.waypoints
    requires Position(plan.waypoints, nextWp) == Position(plan.waypoints, current.waypoint) + 1
    requires var burns := LevelBurns(plan, weather, world, current, t.mass[current], nextWp);
             Expansion(current, t.mass[current], nextWp, burns, t, |FLIGHT_LEVELS|) == Ok(t')
    ensures Priced(plan, weather, world, t'.g, t'.mass)
  {
    var cost := t.g[current].value;
    var currentMass := t.mass[current];
    assert currentMass == plan.initialMass - cost;
    LevelBurnsPriced(plan, weather, world, current, cost, nextWp);
    var burns := LevelBurns(plan, weather, world, current, currentMass, nextWp);
    ExpansionKeepsPriced(plan, weather, world, current, currentMass, cost, nextWp, burns, t, |FLIGHT_LEVELS|);
  }

  /** Before the first pop the queue and mass table are as initialised. A
      plan starting at its destination, or a fuel model that always raises on
      a plan of several waypoints, never gets past the first pop. */
  ghost predicate BeforeFirstPop(plan: FlightPlan, world: World, t: Tables, popped: set<State>)
    requires |plan.waypoints| > 0
  {
    && (popped == {} ==> t.openSet == [Entry(0.0, StartState(plan))] && t.mass == map[StartState(plan) := plan.initialMass])
    && (AlwaysRaises(world) && |plan.waypoints| > 1 && plan.waypoints[0] != plan.destination ==> popped == {})
    && (plan.waypoints[0] == plan.destination ==> popped == {})
  }

  /** The loop invariant of `AStarSearch`. */
  ghost predicate Searching(plan: FlightPlan, world: World, t: Tables, popped: set<State>) {
    && |plan.waypoints| > 0
    && SearchInv(plan, t, popped)
    && BeforeFirstPop(plan, world, t, popped)
  }

  /** The first pop takes the start state, recorded at the initial mass. */
  lemma FirstPop(plan: FlightPlan, world: World, t: Tables, popped: set<State>, m: nat)
    requires |plan.waypoints| > 0 && BeforeFirstPop(plan, world, t, popped)
    requires Distinct(plan.waypoints) && m < |t.openSet|
    ensures popped == {} ==>
              && t.openSet[m].item == StartState(plan) && t.mass[StartState(plan)] == plan.initialMass
              && IndexOf(plan.waypoints, plan.waypoints[0]) == 0
  {
    if popped == {} {
      IndexOfDistinct(plan.waypoints, 0);
    }
  }

  /** What `a_star_search` promises of its result: a route follows the plan
      to the destination at a finite cost; no route means `inf`, and comes
      only when the destination is not on the plan; a plan that starts at its
      destination gives the start state at cost 0; a fuel model that always
      raises makes a longer plan raise, and one that always answers, with no
      head wind cancelling the airspeed, lets the search finish. A route's
      total fuel is what the model charges along some route of the plan to
      the route's last state. */
  ghost predicate SearchOutcome(plan: FlightPlan, weather: WeatherData, world: World, r: Outcome<SearchResult>)
    requires WellFormed(plan, world)
  {
    && (r.Ok? && r.value.path.Some? ==>
          && FollowsPlan(plan, r.value.path.value) && r.value.totalFuel.Finite?
          && HasPricedRoute(plan, weather, world, r.value.path.value[|r.value.path.value| - 1], r.value.totalFuel.value))
    && (r.Ok? && r.value.path.None? ==> r.value.totalFuel == Infinite && plan.destination !in plan.waypoints)
    && (plan.waypoints[0] == plan.destination ==> r == Ok(SearchResult(Some([StartState(plan)]), Finite(0.0))))
    && (AlwaysRaises(world) && |plan.waypoints| > 1 && plan.waypoints[0] != plan.destination ==>
          r == Raised(FuelModelRaised))
    && (AlwaysAnswers(world) && GroundSpeedNonZero(plan, weather) ==> r.Ok?)
  }

  /** What a returned route is in the tables the search ended with: a
      `RouteOk` route whose total fuel is the initial mass less the mass
      recorded at its end. */
  ghost predicate SearchTables(plan: FlightPlan, r: Outcome<SearchResult>,
                               cameFrom: map<State, State>, mass: map<State, real>)
    requires |plan.waypoints| > 0
  {
    r.Ok? && r.value.path.Some? ==>
      var path := r.value.path.value;
      && RouteOk(plan, cameFrom, mass, path)
      && r.value.totalFuel == Finite(plan.initialMass - mass[path[|path| - 1]])
  }

  /** At the start only the start state is recorded, at cost 0: the route of
      the start state alone costs nothing. */
  lemma InitialPriced(plan: FlightPlan, weather: WeatherData, world: World)
    requires WellFormed(plan, world)
    ensures Priced(plan, weather, world, InitialTables(plan).g, InitialTables(plan).mass)
  {
    var start := StartState(plan);
    assert [start][..0] == [];
    assert AtFlightLevels([start]);
    assert RoutePrice(plan, weather, world, [start]) == Ok(0.0);
    assert PricedRoute(plan, weather, world, [start], start, 0.0);
  }

  /** The answer at the goal: the rebuilt route, and its fuel. */
  lemma FoundAnswer(plan: FlightPlan, weather: WeatherData, world: World, t: Tables, popped: set<State>, m: nat,
                    path: seq<State>, totalFuel: real)
    requires WellFormed(plan, world) && BeforeFirstPop(plan, world, t, popped)
    requires MassOk(plan.initialMass, t.g, t.mass) && Priced(plan, weather, world, t.g, t.mass)
    requires m < |t.openSet|
    requires var goal := t.openSet[m].item;
             && goal in t.mass && goal.waypoint == plan.destination
             && RouteOk(plan, t.cameFrom, t.mass, path)
             && |path| == Position(plan.waypoints, goal.waypoint) + 1 && path[|path| - 1] == goal
             && totalFuel + t.mass[goal] == plan.initialMass
    ensures SearchOutcome(plan, weather, world, Ok(SearchResult(Some(path), Finite(totalFuel))))
    ensures SearchTables(plan, Ok(SearchResult(Some(path), Finite(totalFuel))), t.cameFrom, t.mass)
  {
    FirstPop(plan, world, t, popped, m);
    var goal := t.openSet[m].item;
    assert totalFuel == t.g[goal].value;
    if plan.waypoints[0] == plan.destination {
      assert t.openSet[m].item == StartState(plan);
      assert Position(plan.waypoints, plan.waypoints[0]) == 0;
      assert path == [StartState(plan)];
    }
  }

  /** The answer when an expansion raised. */
  lemma RaisedAnswer(plan: FlightPlan, weather: WeatherData, world: World, t: Tables, popped: set<State>, m: nat,
                     failure: Failure)
    requires WellFormed(plan, world) && BeforeFirstPop(plan, world, t, popped)
    requires m < |t.openSet|
    requires t.openSet[m].item.waypoint in plan.waypoints && t.openSet[m].item.waypoint != plan.destination
    requires AlwaysRaises(world) && IndexOf(plan.waypoints, t.openSet[m].item.waypoint) + 1 < |plan.waypoints| ==>
               failure == FuelModelRaised
    requires !(AlwaysAnswers(world) && GroundSpeedNonZero(plan, weather))
    ensures SearchOutcome(plan, weather, world, Raised(failure))
  {
    FirstPop(plan, world, t, popped, m);
  }

  /** The invariant after a turn that neither returned nor raised. */
  lemma ContinueSearching(plan: FlightPlan, world: World, t: Tables, popped: set<State>, m: nat, t': Tables)
    requires |plan.waypoints| > 0 && BeforeFirstPop(plan, world, t, popped)
    requires Distinct(plan.waypoints) && m < |t.openSet|
    requires t.openSet[m].item.waypoint in plan.waypoints && t.openSet[m].item.waypoint != plan.destination
    requires !(AlwaysRaises(world) && IndexOf(plan.waypoints, t.openSet[m].item.waypoint) + 1 < |plan.waypoints|)
    requires SearchInv(plan, t', popped + {t.openSet[m].item})
    ensures Searching(plan, world, t', popped + {t.openSet[m].item})
  {
    FirstPop(plan, world, t, popped, m);
  }

  /** `a_star_search`: a uniform-cost search from (waypoints[0], FL350) at
      cost 0 and the initial mass, every other pair at infinite cost. A
      returned route follows the plan to the destination; in the tables the
      search ended with it is a `RouteOk` route whose total fuel is the
      initial mass minus the mass recorded at its end. No route (and
      `inf`) comes back only when the destination is not on the plan, since
      every state at FL350 along the plan gets popped otherwise. A plan that
      starts at its destination returns the start state at cost 0; a fuel
      model that always raises makes the first expansion raise. */
  method AStarSearch(plan: FlightPlan, weather: WeatherData, world: World)
    returns (r: Outcome<SearchResult>, ghost cameFromOut: map<State, State>, ghost massOut: map<State, real>)
    requires WellFormed(plan, world)
    ensures SearchOutcome(plan, weather, world, r)
    ensures SearchTables(plan, r, cameFromOut, massOut)
  {
    var wps := plan.waypoints;
    var t0 := InitialTables(plan);
    var openSet, cameFrom, g, mass := t0.openSet, t0.cameFrom, t0.g, t0.mass;
    ghost var popped: set<State> := {};
    InitialSearchInv(plan);
    InitialPriced(plan, weather, world);
    while openSet != []
      invariant Searching(plan, world, Tables(cameFrom, g, mass, openSet), popped)
      invariant Priced(plan, weather, world, g, mass)
      decreases Weight(openSet, StateWeight(wps))
    {
      var m := MinIndex(openSet);
      var current := openSet[m].item;
      ghost var before := Tables(cameFrom, g, mass, openSet);
      PopKeepsInv(plan, before, popped, m);
      openSet := RemoveAt(openSet, m);
      if current.waypoint == plan.destination {
        var path, totalFuel := ReconstructPath(plan, cameFrom, g, mass, current);
        RebuiltRouteOk(plan, cameFrom, g, mass, current, path);
        r := Ok(SearchResult(Some(path), Finite(totalFuel)));
        FoundAnswer(plan, weather, world, before, popped, m, path, totalFuel);
        return r, cameFrom, mass;
      }
      var failure;
      failure, cameFrom, g, mass, openSet := ExpandPopped(plan, weather, world, current, cameFrom, g, mass, openSet,
                                                          popped, before.openSet, m);
      if failure.Some? {
        r := Raised(failure.value);
        RaisedAnswer(plan, weather, world, before, popped, m, failure.value);
        return r, cameFrom, mass;
      }
      ContinueSearching(plan, world, before, popped, m, Tables(cameFrom, g, mass, openSet));
      popped := popped + {current};
    }
    ExhaustedMissesDestination(plan, mass, popped, |wps| - 1);
    r := Ok(SearchResult(None, Infinite));
    return r, cameFrom, mass;
  }
}
