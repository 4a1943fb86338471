/** The standalone ("notebook style") optimizer: an A*-style search over
    (waypoint, altitude) states where the altitude moves by -2000, 0 or
    +2000 ft per segment inside 29000..41000 ft, a fixed-altitude baseline,
    and the record that compares the two. */
module NotebookRunner {
  import opened Common

  type Waypoint = string

  /** A `g_scores` key: a waypoint and an altitude in feet. */
  type Key = (Waypoint, int)

  const START_ALTITUDE: int := 35000
  const MIN_ALTITUDE: int := 29000
  const MAX_ALTITUDE: int := 41000
  /** Tried in this order: descend, cruise, climb. */
  const ALTITUDE_CHANGES: seq<int> := [-2000, 0, 2000]
  /** The heuristic's charge per segment still to fly. */
  const HEURISTIC_PER_SEGMENT: int := 2000
  const START_LABEL: string := "start"
  const BASELINE_ALTITUDE: int := 35000
  const FAILURE_MESSAGE: string := "Optimization failed to find a valid path."
  const RATIONALE: string := "The optimized route adjusts altitudes based on weather and aircraft weight to minimize fuel consumption at each segment."

  /** The arguments of OpenAP's `FuelFlow(ac, mass).enroute(alt, dist, temp_dev)`. */
  datatype EnrouteQuery = EnrouteQuery(aircraft: string, massKg: real, altitudeFt: int, distanceNm: real, tempIsaDev: real)

  /** Configuration the optimizer reads but does not own: the coordinate table,
      the great-circle distance in nautical miles, and the fuel model, whose
      `None` stands for an exception raised inside OpenAP. */
  datatype World = World(
    coords: map<Waypoint, Coord>,
    haversine: (Coord, Coord) -> real,
    enroute: EnrouteQuery -> Option<real>)

  /** `weather_data`: ISA deviation per waypoint and altitude. */
  type Weather = map<Waypoint, map<int, real>>

  /** The arguments of `a_star_search` together with the configuration it reads. */
  datatype Problem = Problem(waypoints: seq<Waypoint>, aircraft: string, initialMass: real, weather: Weather, world: World)

  /** What the search needs of its input: a first waypoint to start from,
      waypoints that identify their position (states are keyed by name), and
      coordinates for every waypoint (otherwise Python raises `KeyError`). */
  predicate WellFormed(p: Problem) {
    && |p.waypoints| > 0
    && Distinct(p.waypoints)
    && forall i :: 0 <= i < |p.waypoints| ==> p.waypoints[i] in p.world.coords
  }

  function SegmentDistance(world: World, from: Waypoint, to: Waypoint): real
    requires from in world.coords && to in world.coords
  {
    world.haversine(world.coords[from], world.coords[to])
  }

  /** The ISA deviation the weather gives a waypoint at an altitude; zero
      when either the waypoint or the altitude has no entry. */
  function TempDeviation(weather: Weather, wp: Waypoint, altitude: int): real {
    if wp in weather && altitude in weather[wp] then weather[wp][altitude] else 0.0
  }

  /** `calculate_fuel_burn`: the fuel model's answer, or infinity when it raises. */
  function CalculateFuelBurn(world: World, aircraft: string, mass: real, altitude: int, distance: real, tempDev: real): (burn: Cost)
    ensures burn.Infinite? <==> world.enroute(EnrouteQuery(aircraft, mass, altitude, distance, tempDev)).None?
    ensures burn.Finite? ==> world.enroute(EnrouteQuery(aircraft, mass, altitude, distance, tempDev)) == Some(burn.value)
  {
    match world.enroute(EnrouteQuery(aircraft, mass, altitude, distance, tempDev))
    case Some(kg) => Finite(kg)
    case None => Infinite
  }

  /** One altitude move the search may make between consecutive waypoints. */
  predicate AltitudeStep(from: int, to: int) {
    to - from in ALTITUDE_CHANGES && MIN_ALTITUDE <= to <= MAX_ALTITUDE
  }

  /** `h_score` of a node pushed at `nextIndex` on a plan of `count` waypoints. */
  function Heuristic(count: nat, nextIndex: nat): (h: int)
    ensures nextIndex < count ==> h >= 0
    ensures h == 0 <==> nextIndex + 1 == count
  {
    (count - 1 - nextIndex) * HEURISTIC_PER_SEGMENT
  }

  /** One element of the route the search returns: label, altitude, fuel burned
      on the incoming segment, mass after it. */
  datatype RouteEntry = RouteEntry(waypoint: string, altitude: int, burn: real, mass: real)

  function StartEntry(initialMass: real): RouteEntry {
    RouteEntry(START_LABEL, START_ALTITUDE, 0.0, initialMass)
  }

  /** Entry `cur` at position `j` follows `prev` the way the search prices a
      segment: it names waypoint j, makes one altitude move, carries the fuel
      model's (finite) answer for the previous mass, and the mass drops by it. */
  predicate SegmentOk(p: Problem, j: nat, prev: RouteEntry, cur: RouteEntry)
    requires WellFormed(p) && 0 < j < |p.waypoints|
  {
    && cur.waypoint == p.waypoints[j]
    && AltitudeStep(prev.altitude, cur.altitude)
    && p.world.enroute(EnrouteQuery(p.aircraft, prev.mass, cur.altitude,
         SegmentDistance(p.world, p.waypoints[j - 1], p.waypoints[j]),
         TempDeviation(p.weather, p.waypoints[j], cur.altitude))) == Some(cur.burn)
    && cur.mass == prev.mass - cur.burn
  }

  /** A route from the start entry through the first |route| waypoints. */
  predicate RoutePrefix(p: Problem, route: seq<RouteEntry>)
    requires WellFormed(p)
  {
    && 0 < |route| <= |p.waypoints|
    && route[0] == StartEntry(p.initialMass)
    && forall j :: 0 < j < |route| ==> SegmentOk(p, j, route[j - 1], route[j])
  }

  /** A route through every waypoint of the plan. */
  predicate CompleteRoute(p: Problem, route: seq<RouteEntry>)
    requires WellFormed(p)
  {
    RoutePrefix(p, route) && |route| == |p.waypoints|
  }

  /** The fuel recorded along a route. */
  function RouteFuel(route: seq<RouteEntry>): real {
    if route == [] then 0.0 else RouteFuel(route[..|route| - 1]) + route[|route| - 1].burn
  }

  lemma {:induction false} RoutePrefixShorter(p: Problem, route: seq<RouteEntry>, k: nat)
    requires WellFormed(p) && RoutePrefix(p, route) && 0 < k <= |route|
    ensures RoutePrefix(p, route[..k])
  {
    forall j | 0 < j < k
      ensures SegmentOk(p, j, route[..k][j - 1], route[..k][j])
    {
      assert route[..k][j - 1] == route[j - 1] && route[..k][j] == route[j];
    }
  }

  /** Along a route the mass telescopes: the last mass is the initial mass
      minus the fuel recorded on the route. */
  lemma {:induction false} RouteMassConservation(p: Problem, route: seq<RouteEntry>)
    requires WellFormed(p) && RoutePrefix(p, route)
    ensures route[|route| - 1].mass == p.initialMass - RouteFuel(route)
  {
    var k := |route|;
    if k > 1 {
      RoutePrefixShorter(p, route, k - 1);
      RouteMassConservation(p, route[..k - 1]);
      assert SegmentOk(p, k - 1, route[k - 2], route[k - 1]);
    }
  }

  /** Along a route every altitude lies in 29000..41000 ft, and the first
      entry is labelled 'start' while entry j names waypoint j. */
  lemma RouteShape(p: Problem, route: seq<RouteEntry>)
    requires WellFormed(p) && RoutePrefix(p, route)
    ensures forall j :: 0 <= j < |route| ==> MIN_ALTITUDE <= route[j].altitude <= MAX_ALTITUDE
    ensures route[0].waypoint == START_LABEL
    ensures forall j :: 0 < j < |route| ==> route[j].waypoint == p.waypoints[j]
  {
    forall j | 0 < j < |route|
      ensures MIN_ALTITUDE <= route[j].altitude <= MAX_ALTITUDE && route[j].waypoint == p.waypoints[j]
    {
      assert SegmentOk(p, j, route[j - 1], route[j]);
    }
  }

  /** A node on the heap: waypoint, altitude, waypoint index, mass, route so far. */
  datatype Node = Node(waypoint: Waypoint, altitude: int, index: nat, mass: real, path: seq<RouteEntry>)

  function KeyOf(n: Node): Key {
    (n.waypoint, n.altitude)
  }

  /** What holds of every node on the heap: it sits at its waypoint index with
      one route entry per waypoint so far, its altitude and mass are those of
      its last entry, and its key's g-score is no more than the fuel on its
      own route (the score can only have improved since it was pushed). */
  predicate NodeOk(p: Problem, g: map<Key, real>, n: Node)
    requires WellFormed(p)
  {
    && n.index < |p.waypoints|
    && n.waypoint == p.waypoints[n.index]
    && |n.path| == n.index + 1
    && RoutePrefix(p, n.path)
    && n.altitude == n.path[n.index].altitude
    && n.mass == n.path[n.index].mass
    && KeyOf(n) in g
    && g[KeyOf(n)] <= RouteFuel(n.path)
  }

  predicate QueueOk(p: Problem, g: map<Key, real>, q: seq<Entry<Node>>)
    requires WellFormed(p)
  {
    forall i :: 0 <= i < |q| ==> NodeOk(p, g, q[i].item)
  }

  /** The keys of the nodes on a queue. */
  function KeysOf(q: seq<Entry<Node>>): set<Key> {
    set n | n in Items(q) :: KeyOf(n)
  }

  lemma KeysOfMember(q: seq<Entry<Node>>, i: nat)
    requires i < |q|
    ensures KeyOf(q[i].item) in KeysOf(q)
  {
    ItemsMember(q, i);
  }

  lemma KeysOfGrow(q: seq<Entry<Node>>, q': seq<Entry<Node>>)
    requires |q| <= |q'| && q'[..|q|] == q
    ensures KeysOf(q) <= KeysOf(q')
  {
    ItemsGrow(q, q');
  }

  lemma KeysOfRemoveAt(q: seq<Entry<Node>>, m: nat)
    requires m < |q|
    ensures KeysOf(q) <= KeysOf(RemoveAt(q, m)) + {KeyOf(q[m].item)}
  {
    ItemsRemoveAt(q, m);
  }

  /** The fuel model answers every query: OpenAP never raises. */
  ghost predicate Answers(world: World) {
    forall q :: world.enroute(q).Some?
  }

  /** `e` is what expanding `current` pushes: the next waypoint at an allowed
      altitude, the route extended by one entry, the mass reduced by that
      entry's burn, and priority g plus the per-remaining-segment heuristic. */
  predicate PushedFrom(p: Problem, g: map<Key, real>, current: Node, e: Entry<Node>)
    requires WellFormed(p)
  {
    && e.item.index == current.index + 1
    && AltitudeStep(current.altitude, e.item.altitude)
    && |e.item.path| == |current.path| + 1
    && e.item.path[..|current.path|] == current.path
    && e.item.mass == current.mass - e.item.path[|current.path|].burn
    && KeyOf(e.item) in g
    && e.priority == g[KeyOf(e.item)] + Heuristic(|p.waypoints|, e.item.index) as real
  }

  /** Termination weight of a node: 4 to the number of segments still to fly.
      Expanding a node pushes at most three nodes one segment further on. */
  function NodeWeight(count: nat): Node -> nat {
    (n: Node) => NodeRank(count, n)
  }

  function NodeRank(count: nat, n: Node): nat {
    if n.index < count then Pow(4, count - 1 - n.index) else 0
  }

  /** The key move `ALTITUDE_CHANGES[k]` leads `current` to. */
  function MoveTarget(p: Problem, current: Node, k: nat): Key
    requires current.index + 1 < |p.waypoints| && k < |ALTITUDE_CHANGES|
  {
    (p.waypoints[current.index + 1], current.altitude + ALTITUDE_CHANGES[k])
  }

  /** The fuel model's answer for the segment from `current` to `target`. */
  function MoveBurn(p: Problem, current: Node, target: Key): Cost
    requires WellFormed(p) && current.index + 1 < |p.waypoints|
    requires current.waypoint in p.world.coords && target.0 in p.world.coords
  {
    CalculateFuelBurn(p.world, p.aircraft, current.mass, target.1,
      SegmentDistance(p.world, current.waypoint, target.0), TempDeviation(p.weather, target.0, target.1))
  }

  /** The node one segment on from `current`, at `target`, after burning `burn`. */
  function Successor(current: Node, target: Key, burn: real): Node {
    var mass := current.mass - burn;
    Node(target.0, target.1, current.index + 1, mass, current.path + [RouteEntry(target.0, target.1, burn, mass)])
  }

  /** The scores and the queue after one turn of the `for alt_change` loop.
      Scores never rise and keys are never dropped. The tables change
      exactly when the move stays inside 29000..41000 ft, the fuel model
      answers, and the g-score through `current` is strictly below the
      recorded one; then the target alone gets that score and its node is
      pushed at that score plus the heuristic. In particular, a target the
      move may fly to and the model prices ends up with a score once
      `current` has one. */
  function Move(p: Problem, current: Node, k: nat, g: map<Key, real>, openSet: seq<Entry<Node>>)
    : (r: (map<Key, real>, seq<Entry<Node>>))
    requires WellFormed(p) && current.index + 1 < |p.waypoints| && current.waypoint in p.world.coords
    requires k < |ALTITUDE_CHANGES|
    ensures g.Keys <= r.0.Keys
    ensures forall key :: key in g ==> r.0[key] <= g[key]
    ensures var target := MoveTarget(p, current, k);
      var burn := MoveBurn(p, current, target);
      (r != (g, openSet) <==>
         && AltitudeStep(current.altitude, target.1)
         && burn.Finite?
         && GetOrInfinite(g, KeyOf(current)).Plus(burn.value).Less(GetOrInfinite(g, target)))
    ensures var target := MoveTarget(p, current, k);
      var burn := MoveBurn(p, current, target);
      r != (g, openSet) ==>
        && burn.Finite? && KeyOf(current) in g
        && r.0 == g[target := g[KeyOf(current)] + burn.value]
        && r.1 == openSet + [Entry(r.0[target] + Heuristic(|p.waypoints|, current.index + 1) as real,
                                   Successor(current, target, burn.value))]
    ensures var target := MoveTarget(p, current, k);
      (AltitudeStep(current.altitude, target.1) && MoveBurn(p, current, target).Finite? && KeyOf(current) in g)
        ==> target in r.0
  {
    var target := MoveTarget(p, current, k);
    if !(MIN_ALTITUDE <= target.1 <= MAX_ALTITUDE) then (g, openSet)
    else
      var burn := MoveBurn(p, current, target);
      if burn.Infinite? then (g, openSet)
      else
        var newG := GetOrInfinite(g, KeyOf(current)).Plus(burn.value);
        if !newG.Less(GetOrInfinite(g, target)) then (g, openSet)
        else
          var g' := g[target := newG.value];
          (g', openSet + [Entry(newG.value + Heuristic(|p.waypoints|, current.index + 1) as real,
                                Successor(current, target, burn.value))])
  }

  /** The scores and the queue after the first `k` turns of the
      `for alt_change` loop. Keys are never dropped and the queue only grows
      at its end. */
  function Moves(p: Problem, current: Node, g: map<Key, real>, openSet: seq<Entry<Node>>, k: nat)
    : (r: (map<Key, real>, seq<Entry<Node>>))
    requires WellFormed(p) && current.index + 1 < |p.waypoints| && current.waypoint in p.world.coords
    requires k <= |ALTITUDE_CHANGES|
    ensures g.Keys <= r.0.Keys
    ensures forall key :: key in g ==> r.0[key] <= g[key]
    ensures |openSet| <= |r.1| <= |openSet| + k && r.1[..|openSet|] == openSet
  {
    if k == 0 then (g, openSet)
    else
      var prev := Moves(p, current, g, openSet, k - 1);
      Move(p, current, k - 1, prev.0, prev.1)
  }

  /** Every key the turns add to the scores belongs to a node they pushed. */
  lemma {:induction false} MovesNewKeys(p: Problem, current: Node, g: map<Key, real>, openSet: seq<Entry<Node>>, k: nat)
    requires WellFormed(p) && current.index + 1 < |p.waypoints| && current.waypoint in p.world.coords
    requires k <= |ALTITUDE_CHANGES|
    ensures var r := Moves(p, current, g, openSet, k);
      forall key :: key in r.0 && key !in g ==> key in KeysOf(r.1)
  {
    if k > 0 {
      MovesNewKeys(p, current, g, openSet, k - 1);
      var prev := Moves(p, current, g, openSet, k - 1);
      var r := Moves(p, current, g, openSet, k);
      assert r == Move(p, current, k - 1, prev.0, prev.1);
      KeysOfGrow(prev.1, r.1);
      if r != prev {
        KeysOfMember(r.1, |prev.1|);
      }
    }
  }

  /** With a fuel model that always answers, expanding a node at an altitude
      inside 29000..41000 ft records its cruise successor, the next
      waypoint at the same altitude. */
  lemma CruiseRecorded(p: Problem, current: Node, g: map<Key, real>, openSet: seq<Entry<Node>>)
    requires WellFormed(p) && current.index + 1 < |p.waypoints| && current.waypoint in p.world.coords
    requires KeyOf(current) in g && Answers(p.world)
    requires MIN_ALTITUDE <= current.altitude <= MAX_ALTITUDE
    ensures (p.waypoints[current.index + 1], current.altitude) in Moves(p, current, g, openSet, |ALTITUDE_CHANGES|).0
  {
    var one := Moves(p, current, g, openSet, 1);
    var two := Moves(p, current, g, openSet, 2);
    assert two == Move(p, current, 1, one.0, one.1);
    var target := MoveTarget(p, current, 1);
    assert target == (p.waypoints[current.index + 1], current.altitude);
    assert AltitudeStep(current.altitude, target.1);
    assert MoveBurn(p, current, target).Finite?;
    assert Moves(p, current, g, openSet, 3) == Move(p, current, 2, two.0, two.1);
  }

  /** The successor of a consistent node, reached by a move the search may
      make and priced by the fuel model, is consistent with the score that
      the move records for it. */
  lemma SuccessorOk(p: Problem, g: map<Key, real>, current: Node, target: Key, burn: real)
    requires WellFormed(p) && NodeOk(p, g, current) && current.index + 1 < |p.waypoints|
    requires target.0 == p.waypoints[current.index + 1] && AltitudeStep(current.altitude, target.1)
    requires MoveBurn(p, current, target) == Finite(burn)
    ensures NodeOk(p, g[target := g[KeyOf(current)] + burn], Successor(current, target, burn))
  {
    var node := Successor(current, target, burn);
    var newPath := node.path;
    var nextIndex := current.index + 1;
    assert newPath[..|newPath| - 1] == current.path;
    assert RoutePrefix(p, newPath) by {
      assert SegmentOk(p, nextIndex, newPath[nextIndex - 1], newPath[nextIndex]);
      forall j | 0 < j < |newPath|
        ensures SegmentOk(p, j, newPath[j - 1], newPath[j])
      {
        if j < nextIndex {
          assert newPath[j - 1] == current.path[j - 1] && newPath[j] == current.path[j];
        }
      }
    }
  }

  /** One turn of the `for alt_change` loop: the move `ALTITUDE_CHANGES[k]`
      from `current`, with the new scores and queue that `Move` gives.
      Nothing happens when the altitude leaves 29000..41000 ft or the fuel
      model raises; otherwise the successor is recorded and pushed exactly
      when its new g-score is strictly below the recorded one. Every queued
      node stays consistent with the new scores. */
  method TryAltitudeChange(p: Problem, current: Node, k: nat, g: map<Key, real>, openSet: seq<Entry<Node>>)
    returns (g': map<Key, real>, openSet': seq<Entry<Node>>)
    requires WellFormed(p) && NodeOk(p, g, current) && current.index + 1 < |p.waypoints|
    requires k < |ALTITUDE_CHANGES|
    requires QueueOk(p, g, openSet)
    ensures (g', openSet') == Move(p, current, k, g, openSet)
    ensures QueueOk(p, g', openSet')
    ensures g.Keys <= g'.Keys
    ensures forall key :: key in g ==> g'[key] <= g[key]
    ensures |openSet| <= |openSet'| <= |openSet| + 1
    ensures openSet'[..|openSet|] == openSet
    ensures |openSet'| > |openSet| ==>
              && PushedFrom(p, g', current, openSet'[|openSet|])
              && openSet'[|openSet|].item.altitude == current.altitude + ALTITUDE_CHANGES[k]
    ensures forall key :: key in g' && (key !in g || g'[key] != g[key]) ==>
              |openSet'| > |openSet| && key == KeyOf(openSet'[|openSet|].item)
  {
    g', openSet' := g, openSet;
    var nextAlt := current.altitude + ALTITUDE_CHANGES[k];
    if !(MIN_ALTITUDE <= nextAlt <= MAX_ALTITUDE) {
      return;
    }
    var nextIndex := current.index + 1;
    var nextWaypoint := p.waypoints[nextIndex];
    var distance := SegmentDistance(p.world, current.waypoint, nextWaypoint);
    var tempDev := TempDeviation(p.weather, nextWaypoint, nextAlt);
    var burn := CalculateFuelBurn(p.world, p.aircraft, current.mass, nextAlt, distance, tempDev);
    if burn.Infinite? {
      return;
    }
    var newG := GetOrInfinite(g, KeyOf(current)).Plus(burn.value);
    if newG.Less(GetOrInfinite(g, (nextWaypoint, nextAlt))) {
      g' := g[(nextWaypoint, nextAlt) := newG.value];
      var nextMass := current.mass - burn.value;
      var newPath := current.path + [RouteEntry(nextWaypoint, nextAlt, burn.value, nextMass)];
      var h := Heuristic(|p.waypoints|, nextIndex);
      var node := Node(nextWaypoint, nextAlt, nextIndex, nextMass, newPath);
      assert node == Successor(current, (nextWaypoint, nextAlt), burn.value);
      SuccessorOk(p, g, current, (nextWaypoint, nextAlt), burn.value);
      openSet' := openSet + [Entry(newG.value + h as real, node)];
    }
  }

  /** The body of the search loop after the pop: the `for alt_change` loop
      over descend, cruise and climb, in that order, giving the scores and
      queue of `Moves` over all three turns. Every queued node stays
      consistent with the new scores, every pushed node is a successor of
      `current`, every newly scored key is a pushed node's, and with a fuel
      model that always answers the cruise successor gets a score. */
  method ExpandNode(p: Problem, current: Node, g: map<Key, real>, openSet: seq<Entry<Node>>)
    returns (g': map<Key, real>, openSet': seq<Entry<Node>>)
    requires WellFormed(p) && NodeOk(p, g, current) && current.index + 1 < |p.waypoints|
    requires QueueOk(p, g, openSet)
    ensures QueueOk(p, g', openSet')
    ensures g.Keys <= g'.Keys
    ensures forall key :: key in g ==> g'[key] <= g[key]
    ensures |openSet| <= |openSet'| <= |openSet| + |ALTITUDE_CHANGES|
    ensures openSet'[..|openSet|] == openSet
    ensures forall i :: |openSet| <= i < |openSet'| ==> PushedFrom(p, g', current, openSet'[i])
    ensures (g', openSet') == Moves(p, current, g, openSet, |ALTITUDE_CHANGES|)
    ensures forall key :: key in g' && key !in g ==> key in KeysOf(openSet')
    ensures Answers(p.world) && MIN_ALTITUDE <= current.altitude <= MAX_ALTITUDE ==>
              (p.waypoints[current.index + 1], current.altitude) in g'
  {
    g', openSet' := g, openSet;
    for k := 0 to |ALTITUDE_CHANGES|
      invariant (g', openSet') == Moves(p, current, g, openSet, k)
      invariant NodeOk(p, g', current)
      invariant QueueOk(p, g', openSet')
      invariant forall i :: |openSet| <= i < |openSet'| ==>
                  && PushedFrom(p, g', current, openSet'[i])
                  && openSet'[i].item.altitude < current.altitude + 2000 * k - 2000
    {
      ghost var gBefore, before := g', openSet';
      g', openSet' := TryAltitudeChange(p, current, k, g', openSet');
      assert ALTITUDE_CHANGES[k] == 2000 * k - 2000;
      forall i | |openSet| <= i < |before|
        ensures PushedFrom(p, g', current, openSet'[i])
      {
        assert openSet'[i] == before[i];
      }
    }
    MovesNewKeys(p, current, g, openSet, |ALTITUDE_CHANGES|);
    if Answers(p.world) && MIN_ALTITUDE <= current.altitude <= MAX_ALTITUDE {
      CruiseRecorded(p, current, g, openSet);
    }
  }

  /** `key` belongs to a node the search popped and expanded: its waypoint
      is not the last one, and with a fuel model that always answers its
      cruise successor has a score. */
  ghost predicate Expanded(p: Problem, g: map<Key, real>, key: Key)
    requires WellFormed(p)
  {
    && key.0 in p.waypoints
    && IndexOf(p.waypoints, key.0) + 1 < |p.waypoints|
    && (Answers(p.world) ==> (p.waypoints[IndexOf(p.waypoints, key.0) + 1], key.1) in g)
  }

  /** What the search keeps about its scores: the start has one, and every
      scored key is on the queue or was expanded. */
  ghost predicate Covered(p: Problem, g: map<Key, real>, openSet: seq<Entry<Node>>, popped: set<Key>)
    requires WellFormed(p)
  {
    && (p.waypoints[0], START_ALTITUDE) in g
    && (forall key :: key in g ==> key in popped || key in KeysOf(openSet))
    && (forall key :: key in popped ==> Expanded(p, g, key))
  }

  /** Popping the node at `m` and expanding it keeps the scores covered once
      its key counts as expanded. */
  lemma CoveredAfterExpansion(p: Problem, g: map<Key, real>, queued: seq<Entry<Node>>, m: nat, popped: set<Key>,
                              g': map<Key, real>, openSet': seq<Entry<Node>>)
    requires WellFormed(p) && Covered(p, g, queued, popped)
    requires m < |queued| && NodeOk(p, g, queued[m].item) && queued[m].item.index + 1 < |p.waypoints|
    requires g.Keys <= g'.Keys
    requires |queued| - 1 <= |openSet'| && openSet'[..|queued| - 1] == RemoveAt(queued, m)
    requires forall key :: key in g' && key !in g ==> key in KeysOf(openSet')
    requires var current := queued[m].item;
      Answers(p.world) && MIN_ALTITUDE <= current.altitude <= MAX_ALTITUDE ==>
        (p.waypoints[current.index + 1], current.altitude) in g'
    ensures Covered(p, g', openSet', popped + {KeyOf(queued[m].item)})
  {
    var current := queued[m].item;
    KeysOfRemoveAt(queued, m);
    KeysOfGrow(RemoveAt(queued, m), openSet');
    RouteShape(p, current.path);
    IndexOfDistinct(p.waypoints, current.index);
    assert Expanded(p, g', KeyOf(current));
    forall key | key in popped
      ensures Expanded(p, g', key)
    {
      assert Expanded(p, g, key);
    }
  }

  /** With a fuel model that always answers and nothing left on the queue,
      the cruise chain at 35000 ft reaches every waypoint. */
  lemma CruiseChain(p: Problem, g: map<Key, real>, popped: set<Key>, i: nat)
    requires WellFormed(p) && Covered(p, g, [], popped) && Answers(p.world)
    requires i < |p.waypoints|
    ensures (p.waypoints[i], START_ALTITUDE) in g
  {
    forall j {:trigger Expanded(p, g, (p.waypoints[j], START_ALTITUDE))}
      | 0 <= j < |p.waypoints| && (p.waypoints[j], START_ALTITUDE) in g
      ensures Expanded(p, g, (p.waypoints[j], START_ALTITUDE))
    {
      DrainedExpanded(p, g, popped, (p.waypoints[j], START_ALTITUDE));
    }
    CruiseReach(p, g, i);
  }

  /** If the cruise key at each scored waypoint was expanded, the cruise
      keys of the first `i + 1` waypoints are all scored. */
  lemma {:induction false} CruiseReach(p: Problem, g: map<Key, real>, i: nat)
    requires WellFormed(p) && Answers(p.world) && i < |p.waypoints|
    requires (p.waypoints[0], START_ALTITUDE) in g
    requires forall j {:trigger Expanded(p, g, (p.waypoints[j], START_ALTITUDE))} ::
               0 <= j < |p.waypoints| && (p.waypoints[j], START_ALTITUDE) in g ==>
               Expanded(p, g, (p.waypoints[j], START_ALTITUDE))
    ensures (p.waypoints[i], START_ALTITUDE) in g
  {
    if i > 0 {
      CruiseReach(p, g, i - 1);
      CruiseStep(p, g, i - 1);
    }
  }

  /** Once the queue is empty, every scored key was expanded. */
  lemma DrainedExpanded(p: Problem, g: map<Key, real>, popped: set<Key>, key: Key)
    requires WellFormed(p) && Covered(p, g, [], popped) && key in g
    ensures Expanded(p, g, key)
  {
    assert KeysOf([]) == {};
  }

  /** An expanded cruise key at waypoint `i` scores the next waypoint. */
  lemma CruiseStep(p: Problem, g: map<Key, real>, i: nat)
    requires WellFormed(p) && Answers(p.world) && i < |p.waypoints|
    requires Expanded(p, g, (p.waypoints[i], START_ALTITUDE))
    ensures i + 1 < |p.waypoints| && (p.waypoints[i + 1], START_ALTITUDE) in g
  {
    IndexOfDistinct(p.waypoints, i);
  }

  /** The queue runs dry only when the fuel model raised somewhere: with
      one that always answers, the last waypoint would have been reached. */
  lemma ExhaustedOnlyIfModelRaises(p: Problem, g: map<Key, real>, popped: set<Key>)
    requires WellFormed(p) && Covered(p, g, [], popped)
    ensures !Answers(p.world)
  {
    if Answers(p.world) {
      var last := |p.waypoints| - 1;
      CruiseChain(p, g, popped, last);
      IndexOfDistinct(p.waypoints, last);
      // The last waypoint's key would have been expanded, yet a node at the
      // last waypoint is returned rather than expanded.
    }
  }

  /** Popping a node that is not at the last waypoint and pushing at most
      three nodes one waypoint further on makes the queue strictly lighter. */
  lemma ExpansionLighter(n: nat, queued: seq<Entry<Node>>, m: nat, openSet: seq<Entry<Node>>)
    requires m < |queued| && queued[m].item.index + 1 < n
    requires |queued| - 1 <= |openSet| <= |queued| - 1 + |ALTITUDE_CHANGES|
    requires openSet[..|queued| - 1] == RemoveAt(queued, m)
    requires forall i :: |queued| - 1 <= i < |openSet| ==> openSet[i].item.index == queued[m].item.index + 1
    ensures Weight(openSet, NodeWeight(n)) < Weight(queued, NodeWeight(n))
  {
    var each := Pow(4, n - 2 - queued[m].item.index);
    SuccessorWeighsAQuarter(n, queued[m].item, each);
    forall i | |queued| - 1 <= i < |openSet|
      ensures NodeWeight(n)(openSet[i].item) == each
    {
      RankAt(n, openSet[i].item, n - 2 - queued[m].item.index);
    }
    PopAndPushLighter(queued, m, openSet, NodeWeight(n), 4, each);
  }

  lemma RankAt(n: nat, node: Node, e: nat)
    requires node.index < n && n - 1 - node.index == e
    ensures NodeWeight(n)(node) == Pow(4, e)
  {
  }

  lemma SuccessorWeighsAQuarter(n: nat, current: Node, each: nat)
    requires current.index + 1 < n && each == Pow(4, n - 2 - current.index)
    ensures each > 0 && NodeWeight(n)(current) == 4 * each
  {
    PowPositive(4, n - 2 - current.index);
    assert n - 1 - current.index == n - 2 - current.index + 1;
  }

  /** What `a_star_search` returns: the route (None when the heap ran dry)
      and the g-score looked up for its last state. */
  datatype SearchResult = SearchResult(route: Option<seq<RouteEntry>>, fuel: Cost)

  /** `a_star_search`. A returned route passes every waypoint, starts with
      the 'start' entry at 35000 ft, moves by an allowed altitude step on every
      segment, records only finite fuel-model answers, and its reported fuel
      is no more than the fuel recorded along it. No route means infinite
      fuel. A one-waypoint plan returns the start entry at cost 0, a fuel
      model that always raises leaves a longer plan without a route, and one
      that always answers yields a route. */
  method AStarSearch(p: Problem) returns (r: SearchResult)
    requires WellFormed(p)
    ensures r.route.None? ==> r.fuel == Infinite
    ensures r.route.Some? ==> CompleteRoute(p, r.route.value)
    ensures r.route.Some? ==> r.fuel.Finite? && r.fuel.value <= RouteFuel(r.route.value)
    ensures |p.waypoints| == 1 ==> r == SearchResult(Some([StartEntry(p.initialMass)]), Finite(0.0))
    ensures |p.waypoints| > 1 && (forall q :: p.world.enroute(q).None?) ==> r == SearchResult(None, Infinite)
    ensures Answers(p.world) ==> r.route.Some?
  {
    var n := |p.waypoints|;
    var startNode := Node(p.waypoints[0], START_ALTITUDE, 0, p.initialMass, [StartEntry(p.initialMass)]);
    var openSet := [Entry(0.0, startNode)];
    var gScores := map[(p.waypoints[0], START_ALTITUDE) := 0.0];
    assert RouteFuel([StartEntry(p.initialMass)]) == 0.0 by {
      assert [StartEntry(p.initialMass)][..0] == [];
    }
    ghost var popped: set<Key> := {};
    KeysOfMember(openSet, 0);
    while openSet != []
      invariant QueueOk(p, gScores, openSet)
      invariant n == 1 ==> openSet == [Entry(0.0, startNode)] && gScores == map[(p.waypoints[0], START_ALTITUDE) := 0.0]
      invariant Covered(p, gScores, openSet, popped)
      decreases Weight(openSet, NodeWeight(n))
    {
      var m := MinIndex(openSet);
      var current := openSet[m].item;
      ghost var queued, gBefore := openSet, gScores;
      openSet := RemoveAt(openSet, m);
      if current.index == n - 1 {
        if n > 1 {
          // The route holds at least one answer of the fuel model.
          assert SegmentOk(p, 1, current.path[0], current.path[1]);
        }
        return SearchResult(Some(current.path), GetOrInfinite(gScores, KeyOf(current)));
      }
      gScores, openSet := ExpandNode(p, current, gScores, openSet);
      ExpansionLighter(n, queued, m, openSet);
      CoveredAfterExpansion(p, gBefore, queued, m, popped, gScores, openSet);
      popped := popped + {KeyOf(current)};
    }
    ExhaustedOnlyIfModelRaises(p, gScores, popped);
    return SearchResult(None, Infinite);
  }

  /** The level baseline route through the first k+1 waypoints: every segment
      at 35000 ft with ISA deviation 0, each priced at the mass left after
      the previous one; None once the fuel model raises on some segment. */
  function BaselineRoute(p: Problem, k: nat): (r: Option<seq<RouteEntry>>)
    requires WellFormed(p) && k < |p.waypoints|
    ensures r.Some? ==> |r.value| == k + 1
  {
    if k == 0 then Some([StartEntry(p.initialMass)])
    else
      match BaselineRoute(p, k - 1)
      case None => None
      case Some(route) =>
        var prev := route[k - 1];
        var distance := SegmentDistance(p.world, p.waypoints[k - 1], p.waypoints[k]);
        match CalculateFuelBurn(p.world, p.aircraft, prev.mass, BASELINE_ALTITUDE, distance, 0.0)
        case Infinite => None
        case Finite(b) => Some(route + [RouteEntry(p.waypoints[k], BASELINE_ALTITUDE, b, prev.mass - b)])
  }

  /** The baseline is one of the routes the search itself walks when no
      weather deviation is supplied: it starts with the 'start' entry, stays
      at 35000 ft, and prices each segment at the mass left after the last. */
  lemma {:induction false} BaselineIsLevelRoute(p: Problem, k: nat)
    requires WellFormed(p) && k < |p.waypoints| && BaselineRoute(p, k).Some?
    ensures RoutePrefix(p.(weather := map[]), BaselineRoute(p, k).value)
    ensures forall j :: 0 <= j <= k ==> BaselineRoute(p, k).value[j].altitude == BASELINE_ALTITUDE
  {
    if k > 0 {
      BaselineIsLevelRoute(p, k - 1);
      var route := BaselineRoute(p, k - 1).value;
      var full := BaselineRoute(p, k).value;
      assert full[..k] == route;
      assert SegmentOk(p.(weather := map[]), k, full[k - 1], full[k]);
    }
  }

  /** The baseline loop of `run_fuel_optimization`: total fuel of the level
      route at 35000 ft, or infinity when some segment of it fails. */
  method BaselineFuel(p: Problem) returns (fuel: Cost)
    requires WellFormed(p)
    ensures BaselineRoute(p, |p.waypoints| - 1).None? <==> fuel == Infinite
    ensures BaselineRoute(p, |p.waypoints| - 1).Some? ==>
              fuel == Finite(RouteFuel(BaselineRoute(p, |p.waypoints| - 1).value))
  {
    fuel := Finite(0.0);
    var currentMass := p.initialMass;
    for i := 0 to |p.waypoints| - 1
      invariant BaselineRoute(p, i).None? <==> fuel == Infinite
      invariant BaselineRoute(p, i).Some? ==>
                  && fuel == Finite(RouteFuel(BaselineRoute(p, i).value))
                  && currentMass == BaselineRoute(p, i).value[i].mass
    {
      // After a failed segment Python goes on calling the fuel model with
      // mass -inf; the total is already infinite, so those calls are skipped.
      if fuel.Finite? {
        var distance := SegmentDistance(p.world, p.waypoints[i], p.waypoints[i + 1]);
        var segment := CalculateFuelBurn(p.world, p.aircraft, currentMass, BASELINE_ALTITUDE, distance, 0.0);
        if segment.Finite? {
          ghost var route := BaselineRoute(p, i).value;
          assert (route + [RouteEntry(p.waypoints[i + 1], BASELINE_ALTITUDE, segment.value, currentMass - segment.value)])[..i + 1] == route;
          fuel := fuel.Plus(segment.value);
          currentMass := currentMass - segment.value;
        } else {
          fuel := Infinite;
        }
      }
    }
  }

  /** A flight plan record as `run_fuel_optimization` reads it. */
  datatype FlightPlan = FlightPlan(flightId: string, waypoints: seq<Waypoint>, aircraft: string, initialMass: real)

  /** The dictionary `run_fuel_optimization` returns: the comparison, or an error. */
  datatype OptimizationResult =
    | Optimized(flightId: string, baselineFuel: Cost, optimizedFuel: Cost, fuelSaved: Cost,
                route: seq<RouteEntry>, rationale: string)
    | OptimizationError(message: string)

  function ProblemOf(plan: FlightPlan, weather: Weather, world: World): Problem {
    Problem(plan.waypoints, plan.aircraft, plan.initialMass, weather, world)
  }

  /** `run_fuel_optimization`: baseline, then search, then the record. The
      record carries the search's route and fuel, the baseline of the level
      route, and savings = baseline - optimized, not clamped (infinite when
      the baseline failed). A search without a route gives the error record
      and nothing else; a fuel model that always answers gives the
      comparison. */
  method RunFuelOptimization(plan: FlightPlan, weather: Weather, world: World) returns (res: OptimizationResult)
    requires WellFormed(ProblemOf(plan, weather, world))
    ensures res.OptimizationError? ==> res == OptimizationError(FAILURE_MESSAGE)
    ensures res.Optimized? ==>
              && res.flightId == plan.flightId
              && res.rationale == RATIONALE
              && CompleteRoute(ProblemOf(plan, weather, world), res.route)
              && res.optimizedFuel.Finite?
              && res.optimizedFuel.value <= RouteFuel(res.route)
              && res.fuelSaved == res.baselineFuel.Minus(res.optimizedFuel.value)
    ensures res.Optimized? ==>
              var baseline := BaselineRoute(ProblemOf(plan, weather, world), |plan.waypoints| - 1);
              if baseline.Some? then res.baselineFuel == Finite(RouteFuel(baseline.value))
              else res.baselineFuel == Infinite
    ensures |plan.waypoints| == 1 ==>
              res == Optimized(plan.flightId, Finite(0.0), Finite(0.0), Finite(0.0), [StartEntry(plan.initialMass)], RATIONALE)
    ensures |plan.waypoints| > 1 && (forall q :: world.enroute(q).None?) ==> res == OptimizationError(FAILURE_MESSAGE)
    ensures Answers(world) ==> res.Optimized?
  {
    var p := ProblemOf(plan, weather, world);
    var baseline := BaselineFuel(p);
    var search := AStarSearch(p);
    // A returned route is a non-empty list, which Python counts as true.
    if search.route.Some? && |search.route.value| > 0 {
      res := Optimized(plan.flightId, baseline, search.fuel, baseline.Minus(search.fuel.value),
                       search.route.value, RATIONALE);
    } else {
      res := OptimizationError(FAILURE_MESSAGE);
    }
  }
}
