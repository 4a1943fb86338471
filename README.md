# Altitude-profile fuel optimizer, modelled in Dafny

The repository optimizes the vertical profile of a flight. Given a flight
plan (an ordered list of waypoints, an aircraft type and an initial mass), it
searches over the altitude or flight level to fly each segment at. A
segment's cost is the fuel burned, priced by the OpenAP fuel model at the
mass the aircraft has when the segment starts. The search result is
compared with a baseline that flies every segment at 35000 ft, and the
saving is reported. The logic exists in two variants, and each is modelled
as written.

- `notebook_style_runner.py` (module `NotebookRunner`, file `notebook.dfy`)
  - An A*-style search over (waypoint, altitude) nodes. Each segment moves
    the altitude by -2000, 0 or +2000 ft, inside 29000..41000 ft.
  - A node carries its own route of (label, altitude, burn, mass) entries.
  - The priority is the g-score plus 2000 per segment still to fly.
  - A fuel-model failure is caught and priced as `inf`.
  - The baseline at 35000 ft and the result record are modelled too.
- `lambda_handler.py` (modules `LambdaHandler`, file `lambda_search.dfy`,
  and `LambdaReport`, file `lambda_report.dfy`)
  - A uniform-cost search over (waypoint, flight level) states, with the six
    flight levels 290..390.
  - It keeps three tables, `came_from`, `g_score` and `mass_at_node`, and the
    heap `open_set`, all updated in place.
  - The route is rebuilt by walking the predecessor links back.
  - The segment burn converts the fuel flow in kg/s into fuel burned over
    the segment's flight time.
  - A fuel-model exception is not caught: it escapes the search and the
    report, and so does a division by a zero ground speed.
  - The baseline flies at 35000 ft, 450 kt and 15 C.
  - `run_fuel_optimization` reports the baseline and the optimized fuel, the
    saving, and the route, or an error.
- The waypoint-cell parse of `get_flight_plan` in `lambda_handler.py`
  (module `WaypointParsing`, file `waypoint_parse.dfy`). It strips brackets,
  deletes quotes, splits at commas and trims white space, so
  `['A', 'B']` becomes `["A", "B"]` and `[]` becomes `[""]`.
- Shared pieces (module `Common`, file `common.dfy`)
  - Floats that may be `inf` (`Cost`).
  - `list.index` (`IndexOf`).
  - The heap as a sequence of entries: `heappop` takes an entry of least
    priority, `heappush` appends.
  - The termination measure of both searches.

The model takes these forms:

- Each search loop is a `method` with a `while` loop. Each of the four
  tables is a `map` or `seq` variable that the loop body reassigns.
- The `for` loops over altitude changes, flight levels and baseline
  segments are `for` loops.
- The lambda rebuild loop is a `while` loop.
- Each loop is proved against specification functions and predicates, and
  properties of those are proved as lemmas.

Two collaborators are parameters of a `World` value: the great-circle
distance and the OpenAP `FuelFlow` model. The coordinate table is a map in
the same value. The fuel model answers `None` where OpenAP would raise.

### Where the code and its design description differ

The model follows the code.

- The lambda search's goal test compares the popped waypoint with
  `destination_airport` by name. It does not test for the last position.
  The destination is not required to be the last waypoint. A plan that
  does not contain its destination ends with `(None, inf)`. That is the only
  way this search can return no route.
- The lambda route holds (waypoint, flight level) pairs only, with no burn
  or mass per step.
- A baseline whose fuel model fails behaves differently in each variant:
  - the notebook variant still reports success with an infinite baseline
    and an infinite saving;
  - the lambda variant raises.

  Neither reports the structured error the design asks for.
- A waypoint without coordinates raises `KeyError` in the baseline loop
  of a plan with two or more waypoints. The code does not check for it
  before the search. Here it is a precondition, `WellFormed`. A plan of
  one waypoint looks up no coordinates at all, so for it the precondition
  is stricter than the code.

## Model

| member | source | states |
|---|---|---|
| Common.IndexOf | lambda_handler.py:77 | `list.index` gives the first position at which the waypoint sits |
| Common.IndexOfDistinct | lambda_handler.py:77 | on a plan without repeated waypoints, `list.index` of the i-th waypoint is i |
| Common.MinIndex | lambda_handler.py:66 | `heappop` takes an entry whose priority is no greater than any other entry's |
| Common.RemoveAt | lambda_handler.py:66 | the heap after the pop keeps every other entry, in order |
| Common.Reverse | lambda_handler.py:76 | `list(reversed(path))` holds the i-th element from the end at position i |
| Common.PopAndPushLighter | notebook_style_runner.py:96-141 | popping a node and pushing fewer successors than its weight factor makes the heap strictly lighter, so the search terminates |
| NotebookRunner.CalculateFuelBurn | notebook_style_runner.py:66-79 | the burn is infinite exactly when the fuel model raises, and otherwise is the model's answer |
| NotebookRunner.Heuristic | notebook_style_runner.py:136 | the heuristic is non-negative for a node on the plan, and zero exactly at the last waypoint |
| NotebookRunner.RoutePrefixShorter | notebook_style_runner.py:132 | every prefix of a route the search builds is such a route too |
| NotebookRunner.RouteMassConservation | notebook_style_runner.py:126-131 | along a route the mass telescopes: the last mass is the initial mass less the fuel recorded on the route |
| NotebookRunner.RouteShape | notebook_style_runner.py:88-113 | along a route every altitude stays in 29000..41000 ft; entry 0 is labelled `'start'` and entry j names waypoint j |
| NotebookRunner.Move | notebook_style_runner.py:105-141 | a move changes the scores and queue exactly when it stays inside 29000..41000 ft, the fuel model answers and the new g-score is strictly below the recorded one; then only the target's score changes, to that g-score, and its node is pushed at that score plus the heuristic |
| NotebookRunner.Moves | notebook_style_runner.py:105-141 | the three moves in order keep every scored key, raise no score, and only append to the queue, at most one node per move |
| NotebookRunner.MovesNewKeys | notebook_style_runner.py:129-141 | every key the moves add to the scores belongs to a node they pushed |
| NotebookRunner.CruiseRecorded | notebook_style_runner.py:105-141 | with a fuel model that always answers, a node inside 29000..41000 ft that has a score leaves its cruise successor (next waypoint, same altitude) with a score |
| NotebookRunner.SuccessorOk | notebook_style_runner.py:126-141 | the node a move pushes sits at the next waypoint with its route extended by one entry, a route of the search, and its new g-score is no more than the fuel on that route |
| NotebookRunner.TryAltitudeChange | notebook_style_runner.py:105-141 | one altitude move gives the scores and queue of `Move`: no g-score rises; at most one node is pushed, one waypoint on at the moved altitude, with the node's own route extended by one entry; a g-score changes only for the pushed node's key; every queued node stays consistent with the scores |
| NotebookRunner.ExpandNode | notebook_style_runner.py:104-141 | the descend, cruise and climb moves in that order give the scores and queue of `Moves`: at most three nodes pushed, each a successor of the popped node; no g-score rises; every newly scored key is a pushed node's; with a fuel model that always answers the cruise successor gets a score |
| NotebookRunner.ExpansionLighter | notebook_style_runner.py:96-141 | popping a node below the last waypoint and pushing at most three nodes one waypoint further on makes the heap lighter |
| NotebookRunner.CoveredAfterExpansion | notebook_style_runner.py:96-141 | after a pop and an expansion every scored key is queued or was expanded, and every expanded key left its cruise successor with a score when the fuel model always answers |
| NotebookRunner.DrainedExpanded | notebook_style_runner.py:96 | once the queue is empty every scored key was expanded |
| NotebookRunner.CruiseStep | notebook_style_runner.py:105-130 | an expanded cruise key at a waypoint scores the cruise key of the next waypoint |
| NotebookRunner.CruiseReach | notebook_style_runner.py:94-130 | when every scored cruise key was expanded, the cruise keys of all waypoints are scored |
| NotebookRunner.CruiseChain | notebook_style_runner.py:94-141 | with a fuel model that always answers and an empty queue, the cruise key at 35000 ft of every waypoint has a score |
| NotebookRunner.ExhaustedOnlyIfModelRaises | notebook_style_runner.py:96-144 | the search falls out of its loop without a route only when the fuel model does not answer every query |
| NotebookRunner.AStarSearch | notebook_style_runner.py:81-144 | a returned route passes every waypoint from the `'start'` entry at 35000 ft with allowed altitude steps and finite burns; its reported fuel is no more than the fuel on the route; no route means `inf`; a one-waypoint plan returns the start route at cost 0; a fuel model that always raises leaves a longer plan without a route, and one that always answers yields a route |
| NotebookRunner.BaselineRoute | notebook_style_runner.py:190-200 | the level route through the first k+1 waypoints has k+1 entries while the fuel model answers |
| NotebookRunner.BaselineIsLevelRoute | notebook_style_runner.py:190-200 | the baseline is a route of the search without weather data, all at 35000 ft, each segment priced at the mass left by the previous one |
| NotebookRunner.BaselineFuel | notebook_style_runner.py:190-200 | the baseline loop gives the fuel of the level route, or `inf` when a segment fails |
| NotebookRunner.RunFuelOptimization | notebook_style_runner.py:181-215 | the record carries the flight id, the rationale, a complete route, the search's finite fuel and the baseline; the saving is baseline minus optimized, not clamped; without a route the error record; a one-waypoint plan gives zero everywhere; a fuel model that always raises gives the error, and one that always answers gives the comparison |
| LambdaHandler.IsaDeviationSign | lambda_handler.py:53 | the ISA deviation is zero or positive exactly when the temperature equals or exceeds 15 C less 2 C per 1000 ft |
| LambdaHandler.IsaDeviationLapse | lambda_handler.py:53 | 1000 ft more altitude adds 2 C of deviation |
| LambdaHandler.CalculateFuelBurn | lambda_handler.py:51-56 | the burn raises exactly when the fuel model raises, and fails on a division exactly when it answers at zero speed |
| LambdaHandler.BurnIsFlowTimesTime | lambda_handler.py:55-56 | burn x speed x 1.852 = flow x distance x 3600 |
| LambdaHandler.BurnMonotoneInDistance | lambda_handler.py:55-56 | with a non-negative flow and a positive speed, the burn is non-negative and does not fall with the distance |
| LambdaHandler.Temperature | lambda_handler.py:84-85 | a waypoint without weather gets 15 C |
| LambdaHandler.Wind | lambda_handler.py:84-85 | a waypoint without weather gets no wind |
| LambdaHandler.SegmentBurn | lambda_handler.py:81-87 | a segment fails on the division only with a head wind of exactly 450 kt |
| LambdaHandler.LevelBurnsOk | lambda_handler.py:80-87 | with a fuel model that always answers and no head wind of 450 kt at the next waypoint, the burns at all six levels come back |
| LambdaHandler.TableKeys | lambda_handler.py:62 | the keys of `g_score` are exactly the pairs of a plan waypoint and one of the six levels |
| LambdaHandler.InitialCosts | lambda_handler.py:59-64 | the search starts at cost 0 at (waypoints[0], 350) only, infinite cost at every other table pair, the initial mass at the start only, no predecessors, the start alone on the heap |
| LambdaHandler.InitialSearchInv | lambda_handler.py:59-64 | the starting tables satisfy the search invariant |
| LambdaHandler.RecordKeepsMassOk | lambda_handler.py:88-92 | recording a cost and a mass that add up to the initial mass keeps every recorded mass at the initial mass less its cost |
| LambdaHandler.RecordKeepsFiniteRecorded | lambda_handler.py:88-92 | after a record every finite cost has a recorded mass |
| LambdaHandler.RecordKeepsRooted | lambda_handler.py:88-92 | after a record every recorded state but the start has a predecessor |
| LambdaHandler.RecordKeepsLinked | lambda_handler.py:88-92 | after a record every predecessor link joins recorded states one waypoint apart |
| LambdaHandler.RecordKeepsTables | lambda_handler.py:88-92 | a record keeps the three tables consistent and every queued state recorded |
| LambdaHandler.RelaxOnlyImproves | lambda_handler.py:88-92 | a turn raises exactly when its burn raised; it changes the tables exactly on a strict improvement, and then records predecessor, finite cost and mass (current mass less burn) together and pushes at the new cost; no cost rises |
| LambdaHandler.RelaxKeepsTables | lambda_handler.py:88-92 | a turn keeps the tables consistent and the popped state's record |
| LambdaHandler.RelaxOnlyAdds | lambda_handler.py:88-92 | a turn keeps recorded states and queued entries, pushes at most the successor, and records only what it pushes |
| LambdaHandler.RelaxRecordsNext | lambda_handler.py:88-92 | after a turn without an exception the successor has a recorded mass |
| LambdaHandler.ExpansionRaisedSticks | lambda_handler.py:80-92 | once a turn of the level loop has raised, the whole loop has raised that exception |
| LambdaHandler.FirstBurnRaises | lambda_handler.py:52-54 | a fuel model that always raises makes the first level's burn raise |
| LambdaHandler.ExpansionFirstRaises | lambda_handler.py:80-92 | a first burn that raises ends the loop with its exception |
| LambdaHandler.ExpansionKeepsTables | lambda_handler.py:80-92 | the level loop keeps the tables consistent |
| LambdaHandler.ExpansionPushesNext | lambda_handler.py:80-92 | the level loop keeps the heap's entries and pushes at most one state of the next waypoint per level |
| LambdaHandler.ExpansionRecordsQueued | lambda_handler.py:80-92 | the level loop keeps recorded states, and every newly recorded state is queued |
| LambdaHandler.ExpansionKeepsCurrent | lambda_handler.py:80-92 | the level loop keeps the popped state's cost and a recorded mass for every finite cost |
| LambdaHandler.ExpansionRecordsLevels | lambda_handler.py:80-92 | after k turns each of the first k levels of the next waypoint has a recorded mass |
| LambdaHandler.ExpandLevels | lambda_handler.py:80-92 | the `for next_fl` loop computes the expansion over the six levels in list order, or the first exception |
| LambdaHandler.ExpansionOk | lambda_handler.py:80-92 | burns that all come back let every turn of the level loop through without an exception |
| LambdaHandler.AtFlightLevelsIndex | lambda_handler.py:62 | a route at the six levels has every state at one of them |
| LambdaHandler.PricedRouteExtend | lambda_handler.py:79-91 | a priced route extended by a state of the next waypoint, whose segment the fuel model prices from the mass left, is priced at the old cost plus that burn |
| LambdaHandler.PricedRouteReaches | lambda_handler.py:77-79 | a priced route to a state ends at its position, so the next waypoint is the one right after the route |
| LambdaHandler.PricedStep | lambda_handler.py:79-91 | a state priced at some cost prices its successor at that cost plus the segment's burn from the mass left |
| LambdaHandler.RecordPriced | lambda_handler.py:88-91 | recording a priced cost keeps every recorded cost priced |
| LambdaHandler.LevelPriced | lambda_handler.py:80-88 | the burn at one level, when it comes back, prices the successor at that level |
| LambdaHandler.LevelBurnsPriced | lambda_handler.py:80-88 | each of the six burns that comes back prices its successor at the popped cost plus the burn |
| LambdaHandler.RelaxKeepsPriced | lambda_handler.py:88-92 | a turn keeps every recorded cost priced, and the popped state's cost |
| LambdaHandler.ExpansionKeepsPriced | lambda_handler.py:80-92 | the level loop keeps every recorded cost priced, and the popped state's cost |
| LambdaHandler.ExpandedPriced | lambda_handler.py:77-92 | an expansion without an exception keeps every recorded cost the fuel model's charge along some route of the plan |
| LambdaHandler.InitialPriced | lambda_handler.py:59-64 | at the start only the start state is recorded, at cost 0, the price of the route of the start alone |
| LambdaHandler.BackChainExtend | lambda_handler.py:70-74 | one step back along `came_from` extends the backward chain |
| LambdaHandler.BackChainReversed | lambda_handler.py:75-76 | a backward chain reaching position 0, reversed, follows the plan from its first waypoint along predecessor links |
| LambdaHandler.ReconstructPath | lambda_handler.py:68-76 | the rebuilt route runs from (waypoints[0], 350) to the goal, one state per waypoint up to the goal's position, each the predecessor of the next; the summed cost differences telescope to the goal's g-score, which is the initial mass less the goal's mass |
| LambdaHandler.MassOfRecorded | lambda_handler.py:64 | a recorded state has a finite cost, and its mass is the initial mass less that cost |
| LambdaHandler.BackStep | lambda_handler.py:70-74 | a predecessor is a recorded state one waypoint earlier with a finite cost |
| LambdaHandler.BackChainToStart | lambda_handler.py:70-76 | the walk back stops only at the start state, and reversed it is a route along the plan |
| LambdaHandler.ExpansionLighter | lambda_handler.py:77-92 | popping a state below the last waypoint and pushing at most six states of the next waypoint makes the heap lighter |
| LambdaHandler.PopLighter | lambda_handler.py:66-78 | popping without pushing makes the heap lighter |
| LambdaHandler.SettledGrows | lambda_handler.py:77-92 | recording more states keeps every popped state settled |
| LambdaHandler.ExhaustedMissesDestination | lambda_handler.py:93 | when the heap runs dry the state at FL350 of every waypoint was popped, so the destination is not on the plan |
| LambdaHandler.PopKeepsInv | lambda_handler.py:66-67 | the pop keeps the invariant, the popped state recorded |
| LambdaHandler.SkippedKeepsInv | lambda_handler.py:77-78 | a popped state at the last waypoint that is not the goal is skipped, and the invariant holds |
| LambdaHandler.ExpandedKeepsInv | lambda_handler.py:77-92 | an expansion restores the invariant and pushes only states of the next waypoint, at most six |
| LambdaHandler.ExpandedTables | lambda_handler.py:77-92 | after an expansion the tables are consistent and every recorded state is popped or queued |
| LambdaHandler.ExpandedSettles | lambda_handler.py:77-92 | after an expansion the popped state's successor at its own level is recorded |
| LambdaHandler.RebuiltRouteOk | lambda_handler.py:68-76 | a rebuilt route reaches the destination from the start state, along the plan's waypoints and predecessor links |
| LambdaHandler.ExpandPopped | lambda_handler.py:77-92 | a popped state at the last waypoint changes nothing; otherwise the tables become the expansion into the next waypoint at the six levels, or its exception; without one the invariant holds, every recorded cost stays priced along some route of the plan, and the heap is lighter; a fuel model that always raises makes it raise, and one that always answers with no head wind of 450 kt makes it succeed |
| LambdaHandler.ExpandSuccessors | lambda_handler.py:79-92 | the expansion of a state below the last waypoint, with the same guarantees |
| LambdaHandler.FirstPop | lambda_handler.py:59-67 | the first pop takes the start state at the initial mass |
| LambdaHandler.FoundAnswer | lambda_handler.py:68-76 | the answer at the goal meets the search's promise: the rebuilt route follows the plan, and its fuel is the fuel model's charge along some route of the plan to the goal |
| LambdaHandler.RaisedAnswer | lambda_handler.py:87 | an exception, which can come only from a fuel model that does not always answer or from a head wind of 450 kt, meets the search's promise |
| LambdaHandler.ContinueSearching | lambda_handler.py:65-92 | a turn without return or exception keeps the loop invariant |
| LambdaHandler.AStarSearch | lambda_handler.py:58-93 | a returned route starts at (waypoints[0], 350) and follows the plan's waypoints at the six levels along `came_from` to the destination; its fuel is what the fuel model charges along some route of the plan to the destination; `(None, inf)` only when the destination is not on the plan; a plan starting at its destination returns the start at cost 0; a fuel model that always raises makes it raise, and one that always answers, with no head wind of 450 kt, makes it return |
| LambdaReport.BaselineTotals | lambda_handler.py:131-137 | the baseline's burned fuel and remaining mass add up to the initial mass; only the fuel model can make it raise |
| LambdaReport.BaselineSegmentIsCalmFL350 | lambda_handler.py:131-137 | a baseline segment is the search's segment into FL350 with no weather data |
| LambdaReport.BaselineRaisedStays | lambda_handler.py:131-137 | an exception in a segment is the baseline's exception |
| LambdaReport.BaselineBurnsNonNegative | lambda_handler.py:131-137 | with non-negative flows and distances the baseline does not raise, burns non-negative fuel, and the mass does not grow |
| LambdaReport.BaselineRaisesWithModel | lambda_handler.py:131-137 | a fuel model that always raises makes the baseline raise once there is a segment |
| LambdaReport.BaselineAnswers | lambda_handler.py:131-137 | a fuel model that always answers makes the baseline return: its speed is a constant 450 kt |
| LambdaReport.BaselineFuel | lambda_handler.py:131-137 | the baseline loop computes the baseline totals, or its exception |
| LambdaReport.RunFuelOptimization | lambda_handler.py:128-141 | the baseline's exception escapes; success carries the baseline fuel, saving = baseline - optimized, a route from (waypoints[0], 350) along the plan to the destination, and an optimized fuel the fuel model charges along some route of the plan; the error report, with its message, comes exactly when the destination is not on the plan; a plan starting at its destination saves the whole baseline; a fuel model that always raises makes it raise, and one that always answers, with no head wind of 450 kt, reports success for a destination on the plan |
| WaypointParsing.StripLeft | lambda_handler.py:105 | `lstrip` drops the longest run of dropped characters at the front |
| WaypointParsing.StripRight | lambda_handler.py:105 | `rstrip` drops the longest run of dropped characters at the end |
| WaypointParsing.Strip | lambda_handler.py:105 | `strip` keeps characters of the text and leaves no dropped character at either end |
| WaypointParsing.StripSlice | lambda_handler.py:105 | `strip` keeps one contiguous slice of the text, and everything before and after it is a dropped character |
| WaypointParsing.RemoveAll | lambda_handler.py:105 | `replace(c, '')` removes every `c` and keeps the count of every other character |
| WaypointParsing.RemoveAllAppend | lambda_handler.py:105 | `replace` works piece by piece over a concatenation |
| WaypointParsing.RemoveAllAbsent | lambda_handler.py:105 | `replace` of an absent character changes nothing |
| WaypointParsing.Split | lambda_handler.py:105 | `split` gives at least one piece, none holding the separator |
| WaypointParsing.JoinOfSplit | lambda_handler.py:105 | joining the pieces of a split with the separator gives the text back |
| WaypointParsing.SplitAppendPlain | lambda_handler.py:105 | text without the separator extends only the last piece |
| WaypointParsing.SplitOfJoin | lambda_handler.py:105 | splitting pieces without separators joined by it gives the pieces back |
| WaypointParsing.Unquote | lambda_handler.py:105 | the two `replace` calls leave no quote and only characters of the text |
| WaypointParsing.UnquoteAppend | lambda_handler.py:105 | deleting quotes works piece by piece |
| WaypointParsing.UnquoteClean | lambda_handler.py:105 | text without quotes is left alone |
| WaypointParsing.ParseWaypoints | lambda_handler.py:104-105 | the parse gives at least one name, even for an empty cell |
| WaypointParsing.ParsedNamesClean | lambda_handler.py:104-105 | one name per comma left, plus one, and every name clean |
| WaypointParsing.ParseOfFormat | lambda_handler.py:104-105 | the text of a non-empty list of clean names parses back to the names |
| WaypointParsing.StripFormat | lambda_handler.py:105 | stripping the brackets of a list's text leaves the quoted names |
| WaypointParsing.UnquoteName | lambda_handler.py:105 | deleting the quotes around a clean name gives the name |
| WaypointParsing.UnquoteQuoted | lambda_handler.py:105 | deleting the quotes of the quoted names gives the names joined by `, ` |
| WaypointParsing.SpacedJoin | lambda_handler.py:105 | joining by `, ` is joining by `,` with a blank before every name but the first |
| WaypointParsing.StripClean | lambda_handler.py:105 | trimming a clean name, with or without a blank before it, gives the name |
| WaypointParsing.ParseExampleList | lambda_handler.py:104-105 | `['A', 'B']` parses to `A`, `B` |
| WaypointParsing.ParseEmptyCell | lambda_handler.py:104-105 | `[]` parses to one empty name, not to an empty plan |

## Left out

- `haversine` (both files) is trigonometric floating-point code. It is a function parameter of `World`, and no property of it is assumed. The two variants' units (nautical miles or kilometres) are kept apart by name only.
- OpenAP `FuelFlow` is a function parameter of `World`. Its exceptions are the `None` answer. Neither its values nor their sign are assumed, except where a lemma states it as a hypothesis.
- Floating point: all costs and masses are exact reals. Rounding, overflow to `inf` from finite values, and `NaN` are not modelled. `inf` appears only where the source produces it on purpose (`float('inf')`, a failed notebook burn).
- `round(...)` in the notebook's route entries and in both result records is display rounding. The model keeps the exact values. In the notebook, route entries therefore carry the exact burn and mass.
- `heapq`'s tie-break is not modelled. Python compares the rest of the tuple when priorities are equal. The model pops some entry of least priority, and no property depends on which one.
- NotebookRunner.AStarSearch and LambdaHandler.AStarSearch: optimality is not claimed. Neither search keeps a closed set. The notebook search re-expands stale entries using the current g-score while carrying the stale node's route and mass. Its reported fuel is therefore only bounded by the fuel on its route.
- LambdaHandler.AStarSearch and LambdaReport.RunFuelOptimization: the optimized fuel is what the fuel model charges along some route of the plan to the returned route's last state, but not necessarily along the returned route itself. A `came_from` link is not updated when its predecessor's cost later drops, so the rebuilt route's own price may differ from `total_fuel`.
- The report's `flight_id` log line and the JSON encoding are left out. The lambda success and error dictionaries are the two cases of `Report`.
- Preconditions (`WellFormed`) on the plan:
  - a non-empty plan: `waypoints[0]` raises `IndexError` on an empty one;
  - coordinates for every waypoint: a plan of two or more waypoints raises `KeyError` on one without, while a one-waypoint plan looks up none, so there the model asks more than the code;
  - waypoints without repeats: this is a restriction of the model, not an exception of the code. Repeated waypoints raise nothing; states are keyed by name and `list.index` finds the first occurrence, so a repeated waypoint would make both searches revisit an earlier part of the plan, and that is not modelled.
- A weather value that is not a number, or a missing `current_weather` field, belongs to the weather fetch. That fetch is not part of this model.
- Fetching the plan (pandas CSV, `ALL_FLIGHT_PLANS`), fetching weather (HTTP), publishing to SQS, the agent and LLM loop, argparse, the environment checks, the dashboard and the connectivity test are I/O or glue. None of them is modelled. From `get_flight_plan` only the waypoint-cell parse is modelled. Its error dictionaries (plan not found, file missing, other exceptions) are left out.
- The hard-coded coordinate tables are configuration. They are the `coords` map of `World`.
- `str.isspace` is written out for the code points Python treats as white space. Unicode normalisation does not arise.
