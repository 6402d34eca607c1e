/**
 Where a twin is and how it gets there: apps/admin-web/src/world/commute.ts on top of the road
 graph.  The geometric distance and the id hash are parameters.
 */
module Commute {
  import opened Options
  import opened Town

  /** Two places are the same exactly when their keys are: a project's key starts with "project:". */
  datatype Place = Residence | Hall | Project(id: string)

  datatype Vehicle = Walk | Bicycle | Motorbike

  const RESIDENCE_NODE := Node("residence")
  const HALL_NODE := Node("hall")

  /** The road node of each lot, and the roads. */
  datatype TownPlan = TownPlan(lots: seq<Node>, roads: RoadGraph)

  datatype World = World(town: TownPlan, d: (Vec2, Vec2) -> real, hash: string -> nat)

  datatype CommuteState = CommuteState(
    place: Place, placeNode: Node, target: Place, targetNode: Node,
    path: Option<seq<Vec2>>, startMs: real, distance: real, vehicle: Vehicle)

  /** One call: what the payload asks for, the current lot assignment and the clock. */
  datatype Input = Input(desired: Place, lotOf: map<string, nat>, nowMs: real, reducedMotion: bool)

  const WALK_SPEED := 1.1
  const BICYCLE_SPEED := 4.2
  const MOTORBIKE_SPEED := 9.5

  function VehicleFor(distance: real, agentId: string, hash: string -> nat): Vehicle {
    var adjusted := distance + ((hash(agentId) % 7) as int - 3) as real;
    if adjusted <= 14.0 then Walk else if adjusted <= 40.0 then Bicycle else Motorbike
  }

  /** Lot assignments only name lots of the plan. */
  predicate LotsKnown(town: TownPlan, lotOf: map<string, nat>) {
    forall id :: id in lotOf ==> lotOf[id] < |town.lots|
  }

  function ResolvePlaceNode(place: Place, town: TownPlan, lotOf: map<string, nat>): Node
    requires LotsKnown(town, lotOf)
  {
    match place
    case Residence => RESIDENCE_NODE
    case Hall => HALL_NODE
    case Project(id) => if id in lotOf then town.lots[lotOf[id]] else HALL_NODE
  }

  function LengthOf(d: (Vec2, Vec2) -> real, points: seq<Vec2>): real {
    if |points| < 2 then 0.0
    else LengthOf(d, points[..|points| - 1]) + d(points[|points| - 2], points[|points| - 1])
  }

  /** `pathLength`. */
  method PathLength(d: (Vec2, Vec2) -> real, points: seq<Vec2>) returns (total: real)
    ensures total == LengthOf(d, points)
  {
    total := 0.0;
    var i := 1;
    while i < |points|
      invariant 1 <= i && (i <= |points| || |points| == 0)
      invariant total == LengthOf(d, if i <= |points| then points[..i] else points)
    {
      assert points[..i + 1][..i] == points[..i];
      total := total + d(points[i - 1], points[i]);
      i := i + 1;
    }
    assert i == |points| ==> points[..i] == points;
  }

  function SettledAt(place: Place, node: Node, nowMs: real): CommuteState {
    CommuteState(place, node, place, node, None, nowMs, 0.0, Walk)
  }

  function TravelMs(s: CommuteState): real {
    match s.vehicle
    case Walk => s.distance / WALK_SPEED * 1000.0
    case Bicycle => s.distance / BICYCLE_SPEED * 1000.0
    case Motorbike => s.distance / MOTORBIKE_SPEED * 1000.0
  }

  predicate Due(s: CommuteState, nowMs: real) {
    s.path.Some? && nowMs - s.startMs >= TravelMs(s)
  }

  /** A finished trip puts the twin at the node the trip was resolved to when it started. */
  function Arrived(s: CommuteState, nowMs: real): CommuteState {
    if Due(s, nowMs) then s.(place := s.target, placeNode := s.targetNode, path := None) else s
  }

  /** `startTrip`, given what `shortestPath` answered. */
  function StartTrip(
    w: World, from: CommuteState, to: Place, toNode: Node, agentId: string, nowMs: real,
    route: Option<seq<Vec2>>): CommuteState {
    var path := if from.placeNode == toNode then None else route;
    var distance := if path.Some? then LengthOf(w.d, path.value) else 0.0;
    if path.None? || distance <= 0.0 then SettledAt(to, toNode, nowMs)
    else CommuteState(from.place, from.placeNode, to, toNode, path, nowMs, distance,
                      VehicleFor(distance, agentId, w.hash))
  }

  /** `stepCommute`, given what `shortestPath` answers if it is asked. */
  function StepWith(w: World, agentId: string, prev: CommuteState, i: Input, route: Option<seq<Vec2>>): CommuteState
    requires LotsKnown(w.town, i.lotOf)
  {
    var node := ResolvePlaceNode(i.desired, w.town, i.lotOf);
    if i.reducedMotion then
      if prev.path.None? && prev.place == i.desired && prev.target == i.desired then prev
      else SettledAt(i.desired, node, i.nowMs)
    else
      var s := Arrived(prev, i.nowMs);
      if s.path.Some? || s.place == i.desired then s else StartTrip(w, s, i.desired, node, agentId, i.nowMs, route)
  }

  /** What `ShortestPath` promises. */
  ghost predicate Answers(g: RoadGraph, from: Node, to: Node, route: Option<seq<Vec2>>) {
    match route
    case None => !(from in g.nodes && to in g.nodes && Way(g, from, to))
    case Some(points) => ShortestRoad(g, from, to, points)
  }

  /** One step, with any route that `shortestPath` may return. */
  ghost predicate Step(w: World, agentId: string, prev: CommuteState, i: Input, next: CommuteState) {
    LotsKnown(w.town, i.lotOf) && exists route ::
      && Answers(w.town.roads, Arrived(prev, i.nowMs).placeNode, ResolvePlaceNode(i.desired, w.town, i.lotOf), route)
      && next == StepWith(w, agentId, prev, i, route)
  }

  // ----- one step, in numbers -----

  /** At 1.1, 4.2 or 9.5 units a second the trip's distance has been covered by `nowMs`. */
  predicate Covered(s: CommuteState, nowMs: real) {
    match s.vehicle
    case Walk => (nowMs - s.startMs) * 1.1 >= 1000.0 * s.distance
    case Bicycle => (nowMs - s.startMs) * 4.2 >= 1000.0 * s.distance
    case Motorbike => (nowMs - s.startMs) * 9.5 >= 1000.0 * s.distance
  }

  lemma DueIff(s: CommuteState, nowMs: real)
    ensures Due(s, nowMs) <==> s.path.Some? && Covered(s, nowMs)
  {
  }

  /** With `k` from 0 to 6 by the agent's id: up to 17 - k on foot, up to 43 - k by bicycle, then by
      motorbike. */
  predicate Suits(vehicle: Vehicle, distance: real, k: nat) {
    && (vehicle.Walk? <==> distance <= 17.0 - k as real)
    && (vehicle.Motorbike? <==> distance > 43.0 - k as real)
  }

  lemma VehicleSuits(distance: real, agentId: string, hash: string -> nat)
    ensures Suits(VehicleFor(distance, agentId, hash), distance, hash(agentId) % 7)
  {
  }

  /** The node of a place: the residence's, the hall's, or the road node of the project's lot; a
      project without a lot is at the hall. */
  ghost predicate NodeOf(place: Place, w: World, lotOf: map<string, nat>, node: Node)
    requires LotsKnown(w.town, lotOf)
  {
    match place
    case Residence => node == Node("residence")
    case Hall => node == Node("hall")
    case Project(id) => if id in lotOf then node == w.town.lots[lotOf[id]] else node == Node("hall")
  }

  /** From `node`, at `place`, towards the place asked for: along a shortest road of positive length,
      or there at once if it is the same node or no such road leads there. */
  ghost predicate SetsOff(w: World, agentId: string, place: Place, node: Node, i: Input, next: CommuteState)
    requires LotsKnown(w.town, i.lotOf)
  {
    && next.target == i.desired && NodeOf(i.desired, w, i.lotOf, next.targetNode) && next.startMs == i.nowMs
    && match next.path
       case Some(points) =>
         && next.place == place && next.placeNode == node && node != next.targetNode
         && ShortestRoad(w.town.roads, node, next.targetNode, points)
         && next.distance == LengthOf(w.d, points) > 0.0
         && Suits(next.vehicle, next.distance, w.hash(agentId) % 7)
       case None =>
         && next.place == i.desired && next.placeNode == next.targetNode
         && (node == next.targetNode || NoRoad(w, node, next.targetNode))
  }

  /** There is no way, or a shortest one has no length. */
  ghost predicate NoRoad(w: World, a: Node, b: Node) {
    || !(a in w.town.roads.nodes && b in w.town.roads.nodes && Way(w.town.roads, a, b))
    || exists points :: ShortestRoad(w.town.roads, a, b, points) && LengthOf(w.d, points) <= 0.0
  }

  /** A trip ends exactly when its distance is covered, at its target, and is left alone until then.
      A twin that is free stays at the place asked for, or sets off to it.  Without motion it is there
      at once. */
  ghost predicate Proceeds(w: World, agentId: string, prev: CommuteState, i: Input, next: CommuteState)
    requires LotsKnown(w.town, i.lotOf)
  {
    if i.reducedMotion then
      if prev.path.None? && prev.place == i.desired && prev.target == i.desired then next == prev
      else
        && next.path.None? && next.place == next.target == i.desired && next.startMs == i.nowMs
        && next.placeNode == next.targetNode && NodeOf(i.desired, w, i.lotOf, next.placeNode)
    else if prev.path.Some? && !Covered(prev, i.nowMs) then next == prev
    else if prev.path.Some? then
      if prev.target == i.desired
      then next == prev.(place := prev.target, placeNode := prev.targetNode, path := None)
      else SetsOff(w, agentId, prev.target, prev.targetNode, i, next)
    else if prev.place == i.desired then next == prev
    else SetsOff(w, agentId, prev.place, prev.placeNode, i, next)
  }

  lemma ResolvedNode(w: World, place: Place, lotOf: map<string, nat>)
    requires LotsKnown(w.town, lotOf)
    ensures NodeOf(place, w, lotOf, ResolvePlaceNode(place, w.town, lotOf))
  {
  }

  lemma TripSetsOff(w: World, agentId: string, from: CommuteState, i: Input, route: Option<seq<Vec2>>)
    requires LotsKnown(w.town, i.lotOf) && from.path.None?
    requires Answers(w.town.roads, from.placeNode, ResolvePlaceNode(i.desired, w.town, i.lotOf), route)
    ensures var node := ResolvePlaceNode(i.desired, w.town, i.lotOf);
            var next := StartTrip(w, from, i.desired, node, agentId, i.nowMs, route);
            SetsOff(w, agentId, from.place, from.placeNode, i, next)
  {
    ResolvedNode(w, i.desired, i.lotOf);
    if route.Some? { VehicleSuits(LengthOf(w.d, route.value), agentId, w.hash); }
  }

  lemma StepProceeds(w: World, agentId: string, prev: CommuteState, i: Input, next: CommuteState)
    requires Step(w, agentId, prev, i, next)
    ensures Proceeds(w, agentId, prev, i, next)
  {
    var s, node := Arrived(prev, i.nowMs), ResolvePlaceNode(i.desired, w.town, i.lotOf);
    var route :| Answers(w.town.roads, s.placeNode, node, route) && next == StepWith(w, agentId, prev, i, route);
    DueIff(prev, i.nowMs);
    ResolvedNode(w, i.desired, i.lotOf);
    if s.path.None? { TripSetsOff(w, agentId, s, i, route); }
  }

  method StepCommute(w: World, agentId: string, prev: CommuteState, i: Input) returns (next: CommuteState)
    requires WellFormed(w.town.roads) && Truthful(w.town.roads) && LotsKnown(w.town, i.lotOf)
    ensures Step(w, agentId, prev, i, next) && Proceeds(w, agentId, prev, i, next)
  {
    var state := Arrived(prev, i.nowMs);
    var toNode := ResolvePlaceNode(i.desired, w.town, i.lotOf);
    var route := ShortestPath(w.town.roads, state.placeNode, toNode);
    assert Answers(w.town.roads, state.placeNode, toNode, route);
    next := StepWith(w, agentId, prev, i, route);
    StepProceeds(w, agentId, prev, i, next);
  }

  // ----- a usable plan -----

  ghost predicate Connected(g: RoadGraph) {
    forall a, b {:trigger Way(g, a, b)} :: a in g.nodes && b in g.nodes ==> Way(g, a, b)
  }

  ghost predicate DistinctPositions(g: RoadGraph) {
    forall a, b :: a in g.nodes && b in g.nodes && g.nodes[a] == g.nodes[b] ==> a == b
  }

  /** A distance is zero between equal points only. */
  ghost predicate Separates(d: (Vec2, Vec2) -> real) {
    forall a, b :: d(a, b) >= 0.0 && (d(a, b) == 0.0 ==> a == b)
  }

  ghost predicate PlanOk(w: World) {
    && WellFormed(w.town.roads) && Truthful(w.town.roads)
    && Connected(w.town.roads) && DistinctPositions(w.town.roads) && Separates(w.d)
    && RESIDENCE_NODE in w.town.roads.nodes && HALL_NODE in w.town.roads.nodes
    && forall k :: 0 <= k < |w.town.lots| ==> w.town.lots[k] in w.town.roads.nodes
  }

  /** Nothing about a twin's position is left to the current lot assignment. */
  ghost predicate Placed(w: World, s: CommuteState) {
    && s.placeNode in w.town.roads.nodes && s.targetNode in w.town.roads.nodes
    && match s.path
       case None => s.target == s.place && s.targetNode == s.placeNode
       case Some(points) => s.placeNode != s.targetNode && ShortestRoad(w.town.roads, s.placeNode, s.targetNode, points)
                            && s.distance == LengthOf(w.d, points) && s.distance > 0.0
  }

  /** `initCommute`: a twin appears at its place. */
  function InitCommute(place: Place, town: TownPlan, lotOf: map<string, nat>): CommuteState
    requires LotsKnown(town, lotOf)
  {
    SettledAt(place, ResolvePlaceNode(place, town, lotOf), 0.0)
  }

  lemma InitIsPlaced(w: World, place: Place, lotOf: map<string, nat>)
    requires PlanOk(w) && LotsKnown(w.town, lotOf)
    ensures Placed(w, InitCommute(place, w.town, lotOf)) && IsArrivedAt(InitCommute(place, w.town, lotOf), place)
  {
    ResolvedIsKnown(w, place, lotOf);
  }

  lemma {:induction false} ShortPathMoves(d: (Vec2, Vec2) -> real, points: seq<Vec2>)
    requires Separates(d) && |points| > 0
    ensures LengthOf(d, points) >= 0.0
    ensures LengthOf(d, points) == 0.0 ==> points[0] == points[|points| - 1]
  {
    if |points| > 1 { ShortPathMoves(d, points[..|points| - 1]); }
  }

  lemma RoadEnds(w: World, a: Node, b: Node, points: seq<Vec2>)
    requires ShortestRoad(w.town.roads, a, b, points)
    ensures a in w.town.roads.nodes && b in w.town.roads.nodes && |points| > 0
    ensures points[0] == w.town.roads.nodes[a] && points[|points| - 1] == w.town.roads.nodes[b]
  {
  }

  /** In a usable plan there is always a way of positive length to another node. */
  lemma RouteMoves(w: World, a: Node, b: Node, route: Option<seq<Vec2>>)
    requires PlanOk(w) && a in w.town.roads.nodes
    requires b in w.town.roads.nodes && a != b && Answers(w.town.roads, a, b, route)
    ensures route.Some? && ShortestRoad(w.town.roads, a, b, route.value) && LengthOf(w.d, route.value) > 0.0
  {
    assert Way(w.town.roads, a, b);
    RoadEnds(w, a, b, route.value);
    ShortPathMoves(w.d, route.value);
  }

  // ----- one step with motion on -----

  /** The node the twin stands at once a trip that is due has ended. */
  function Standing(prev: CommuteState, nowMs: real): Node {
    if Due(prev, nowMs) then prev.targetNode else prev.placeNode
  }

  /** A step sets the twin on a new trip. */
  predicate Departs(prev: CommuteState, i: Input, next: CommuteState) {
    next.path.Some? && (prev.path.None? || Due(prev, i.nowMs))
  }

  lemma ResolvedIsKnown(w: World, place: Place, lotOf: map<string, nat>)
    requires PlanOk(w) && LotsKnown(w.town, lotOf)
    ensures ResolvePlaceNode(place, w.town, lotOf) in w.town.roads.nodes
  {
  }

  /** A trip from a standing twin: a real road to another node, or no move at all. */
  lemma TripMoves(
    w: World, agentId: string, s: CommuteState, to: Place, node: Node, nowMs: real, route: Option<seq<Vec2>>)
    requires Placed(w, s) && s.path.None? && node in w.town.roads.nodes
    requires s.placeNode != node ==>
               route.Some? && ShortestRoad(w.town.roads, s.placeNode, node, route.value)
                 && LengthOf(w.d, route.value) > 0.0
    ensures var next := StartTrip(w, s, to, node, agentId, nowMs, route);
            && Placed(w, next) && next.placeNode == s.placeNode && next.target == to && next.targetNode == node
            && (next.path.None? ==> next.place == to)
  {
  }

  /** Finishing a trip that is due leaves the twin placed, at the trip's end. */
  lemma ArrivalMoves(w: World, prev: CommuteState, nowMs: real)
    requires Placed(w, prev)
    ensures Placed(w, Arrived(prev, nowMs)) && Arrived(prev, nowMs).placeNode == Standing(prev, nowMs)
    ensures prev.path.Some? && !Due(prev, nowMs) ==> Arrived(prev, nowMs) == prev
    ensures Due(prev, nowMs) ==> Arrived(prev, nowMs).path.None?
  {
  }

  /** What one step may do: the twin's node changes only by finishing a trip there, whatever the
      lots do; a trip in progress is left alone; a new trip leads from where the twin stands to the
      place asked for; a twin that is not under way is at the place asked for. */
  ghost predicate Moves(w: World, prev: CommuteState, i: Input, next: CommuteState) {
    && Placed(w, prev) && Placed(w, next) && LotsKnown(w.town, i.lotOf)
    && next.placeNode == Standing(prev, i.nowMs)
    && (Due(prev, i.nowMs) <==> prev.path.Some? && Covered(prev, i.nowMs))
    && (prev.path.Some? && !Due(prev, i.nowMs) ==> next == prev)
    && (Departs(prev, i, next) ==> (if prev.path.Some? then prev.target else prev.place) != i.desired)
    && (Departs(prev, i, next) ==>
          next.target == i.desired && next.targetNode == ResolvePlaceNode(i.desired, w.town, i.lotOf))
    && (next.path.None? ==> next.place == i.desired)
  }

  lemma StepMoves(w: World, agentId: string, prev: CommuteState, i: Input, next: CommuteState)
    requires PlanOk(w) && Placed(w, prev) && Step(w, agentId, prev, i, next) && !i.reducedMotion
    ensures Moves(w, prev, i, next)
  {
    DueIff(prev, i.nowMs);
    var s := Arrived(prev, i.nowMs);
    var node := ResolvePlaceNode(i.desired, w.town, i.lotOf);
    var route :| Answers(w.town.roads, s.placeNode, node, route) && next == StepWith(w, agentId, prev, i, route);
    ArrivalMoves(w, prev, i.nowMs);
    ResolvedIsKnown(w, i.desired, i.lotOf);
    if s.path.None? && s.place != i.desired {
      if s.placeNode != node { RouteMoves(w, s.placeNode, node, route); }
      TripMoves(w, agentId, s, i.desired, node, i.nowMs, route);
    }
  }

  // ----- whole runs with motion on -----

  ghost predicate StepAt(w: World, agentId: string, ss: seq<CommuteState>, ins: seq<Input>, k: nat) {
    k < |ins| && k + 1 < |ss| && !ins[k].reducedMotion && Step(w, agentId, ss[k], ins[k], ss[k + 1])
  }

  /** `ss` are the states before, between and after the calls `ins`. */
  ghost predicate IsRun(w: World, agentId: string, ss: seq<CommuteState>, ins: seq<Input>) {
    && |ss| == |ins| + 1
    && forall k: nat {:trigger StepAt(w, agentId, ss, ins, k)} :: k < |ins| ==> StepAt(w, agentId, ss, ins, k)
  }

  ghost predicate MovesAt(w: World, ss: seq<CommuteState>, ins: seq<Input>, k: nat) {
    k < |ins| && k + 1 < |ss| && Moves(w, ss[k], ins[k], ss[k + 1])
  }

  /** Each step moves the twin as `Moves` says. */
  ghost predicate Journey(w: World, ss: seq<CommuteState>, ins: seq<Input>) {
    && |ss| == |ins| + 1
    && forall k: nat {:trigger MovesAt(w, ss, ins, k)} :: k < |ins| ==> MovesAt(w, ss, ins, k)
  }

  ghost predicate PlacedAt(w: World, ss: seq<CommuteState>, k: int) {
    0 <= k < |ss| && Placed(w, ss[k])
  }

  lemma StepPlaces(w: World, agentId: string, ss: seq<CommuteState>, ins: seq<Input>, k: nat)
    requires PlanOk(w) && StepAt(w, agentId, ss, ins, k) && PlacedAt(w, ss, k)
    ensures MovesAt(w, ss, ins, k) && PlacedAt(w, ss, k + 1)
  {
    StepMoves(w, agentId, ss[k], ins[k], ss[k + 1]);
  }

  lemma RunStepPlaces(w: World, agentId: string, ss: seq<CommuteState>, ins: seq<Input>, k: nat)
    ensures PlanOk(w) && IsRun(w, agentId, ss, ins) && PlacedAt(w, ss, k) && k < |ins| ==> PlacedAt(w, ss, k + 1)
  {
    if PlanOk(w) && IsRun(w, agentId, ss, ins) && PlacedAt(w, ss, k) && k < |ins| {
      StepPlaces(w, agentId, ss, ins, k);
    }
  }

  lemma {:induction false} Persists(good: seq<bool>, k: nat)
    requires k < |good| && good[0] && forall j {:trigger good[j]} :: 0 <= j < |good| - 1 && good[j] ==> good[j + 1]
    ensures good[k]
  {
    if k > 0 { Persists(good, k - 1); }
  }

  lemma RunPlaces(w: World, agentId: string, ss: seq<CommuteState>, ins: seq<Input>, k: nat)
    requires PlanOk(w) && IsRun(w, agentId, ss, ins) && PlacedAt(w, ss, 0) && k <= |ins|
    ensures PlacedAt(w, ss, k)
  {
    var good := seq(|ss|, j requires 0 <= j < |ss| => PlacedAt(w, ss, j));
    forall j {:trigger good[j]} | 0 <= j < |good| - 1 && good[j] ensures good[j + 1] {
      RunStepPlaces(w, agentId, ss, ins, j);
    }
    Persists(good, k);
  }

  lemma RunMoves(w: World, agentId: string, ss: seq<CommuteState>, ins: seq<Input>, k: nat)
    requires PlanOk(w) && IsRun(w, agentId, ss, ins) && Placed(w, ss[0]) && k < |ins|
    ensures MovesAt(w, ss, ins, k)
  {
    RunPlaces(w, agentId, ss, ins, k);
    StepPlaces(w, agentId, ss, ins, k);
  }

  /** In a usable plan every run is a journey. */
  lemma RunIsJourney(w: World, agentId: string, ss: seq<CommuteState>, ins: seq<Input>)
    requires PlanOk(w) && IsRun(w, agentId, ss, ins) && Placed(w, ss[0])
    ensures Journey(w, ss, ins)
  {
    forall k: nat {:trigger MovesAt(w, ss, ins, k)} | k < |ins| ensures MovesAt(w, ss, ins, k) {
      RunMoves(w, agentId, ss, ins, k);
    }
  }

  /** Step `k` sets the twin on a new trip. */
  predicate DepartsAt(ss: seq<CommuteState>, ins: seq<Input>, k: nat) {
    k < |ins| && k + 1 < |ss| && Departs(ss[k], ins[k], ss[k + 1])
  }

  /** The twin is on the trip begun in state `d`, or stands where that trip ends. */
  ghost predicate OnTrip(d: CommuteState, s: CommuteState) {
    s == d || (s.path.None? && s.placeNode == d.targetNode)
  }

  /** How step `k` carries on a trip: nothing changes until it is due, then the twin stands at its end. */
  ghost predicate RidesAt(ss: seq<CommuteState>, ins: seq<Input>, k: nat) {
    && k < |ins| && k + 1 < |ss| && ss[k + 1].placeNode == Standing(ss[k], ins[k].nowMs)
    && (ss[k].path.Some? && !Due(ss[k], ins[k].nowMs) ==> ss[k + 1] == ss[k])
  }

  lemma MovesRide(w: World, ss: seq<CommuteState>, ins: seq<Input>, k: nat)
    requires MovesAt(w, ss, ins, k)
    ensures RidesAt(ss, ins, k)
  {
  }

  lemma {:induction false} SinceDeparture(ss: seq<CommuteState>, ins: seq<Input>, j: nat, k: nat)
    requires |ss| == |ins| + 1 && j < k < |ss| && DepartsAt(ss, ins, j)
    requires forall m: nat {:trigger DepartsAt(ss, ins, m)} :: j < m < k ==> !DepartsAt(ss, ins, m)
    requires forall m: nat {:trigger RidesAt(ss, ins, m)} :: j < m < k ==> RidesAt(ss, ins, m)
    ensures ss[j + 1].path.Some? && OnTrip(ss[j + 1], ss[k])
    decreases k
  {
    if k > j + 1 {
      SinceDeparture(ss, ins, j, k - 1);
      assert RidesAt(ss, ins, k - 1);
      assert !DepartsAt(ss, ins, k - 1);
    }
  }

  /** The trip begun by step `k` starts at the node, and the point, where the one begun by step `j` ended. */
  ghost predicate Chained(ss: seq<CommuteState>, j: nat, k: nat) {
    && j + 1 < |ss| && k + 1 < |ss| && ss[k + 1].placeNode == ss[j + 1].targetNode
    && ss[j + 1].path.Some? && ss[k + 1].path.Some? && ss[j + 1].path.value != [] && ss[k + 1].path.value != []
    && ss[k + 1].path.value[0] == ss[j + 1].path.value[|ss[j + 1].path.value| - 1]
  }

  /** Steps `j` and `k` begin trips and no step between them does. */
  ghost predicate Successive(ss: seq<CommuteState>, ins: seq<Input>, j: nat, k: nat) {
    && j < k && DepartsAt(ss, ins, j) && DepartsAt(ss, ins, k)
    && (forall m: nat {:trigger DepartsAt(ss, ins, m)} :: j < m < k ==> !DepartsAt(ss, ins, m))
  }

  lemma JourneyChains(w: World, ss: seq<CommuteState>, ins: seq<Input>, j: nat, k: nat)
    requires Journey(w, ss, ins) && Successive(ss, ins, j, k)
    ensures Chained(ss, j, k)
  {
    forall m: nat {:trigger RidesAt(ss, ins, m)} | j < m < k ensures RidesAt(ss, ins, m) {
      assert MovesAt(w, ss, ins, m);
      MovesRide(w, ss, ins, m);
    }
    SinceDeparture(ss, ins, j, k);
    assert MovesAt(w, ss, ins, k) && MovesAt(w, ss, ins, j);
    RoadEnds(w, ss[k + 1].placeNode, ss[k + 1].targetNode, ss[k + 1].path.value);
    RoadEnds(w, ss[j + 1].placeNode, ss[j + 1].targetNode, ss[j + 1].path.value);
  }

  /** In every run every trip starts where the one before it ended, whatever happened to the lot
      assignment in between. */
  lemma TripsChain(w: World, agentId: string, ss: seq<CommuteState>, ins: seq<Input>, j: nat, k: nat)
    requires PlanOk(w) && IsRun(w, agentId, ss, ins) && Placed(w, ss[0]) && Successive(ss, ins, j, k)
    ensures Chained(ss, j, k)
  {
    RunIsJourney(w, agentId, ss, ins);
    JourneyChains(w, ss, ins, j, k);
  }

  /** `isArrivedAt`. */
  predicate IsArrivedAt(s: CommuteState, place: Place) {
    s.path.None? && s.place == place
  }

  /** Trips finished during a run. */
  function Finished(ss: seq<CommuteState>, ins: seq<Input>): nat
    requires |ss| == |ins| + 1
  {
    if ins == [] then 0
    else Finished(ss[..|ins|], ins[..|ins| - 1]) + if Due(ss[|ins| - 1], ins[|ins| - 1].nowMs) then 1 else 0
  }

  /** How many trips still have to be finished before the twin is at `place`. */
  function TripsLeft(s: CommuteState, place: Place): nat {
    if s.path.None? then if s.place == place then 0 else 1
    else if s.target == place then 1 else 2
  }

  /** One step towards a place that stays desired: a finished trip brings the twin closer. */
  lemma TripsStep(w: World, prev: CommuteState, i: Input, next: CommuteState)
    requires Moves(w, prev, i, next)
    ensures (if Due(prev, i.nowMs) then 1 else 0) + TripsLeft(next, i.desired) <= TripsLeft(prev, i.desired)
    ensures IsArrivedAt(next, i.desired) || next.path.Some?
  {
  }

  lemma {:induction false} TripsCount(w: World, ss: seq<CommuteState>, ins: seq<Input>, place: Place)
    requires Journey(w, ss, ins) && forall k :: 0 <= k < |ins| ==> ins[k].desired == place
    ensures Finished(ss, ins) + TripsLeft(ss[|ins|], place) <= TripsLeft(ss[0], place)
  {
    var n := |ins|;
    if n > 0 {
      var ss', ins' := ss[..n], ins[..n - 1];
      forall k: nat {:trigger MovesAt(w, ss', ins', k)} | k < n - 1 ensures MovesAt(w, ss', ins', k) {
        assert MovesAt(w, ss, ins, k);
      }
      TripsCount(w, ss', ins', place);
      assert MovesAt(w, ss, ins, n - 1);
      TripsStep(w, ss[n - 1], ins[n - 1], ss[n]);
    }
  }

  lemma JourneySettles(w: World, ss: seq<CommuteState>, ins: seq<Input>, place: Place)
    requires Journey(w, ss, ins) && forall k :: 0 <= k < |ins| ==> ins[k].desired == place
    ensures Finished(ss, ins) <= 2
    ensures Finished(ss, ins) == 2 ==> IsArrivedAt(ss[|ins|], place)
    ensures |ins| > 0 ==> IsArrivedAt(ss[|ins|], place) || ss[|ins|].path.Some?
  {
    TripsCount(w, ss, ins, place);
    if |ins| > 0 {
      assert MovesAt(w, ss, ins, |ins| - 1);
      TripsStep(w, ss[|ins| - 1], ins[|ins| - 1], ss[|ins|]);
    }
  }

  /** Once the desired place stays fixed at most two trips are finished, after two of them the
      twin is there, and after any step it is there or under way. */
  lemma ThereAfterTwoTrips(w: World, agentId: string, ss: seq<CommuteState>, ins: seq<Input>, place: Place)
    requires PlanOk(w) && IsRun(w, agentId, ss, ins) && Placed(w, ss[0])
    requires forall k :: 0 <= k < |ins| ==> ins[k].desired == place
    ensures Finished(ss, ins) <= 2
    ensures Finished(ss, ins) == 2 ==> IsArrivedAt(ss[|ins|], place)
    ensures |ins| > 0 ==> IsArrivedAt(ss[|ins|], place) || ss[|ins|].path.Some?
  {
    RunIsJourney(w, agentId, ss, ins);
    JourneySettles(w, ss, ins, place);
  }

  /** A twin that has arrived stays, unchanged, for as long as the place stays desired. */
  lemma {:induction false} ThereForGood(
    w: World, agentId: string, ss: seq<CommuteState>, ins: seq<Input>, place: Place, i: nat, k: nat)
    requires IsRun(w, agentId, ss, ins) && i <= k < |ss| && IsArrivedAt(ss[i], place)
    requires forall m :: i <= m < |ins| ==> ins[m].desired == place
    ensures ss[k] == ss[i]
    decreases k
  {
    if k > i {
      ThereForGood(w, agentId, ss, ins, place, i, k - 1);
      assert StepAt(w, agentId, ss, ins, k - 1);
    }
  }

  // ----- all of it, for a plan -----

  ghost predicate AllChained(ss: seq<CommuteState>, ins: seq<Input>) {
    forall j: nat, k: nat {:trigger Successive(ss, ins, j, k)} :: Successive(ss, ins, j, k) ==> Chained(ss, j, k)
  }

  ghost predicate Settles(ss: seq<CommuteState>, ins: seq<Input>, place: Place)
    requires |ss| == |ins| + 1
  {
    (forall k :: 0 <= k < |ins| ==> ins[k].desired == place) ==>
      && Finished(ss, ins) <= 2 && (Finished(ss, ins) == 2 ==> IsArrivedAt(ss[|ins|], place))
      && (|ins| > 0 ==> IsArrivedAt(ss[|ins|], place) || ss[|ins|].path.Some?)
      && forall i: nat, k: nat {:trigger ss[i], ss[k]} :: i <= k < |ss| && IsArrivedAt(ss[i], place) ==> ss[k] == ss[i]
  }

  /** In every run from a placed twin trips chain, and a place that stays desired is reached
      within two trips and for good. */
  ghost predicate CommutesWell(w: World) {
    forall agentId, ss, ins {:trigger IsRun(w, agentId, ss, ins)} ::
      IsRun(w, agentId, ss, ins) && Placed(w, ss[0]) ==>
        AllChained(ss, ins) && forall place {:trigger Settles(ss, ins, place)} :: Settles(ss, ins, place)
  }

  lemma RunSettles(w: World, agentId: string, ss: seq<CommuteState>, ins: seq<Input>, place: Place)
    requires PlanOk(w) && IsRun(w, agentId, ss, ins) && Placed(w, ss[0])
    ensures Settles(ss, ins, place)
  {
    if forall k :: 0 <= k < |ins| ==> ins[k].desired == place {
      ThereAfterTwoTrips(w, agentId, ss, ins, place);
      forall i: nat, k: nat {:trigger ss[i], ss[k]} | i <= k < |ss| && IsArrivedAt(ss[i], place)
        ensures ss[k] == ss[i]
      {
        ThereForGood(w, agentId, ss, ins, place, i, k);
      }
    }
  }

  lemma PlanCommutes(w: World)
    requires PlanOk(w)
    ensures CommutesWell(w)
  {
    forall agentId, ss, ins {:trigger IsRun(w, agentId, ss, ins)} | IsRun(w, agentId, ss, ins) && Placed(w, ss[0])
      ensures AllChained(ss, ins) && forall place {:trigger Settles(ss, ins, place)} :: Settles(ss, ins, place)
    {
      RunChains(w, agentId, ss, ins);
      forall place {:trigger Settles(ss, ins, place)} ensures Settles(ss, ins, place) {
        RunSettles(w, agentId, ss, ins, place);
      }
    }
  }

  lemma RunChains(w: World, agentId: string, ss: seq<CommuteState>, ins: seq<Input>)
    requires PlanOk(w) && IsRun(w, agentId, ss, ins) && Placed(w, ss[0])
    ensures AllChained(ss, ins)
  {
    forall j: nat, k: nat {:trigger Successive(ss, ins, j, k)} | Successive(ss, ins, j, k) ensures Chained(ss, j, k) {
      TripsChain(w, agentId, ss, ins, j, k);
    }
  }
}
