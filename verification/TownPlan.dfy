/**
 The town itself: `GraphBuilder` and `buildTownPlan` of apps/admin-web/src/world/town.ts.  The
 plan it builds is usable in the sense of `Commute.PlanOk`, so the commute theorems hold of the
 shipped town without hypotheses about it.
 */
module TownPlanning {
  import opened Options
  import opened Town
  import opened Commute
  import Lots

  /** What a road node stands for. */
  datatype Spot = West(street: nat) | East(street: nat) | Lot(street: nat, lot: nat) | Gate | AtResidence | AtHall {
    predicate InTown() {
      match this
      case West(s) => s < STREET_COUNT
      case East(s) => s < STREET_COUNT
      case Lot(s, i) => s < STREET_COUNT && i < LOTS_PER_STREET
      case _ => true
    }
  }

  function Digit(k: nat): char
    requires k < 10
  {
    ('0' as int + k) as char
  }

  /** The id of a spot. */
  function Name(p: Spot): Node
    requires p.InTown()
  {
    match p
    case West(s) => Node("w" + [Digit(s)])
    case East(s) => Node("e" + [Digit(s)])
    case Lot(s, i) => Node("lot-" + [Digit(s)] + "-" + [Digit(i)])
    case Gate => Node("gate")
    case AtResidence => RESIDENCE_NODE
    case AtHall => HALL_NODE
  }

  function StreetZ(street: nat): real {
    22.0 + street as real * 11.0
  }

  function LotFrontX(lot: nat): real {
    -28.0 + lot as real * 8.0
  }

  /** Where it is: half a street is 32, the avenue margin 4, and the hall stands 10 further east. */
  function At(p: Spot): Vec2 {
    match p
    case West(s) => Vec2(-36.0, StreetZ(s))
    case East(s) => Vec2(36.0, StreetZ(s))
    case Lot(s, i) => Vec2(LotFrontX(i), StreetZ(s))
    case Gate => Vec2(0.0, StreetZ(0))
    case AtResidence => Vec2(0.0, 3.15)
    case AtHall => Vec2(46.0, StreetZ(0))
  }

  lemma NamesDiffer(p: Spot, q: Spot)
    requires p.InTown() && q.InTown() && Name(p) == Name(q)
    ensures p == q
  {
    var a, b := Name(p).id, Name(q).id;
    assert a[0] == b[0];
    if p.Lot? && q.Lot? {
      assert a[4] == b[4] && a[6] == b[6];
    } else if p.West? || p.East? {
      assert a[1] == b[1];
    }
  }

  lemma SpotsDiffer(p: Spot, q: Spot)
    requires p.InTown() && q.InTown() && At(p) == At(q)
    ensures p == q
  {
  }

  lemma NamesNotEmpty(p: Spot)
    requires p.InTown()
    ensures Name(p) != EMPTY
  {
    assert |Name(p).id| > 0;
  }

  // ----- ways in both directions -----

  /** There is a way from `a` to `b` and one back. */
  ghost predicate Joined(g: RoadGraph, a: Node, b: Node) {
    Way(g, a, b) && Way(g, b, a)
  }

  lemma {:induction false} WalkThrough(g: RoadGraph, a: Node, v: seq<Edge>, w: seq<Edge>)
    requires IsWalk(g, a, v) && IsWalk(g, End(a, v), w)
    ensures IsWalk(g, a, v + w) && End(a, v + w) == End(End(a, v), w)
  {
    if w == [] {
      assert v + w == v;
    } else {
      WalkThrough(g, a, v, w[..|w| - 1]);
      assert (v + w)[..|v + w| - 1] == v + w[..|w| - 1];
    }
  }

  lemma WayThrough(g: RoadGraph, a: Node, b: Node, c: Node)
    requires Way(g, a, b) && Way(g, b, c)
    ensures Way(g, a, c)
  {
    var v: seq<Edge> :| Connects(g, a, b, v);
    var w: seq<Edge> :| Connects(g, b, c, w);
    WalkThrough(g, a, v, w);
    assert Connects(g, a, c, v + w);
  }

  lemma JoinedThrough(g: RoadGraph, a: Node, b: Node, c: Node)
    requires Joined(g, a, b) && Joined(g, b, c)
    ensures Joined(g, a, c)
  {
    WayThrough(g, a, b, c);
    WayThrough(g, c, b, a);
  }

  lemma JoinedToItself(g: RoadGraph, a: Node)
    ensures Joined(g, a, a)
  {
    assert Connects(g, a, a, []);
  }

  /** Every road of `g` is a road of `h`. */
  ghost predicate Extends(g: RoadGraph, h: RoadGraph) {
    forall u, e :: e in Out(g, u) ==> e in Out(h, u)
  }

  lemma {:induction false} WalkStays(g: RoadGraph, h: RoadGraph, a: Node, w: seq<Edge>)
    requires Extends(g, h) && IsWalk(g, a, w)
    ensures IsWalk(h, a, w)
  {
    if w != [] { WalkStays(g, h, a, w[..|w| - 1]); }
  }

  lemma JoinedStays(g: RoadGraph, h: RoadGraph, a: Node, b: Node)
    requires Extends(g, h) && Joined(g, a, b)
    ensures Joined(h, a, b)
  {
    var v: seq<Edge> :| Connects(g, a, b, v);
    var w: seq<Edge> :| Connects(g, b, a, w);
    WalkStays(g, h, a, v);
    WalkStays(g, h, b, w);
    assert Connects(h, a, b, v) && Connects(h, b, a, w);
  }

  // ----- building -----

  function Push(edges: map<Node, seq<Edge>>, a: Node, e: Edge): map<Node, seq<Edge>> {
    edges[a := (if a in edges then edges[a] else []) + [e]]
  }

  /** The roads after `edge(a, b)`, both directions at the same length. */
  function WithRoad(g: RoadGraph, a: Node, b: Node, dist: real): RoadGraph {
    RoadGraph(g.nodes, Push(Push(g.edges, a, Edge(b, dist)), b, Edge(a, dist)))
  }

  /** Nodes are spots at their places, and roads run between known nodes at their true length. */
  ghost predicate Surveyed(d: (Vec2, Vec2) -> real, g: RoadGraph) {
    && (forall n {:trigger IsSpot(g, n)} :: n in g.nodes ==> IsSpot(g, n))
    && (forall u :: u in g.edges ==> u in g.nodes)
    && (forall u, e {:trigger TrueLength(d, g, u, e)} :: e in Out(g, u) ==> TrueLength(d, g, u, e))
  }

  ghost predicate TrueLength(d: (Vec2, Vec2) -> real, g: RoadGraph, u: Node, e: Edge) {
    u in g.nodes && e.to in g.nodes && e.dist == d(g.nodes[u], g.nodes[e.to])
  }

  ghost predicate IsSpot(g: RoadGraph, n: Node) {
    n in g.nodes && exists p: Spot :: p.InTown() && Name(p) == n && At(p) == g.nodes[n]
  }

  /** A distance function: symmetric, non-negative, zero between equal points only. */
  ghost predicate Metric(d: (Vec2, Vec2) -> real) {
    Separates(d) && forall a, b :: d(a, b) == d(b, a)
  }

  lemma RoadKeepsSurvey(d: (Vec2, Vec2) -> real, g: RoadGraph, a: Node, b: Node)
    requires Metric(d) && Surveyed(d, g) && a in g.nodes && b in g.nodes
    ensures Surveyed(d, WithRoad(g, a, b, d(g.nodes[a], g.nodes[b])))
  {
    var h := WithRoad(g, a, b, d(g.nodes[a], g.nodes[b]));
    forall n | n in h.nodes ensures IsSpot(h, n) { assert IsSpot(g, n); }
    forall u, e | e in Out(h, u) ensures TrueLength(d, h, u, e) {
      assert e in Out(g, u) ==> TrueLength(d, g, u, e);
      assert e in Out(g, u) || (u == a && e.to == b) || (u == b && e.to == a);
    }
  }

  lemma SpotKeepsSurvey(d: (Vec2, Vec2) -> real, g: RoadGraph, p: Spot)
    requires Surveyed(d, g) && p.InTown()
    ensures Surveyed(d, g.(nodes := g.nodes[Name(p) := At(p)]))
    ensures Name(p) in g.nodes ==> g.nodes[Name(p) := At(p)] == g.nodes
  {
    var h := g.(nodes := g.nodes[Name(p) := At(p)]);
    if Name(p) in g.nodes {
      assert IsSpot(g, Name(p));
      var q: Spot :| q.InTown() && Name(q) == Name(p) && At(q) == g.nodes[Name(p)];
      NamesDiffer(p, q);
      assert h.nodes == g.nodes;
    }
    forall n | n in h.nodes ensures IsSpot(h, n) {
      if n != Name(p) { assert IsSpot(g, n); }
    }
    forall u, e | e in Out(h, u) ensures TrueLength(d, h, u, e) {
      assert e in Out(g, u) && TrueLength(d, g, u, e);
    }
  }

  lemma SpotPlace(d: (Vec2, Vec2) -> real, g: RoadGraph, p: Spot)
    requires Surveyed(d, g) && p.InTown() && Name(p) in g.nodes
    ensures g.nodes[Name(p)] == At(p)
  {
    assert IsSpot(g, Name(p));
    var q: Spot :| q.InTown() && Name(q) == Name(p) && At(q) == g.nodes[Name(p)];
    NamesDiffer(p, q);
  }

  lemma RoadJoins(g: RoadGraph, a: Node, b: Node, dist: real)
    ensures Extends(g, WithRoad(g, a, b, dist)) && Joined(WithRoad(g, a, b, dist), a, b)
  {
    var h := WithRoad(g, a, b, dist);
    var out, back := Edge(b, dist), Edge(a, dist);
    assert out in Out(h, a) && back in Out(h, b);
    assert IsWalk(h, b, []) && IsWalk(h, a, []);
    Prepend(h, a, out, []);
    Prepend(h, b, back, []);
    assert Connects(h, a, b, [out] + []) && Connects(h, b, a, [back] + []);
  }

  /** The map only grows. */
  ghost predicate Grows(g: RoadGraph, h: RoadGraph) {
    g.nodes.Keys <= h.nodes.Keys && Extends(g, h)
  }

  lemma GrowsOn(g: RoadGraph, h: RoadGraph, k: RoadGraph)
    requires Grows(g, h) && Grows(h, k)
    ensures Grows(g, k)
  {
  }

  class GraphBuilder {
    var nodes: map<Node, Vec2>
    var edges: map<Node, seq<Edge>>
    const d: (Vec2, Vec2) -> real

    ghost function Graph(): RoadGraph
      reads this
    {
      RoadGraph(nodes, edges)
    }

    ghost predicate Valid()
      reads this
    {
      Metric(d) && Surveyed(d, Graph())
    }

    constructor (d: (Vec2, Vec2) -> real)
      requires Metric(d)
      ensures Valid() && nodes == map[] && edges == map[] && this.d == d
    {
      nodes, edges, this.d := map[], map[], d;
      new;
      assert forall u :: Out(Graph(), u) == [];
    }

    /** Putting a spot on the map; doing it again changes nothing. */
    method AddNode(p: Spot)
      requires Valid() && p.InTown()
      modifies this`nodes
      ensures Valid() && nodes == old(nodes)[Name(p) := At(p)]
      ensures Name(p) in old(nodes) ==> nodes == old(nodes)
      ensures Grows(old(Graph()), Graph())
    {
      SpotKeepsSurvey(d, Graph(), p);
      nodes := nodes[Name(p) := At(p)];
    }

    /** `edge`: one road, usable both ways. */
    method AddRoad(p: Spot, q: Spot)
      requires Valid() && p.InTown() && q.InTown() && Name(p) in nodes && Name(q) in nodes
      modifies this`edges
      ensures Valid() && Graph() == WithRoad(old(Graph()), Name(p), Name(q), d(At(p), At(q)))
      ensures Grows(old(Graph()), Graph()) && Joined(Graph(), Name(p), Name(q))
    {
      ghost var g := Graph();
      var a, b := Name(p), Name(q);
      var dist := d(nodes[a], nodes[b]);
      edges := Push(edges, a, Edge(b, dist));
      edges := Push(edges, b, Edge(a, dist));
      RoadKeepsSurvey(d, g, a, b);
      RoadJoins(g, a, b, dist);
      SpotPlace(d, g, p);
      SpotPlace(d, g, q);
    }
  }

  // ----- the plan -----

  /** `p` is on the map and joined to the spot `root`. */
  ghost predicate Reached(g: RoadGraph, root: Spot, p: Spot) {
    root.InTown() && p.InTown() && Name(p) in g.nodes && Joined(g, Name(root), Name(p))
  }

  lemma StaysReached(g: RoadGraph, h: RoadGraph, root: Spot, p: Spot)
    requires Grows(g, h) && Reached(g, root, p)
    ensures Reached(h, root, p)
  {
    JoinedStays(g, h, Name(root), Name(p));
  }

  lemma GetsReached(g: RoadGraph, h: RoadGraph, root: Spot, p: Spot, q: Spot)
    requires Grows(g, h) && Reached(g, root, p) && q.InTown() && Name(q) in h.nodes && Joined(h, Name(p), Name(q))
    ensures Reached(h, root, q)
  {
    StaysReached(g, h, root, p);
    JoinedThrough(h, Name(root), Name(p), Name(q));
  }

  predicate OnStreet(p: Spot, street: nat) {
    match p
    case West(s) => s == street
    case East(s) => s == street
    case Lot(s, i) => s == street && i < LOTS_PER_STREET
    case Gate => street == 0
    case _ => false
  }

  ghost predicate StreetReached(g: RoadGraph, street: nat) {
    forall p: Spot :: OnStreet(p, street) ==> Reached(g, West(street), p)
  }

  /** The part of a street that is built before lot `n`: its west end, the lots and the gate. */
  predicate OnFirst(p: Spot, street: nat, n: nat) {
    OnStreet(p, street) && !p.East? && (p.Lot? ==> p.lot < n) && (p.Gate? ==> LOTS_PER_STREET / 2 < n)
  }

  ghost predicate FirstReached(g: RoadGraph, street: nat, n: nat) {
    forall p: Spot :: OnFirst(p, street, n) ==> Reached(g, West(street), p)
  }

  lemma FirstStays(g: RoadGraph, h: RoadGraph, street: nat, n: nat)
    requires Grows(g, h) && FirstReached(g, street, n)
    ensures FirstReached(h, street, n)
  {
    forall p: Spot | OnFirst(p, street, n) ensures Reached(h, West(street), p) { StaysReached(g, h, West(street), p); }
  }

  /** The gate goes before the middle lot of the main street. */
  predicate GateFirst(street: nat, lot: nat) {
    street == 0 && lot == LOTS_PER_STREET / 2
  }

  method AddGate(b: GraphBuilder, street: nat, lot: nat, prev: Spot) returns (last: Spot)
    requires b.Valid() && street < STREET_COUNT && Reached(b.Graph(), West(street), prev)
    modifies b
    ensures b.Valid() && Grows(old(b.Graph()), b.Graph()) && Reached(b.Graph(), West(street), last)
    ensures last == if GateFirst(street, lot) then Gate else prev
  {
    ghost var g := b.Graph();
    last := prev;
    if GateFirst(street, lot) {
      b.AddNode(Gate);
      ghost var h := b.Graph();
      b.AddRoad(prev, Gate);
      GrowsOn(g, h, b.Graph());
      GetsReached(g, b.Graph(), West(street), prev, Gate);
      last := Gate;
    }
  }

  lemma OneMoreLot(g: RoadGraph, h: RoadGraph, street: nat, lot: nat)
    requires street < STREET_COUNT && lot < LOTS_PER_STREET && Grows(g, h) && FirstReached(g, street, lot)
    requires Reached(h, West(street), Lot(street, lot)) && (GateFirst(street, lot) ==> Reached(h, West(street), Gate))
    ensures FirstReached(h, street, lot + 1)
  {
    FirstStays(g, h, street, lot);
    forall p: Spot | OnFirst(p, street, lot + 1) ensures Reached(h, West(street), p) {
      assert OnFirst(p, street, lot) || p == Lot(street, lot) || (p == Gate && GateFirst(street, lot));
    }
  }

  /** One lot: its node, the gate in the middle of the main street, and the roads. */
  method AddLot(b: GraphBuilder, street: nat, lot: nat, prev: Spot) returns (next: Spot)
    requires b.Valid() && street < STREET_COUNT && lot < LOTS_PER_STREET
    requires FirstReached(b.Graph(), street, lot) && Reached(b.Graph(), West(street), prev)
    modifies b
    ensures b.Valid() && Grows(old(b.Graph()), b.Graph()) && Reached(b.Graph(), West(street), next)
    ensures next == Lot(street, lot) && FirstReached(b.Graph(), street, lot + 1)
  {
    ghost var g0 := b.Graph();
    next := Lot(street, lot);
    b.AddNode(next);
    ghost var g1 := b.Graph();
    StaysReached(g0, g1, West(street), prev);
    var last := AddGate(b, street, lot, prev);
    ghost var g2 := b.Graph();
    b.AddRoad(last, next);
    GetsReached(g2, b.Graph(), West(street), last, next);
    StaysReached(g2, b.Graph(), West(street), last);
    GrowsOn(g0, g1, g2);
    GrowsOn(g0, g2, b.Graph());
    OneMoreLot(g0, b.Graph(), street, lot);
  }

  lemma StreetStarts(g: RoadGraph, street: nat)
    requires street < STREET_COUNT && Name(West(street)) in g.nodes
    ensures FirstReached(g, street, 0) && Reached(g, West(street), West(street))
  {
    JoinedToItself(g, Name(West(street)));
    forall p: Spot | OnFirst(p, street, 0) ensures Reached(g, West(street), p) { assert p == West(street); }
  }

  lemma StreetEnds(g: RoadGraph, h: RoadGraph, street: nat)
    requires street < STREET_COUNT && Grows(g, h) && FirstReached(g, street, LOTS_PER_STREET)
    requires Reached(h, West(street), East(street))
    ensures StreetReached(h, street)
  {
    FirstStays(g, h, street, LOTS_PER_STREET);
    forall p: Spot | OnStreet(p, street) ensures Reached(h, West(street), p) {
      assert OnFirst(p, street, LOTS_PER_STREET) || p == East(street);
    }
  }

  method AddLots(b: GraphBuilder, street: nat) returns (prev: Spot)
    requires b.Valid() && street < STREET_COUNT && Name(West(street)) in b.nodes
    modifies b
    ensures b.Valid() && Grows(old(b.Graph()), b.Graph())
    ensures FirstReached(b.Graph(), street, LOTS_PER_STREET) && Reached(b.Graph(), West(street), prev)
  {
    ghost var g0 := b.Graph();
    StreetStarts(g0, street);
    prev := West(street);
    for lot := 0 to LOTS_PER_STREET
      invariant b.Valid() && Grows(g0, b.Graph())
      invariant FirstReached(b.Graph(), street, lot) && Reached(b.Graph(), West(street), prev)
    {
      ghost var g := b.Graph();
      prev := AddLot(b, street, lot, prev);
      GrowsOn(g0, g, b.Graph());
    }
  }

  /** A street from its west end over its lots to its east end. */
  method AddStreet(b: GraphBuilder, street: nat)
    requires b.Valid() && street < STREET_COUNT
    modifies b
    ensures b.Valid() && Grows(old(b.Graph()), b.Graph()) && StreetReached(b.Graph(), street)
  {
    ghost var g0 := b.Graph();
    b.AddNode(West(street));
    ghost var g1 := b.Graph();
    b.AddNode(East(street));
    ghost var g2 := b.Graph();
    var prev := AddLots(b, street);
    ghost var g3 := b.Graph();
    b.AddRoad(prev, East(street));
    GetsReached(g3, b.Graph(), West(street), prev, East(street));
    StreetEnds(g3, b.Graph(), street);
    GrowsOn(g0, g1, g2);
    GrowsOn(g0, g2, g3);
    GrowsOn(g0, g3, b.Graph());
  }

  ghost predicate StreetsReached(g: RoadGraph, n: nat) {
    forall s :: 0 <= s < n ==> StreetReached(g, s)
  }

  lemma StreetsStay(g: RoadGraph, h: RoadGraph, n: nat)
    requires Grows(g, h) && StreetsReached(g, n)
    ensures StreetsReached(h, n)
  {
    forall s | 0 <= s < n ensures StreetReached(h, s) {
      assert StreetReached(g, s);
      forall p: Spot | OnStreet(p, s) ensures Reached(h, West(s), p) { StaysReached(g, h, West(s), p); }
    }
  }

  method AddStreets(b: GraphBuilder)
    requires b.Valid()
    modifies b
    ensures b.Valid() && Grows(old(b.Graph()), b.Graph()) && StreetsReached(b.Graph(), STREET_COUNT)
  {
    ghost var g0 := b.Graph();
    for street := 0 to STREET_COUNT
      invariant b.Valid() && Grows(g0, b.Graph()) && StreetsReached(b.Graph(), street)
    {
      ghost var g := b.Graph();
      AddStreet(b, street);
      GrowsOn(g0, g, b.Graph());
      StreetsStay(g, b.Graph(), street);
    }
  }

  /** The west ends of the first `n` streets are joined to that of the main street. */
  ghost predicate WestReached(g: RoadGraph, n: nat) {
    forall s :: 0 <= s < n ==> Reached(g, West(0), West(s))
  }

  /** The avenues tie the streets together at both ends. */
  method AddAvenues(b: GraphBuilder)
    requires b.Valid() && StreetsReached(b.Graph(), STREET_COUNT)
    modifies b
    ensures b.Valid() && Grows(old(b.Graph()), b.Graph()) && WestReached(b.Graph(), STREET_COUNT)
  {
    ghost var g0 := b.Graph();
    assert StreetReached(g0, 0) && OnStreet(West(0), 0);
    for street := 0 to STREET_COUNT - 1
      invariant b.Valid() && Grows(g0, b.Graph()) && WestReached(b.Graph(), street + 1)
    {
      ghost var g := b.Graph();
      assert StreetReached(g0, street) && StreetReached(g0, street + 1);
      assert Reached(g0, West(street + 1), West(street + 1)) && Reached(g0, West(street), East(street));
      assert Reached(g0, West(street + 1), East(street + 1));
      b.AddRoad(West(street), West(street + 1));
      ghost var h := b.Graph();
      GetsReached(g, h, West(0), West(street), West(street + 1));
      forall s | 0 <= s < street + 1 ensures Reached(h, West(0), West(s)) { StaysReached(g, h, West(0), West(s)); }
      b.AddRoad(East(street), East(street + 1));
      forall s | 0 <= s < street + 2 ensures Reached(b.Graph(), West(0), West(s)) {
        StaysReached(h, b.Graph(), West(0), West(s));
      }
      GrowsOn(g0, g, h);
      GrowsOn(g0, h, b.Graph());
    }
  }

  /** Every spot of the town is joined to the west end of the main street. */
  ghost predicate AllReached(g: RoadGraph) {
    forall p: Spot {:trigger Reached(g, West(0), p)} :: p.InTown() ==> Reached(g, West(0), p)
  }

  lemma Ties(g: RoadGraph, p: Spot, street: nat)
    requires StreetsReached(g, STREET_COUNT) && WestReached(g, STREET_COUNT)
    requires street < STREET_COUNT && OnStreet(p, street)
    ensures Reached(g, West(0), p)
  {
    assert StreetReached(g, street) && Reached(g, West(0), West(street));
    JoinedThrough(g, Name(West(0)), Name(West(street)), Name(p));
  }

  /** The two spurs bring in the residence and the hall. */
  method AddSpurs(b: GraphBuilder)
    requires b.Valid() && StreetsReached(b.Graph(), STREET_COUNT) && WestReached(b.Graph(), STREET_COUNT)
    requires Name(AtResidence) in b.nodes && Name(AtHall) in b.nodes
    modifies b
    ensures b.Valid() && AllReached(b.Graph())
  {
    ghost var g := b.Graph();
    Ties(g, Gate, 0);
    Ties(g, East(0), 0);
    b.AddRoad(AtResidence, Gate);
    ghost var h := b.Graph();
    GetsReached(g, h, West(0), Gate, AtResidence);
    StaysReached(g, h, West(0), East(0));
    b.AddRoad(AtHall, East(0));
    GetsReached(h, b.Graph(), West(0), East(0), AtHall);
    StaysReached(h, b.Graph(), West(0), AtResidence);
    GrowsOn(g, h, b.Graph());
    forall p: Spot | p.InTown() ensures Reached(b.Graph(), West(0), p) {
      if !p.AtResidence? && !p.AtHall? {
        Ties(g, p, if p.Gate? then 0 else p.street);
        StaysReached(g, b.Graph(), West(0), p);
      }
    }
  }

  lemma MapIsWellFormed(d: (Vec2, Vec2) -> real, g: RoadGraph)
    requires Metric(d) && Surveyed(d, g)
    ensures WellFormed(g)
  {
    forall u, i | 0 <= i < |Out(g, u)| ensures Out(g, u)[i].to in g.nodes && Out(g, u)[i].dist >= 0.0 {
      assert TrueLength(d, g, u, Out(g, u)[i]);
    }
  }

  lemma MapHasNoEmptyHop(d: (Vec2, Vec2) -> real, g: RoadGraph)
    requires Surveyed(d, g)
    ensures NoEmptyHop(g)
  {
    if EMPTY in g.edges {
      assert IsSpot(g, EMPTY);
      var p: Spot :| p.InTown() && Name(p) == EMPTY;
      NamesNotEmpty(p);
    }
  }

  lemma MapIsConnected(d: (Vec2, Vec2) -> real, g: RoadGraph)
    requires Surveyed(d, g) && AllReached(g)
    ensures Connected(g) && DistinctPositions(g)
  {
    forall a, b | a in g.nodes && b in g.nodes ensures Way(g, a, b) { SpotsOf(d, g, a, b); }
    forall a, b | a in g.nodes && b in g.nodes && g.nodes[a] == g.nodes[b] ensures a == b { SpotsOf(d, g, a, b); }
  }

  ghost predicate IsLot(n: Node) {
    exists s: nat, i: nat :: Lot(s, i).InTown() && Name(Lot(s, i)) == n
  }

  /** A surveyed map on which every spot is reached is connected, has distinct positions and no
      road from the empty id. */
  lemma MapIsUsable(d: (Vec2, Vec2) -> real, hash: string -> nat, lots: seq<Node>, g: RoadGraph)
    requires Metric(d) && Surveyed(d, g) && AllReached(g)
    requires forall k :: 0 <= k < |lots| ==> IsLot(lots[k])
    ensures PlanOk(World(TownPlan(lots, g), d, hash))
  {
    MapIsWellFormed(d, g);
    MapHasNoEmptyHop(d, g);
    MapIsConnected(d, g);
    assert Reached(g, West(0), AtResidence) && Reached(g, West(0), AtHall);
    forall k | 0 <= k < |lots| ensures lots[k] in g.nodes {
      assert IsLot(lots[k]);
      var s: nat, i: nat :| Lot(s, i).InTown() && Name(Lot(s, i)) == lots[k];
      assert Reached(g, West(0), Lot(s, i));
    }
  }

  lemma SpotsOf(d: (Vec2, Vec2) -> real, g: RoadGraph, a: Node, b: Node)
    requires Surveyed(d, g) && AllReached(g) && a in g.nodes && b in g.nodes
    ensures Way(g, a, b) && (g.nodes[a] == g.nodes[b] ==> a == b)
  {
    assert IsSpot(g, a) && IsSpot(g, b);
    var p: Spot :| p.InTown() && Name(p) == a && At(p) == g.nodes[a];
    var q: Spot :| q.InTown() && Name(q) == b && At(q) == g.nodes[b];
    assert Reached(g, West(0), p) && Reached(g, West(0), q);
    WayThrough(g, a, Name(West(0)), b);
    if At(p) == At(q) { SpotsDiffer(p, q); }
  }

  /** `center` is the middle of the building, `roadNode` where its driveway meets the street. */
  datatype LotSlot = LotSlot(index: nat, street: nat, lotInStreet: nat, center: Vec2, roadNode: Node)

  const LOT_SIDE := 5.6
  const ROAD_HALF_WIDTH := 1.2
  const LOT_SETBACK := 4.6

  function SlotOf(street: nat, lot: nat): LotSlot
    requires Lot(street, lot).InTown()
  {
    LotSlot(street * LOTS_PER_STREET + lot, street, lot, Vec2(LotFrontX(lot), StreetZ(street) - LOT_SETBACK),
            Name(Lot(street, lot)))
  }

  /** Buildings do not overlap, and none of them reaches into a road. */
  lemma LotsAreClear(s: nat, i: nat, t: nat, j: nat)
    requires Lot(s, i).InTown() && Lot(t, j).InTown()
    ensures (s, i) != (t, j) ==>
              || SlotOf(s, i).center.x - SlotOf(t, j).center.x >= LOT_SIDE
              || SlotOf(t, j).center.x - SlotOf(s, i).center.x >= LOT_SIDE
              || SlotOf(s, i).center.z - SlotOf(t, j).center.z >= LOT_SIDE
              || SlotOf(t, j).center.z - SlotOf(s, i).center.z >= LOT_SIDE
    ensures SlotOf(s, i).center.z + LOT_SIDE / 2.0 < StreetZ(t) - ROAD_HALF_WIDTH
            || StreetZ(t) + ROAD_HALF_WIDTH < SlotOf(s, i).center.z - LOT_SIDE / 2.0
  {
  }

  /** `allLotSlots`, in index order. */
  method AllLotSlots() returns (lots: seq<LotSlot>)
    ensures |lots| == LOT_COUNT
    ensures forall k :: 0 <= k < |lots| ==> lots[k] == SlotOf(k / LOTS_PER_STREET, k % LOTS_PER_STREET)
  {
    lots := [];
    for street := 0 to STREET_COUNT
      invariant |lots| == street * LOTS_PER_STREET
      invariant forall k :: 0 <= k < |lots| ==> lots[k] == SlotOf(k / LOTS_PER_STREET, k % LOTS_PER_STREET)
    {
      for lot := 0 to LOTS_PER_STREET
        invariant |lots| == street * LOTS_PER_STREET + lot
        invariant forall k :: 0 <= k < |lots| ==> lots[k] == SlotOf(k / LOTS_PER_STREET, k % LOTS_PER_STREET)
      {
        lots := lots + [SlotOf(street, lot)];
      }
    }
  }

  method BuildRoads(d: (Vec2, Vec2) -> real) returns (roads: RoadGraph)
    requires Metric(d)
    ensures Surveyed(d, roads) && AllReached(roads)
  {
    var b := new GraphBuilder(d);
    b.AddNode(AtResidence);
    b.AddNode(AtHall);
    ghost var g0 := b.Graph();
    AddStreets(b);
    ghost var g1 := b.Graph();
    AddAvenues(b);
    StreetsStay(g1, b.Graph(), STREET_COUNT);
    GrowsOn(g0, g1, b.Graph());
    AddSpurs(b);
    roads := RoadGraph(b.nodes, b.edges);
  }

  /** The town that ships is one in which the commute theorems hold, whatever the distance
      function and the id hash. */
  method BuildTownPlan(d: (Vec2, Vec2) -> real, hash: string -> nat) returns (plan: TownPlan)
    requires Metric(d)
    ensures PlanOk(World(plan, d, hash)) && |plan.lots| == LOT_COUNT && Surveyed(d, plan.roads)
    ensures CommutesWell(World(plan, d, hash))
  {
    var slots := AllLotSlots();
    var lots := seq(|slots|, k requires 0 <= k < |slots| => slots[k].roadNode);
    var roads := BuildRoads(d);
    forall k | 0 <= k < |lots| ensures IsLot(lots[k]) {
      assert Lot(k / LOTS_PER_STREET, k % LOTS_PER_STREET).InTown();
    }
    MapIsUsable(d, hash, lots, roads);
    plan := TownPlan(lots, roads);
    PlanCommutes(World(plan, d, hash));
  }

  /** The placement as the commute steps read it, by project id. */
  function ByName(m: map<Lots.Project, nat>): map<string, nat> {
    map p | p in m :: p.id := m[p]
  }

  lemma NamedLot(m: map<Lots.Project, nat>, p: Lots.Project)
    requires p in m
    ensures p.id in ByName(m) && ByName(m)[p.id] == m[p]
  {
  }

  /** Names of lots that exist are names of lots of the plan. */
  lemma FittingLotsAreKnown(town: TownPlan, m: map<Lots.Project, nat>)
    requires forall p :: p in m ==> m[p] < |town.lots|
    ensures LotsKnown(town, ByName(m))
  {
    forall id | id in ByName(m) ensures ByName(m)[id] < |town.lots| {
      var p :| p in m && p.id == id;
      NamedLot(m, p);
    }
  }

  /** Whatever projects are listed, `assignLots` names lots of the built plan, so every commute step on
      it is defined, and a placed project's node is that of its lot. */
  lemma AssignedLotsAreKnown(town: TownPlan, ids: seq<Lots.Project>, hash: Lots.Project -> nat)
    requires |town.lots| == LOT_COUNT
    ensures var m := Lots.Assign(ids, hash);
            && LotsKnown(town, ByName(m))
            && forall p :: p in m ==>
                 m[p] < LOT_COUNT && ResolvePlaceNode(Project(p.id), town, ByName(m)) == town.lots[m[p]]
  {
    var m := Lots.Assign(ids, hash);
    assert forall p :: p in m ==> m[p] < |town.lots| by { Lots.Placement(ids, hash); }
    FittingLotsAreKnown(town, m);
    forall p | p in m ensures ResolvePlaceNode(Project(p.id), town, ByName(m)) == town.lots[m[p]] { NamedLot(m, p); }
  }

  /** On a surveyed map the length of a polyline is the weight of its walk, so `shortestPath`
      followed by `pathLength` gives the least road distance. */
  lemma {:induction false} PolylineLength(d: (Vec2, Vec2) -> real, g: RoadGraph, from: Node, w: seq<Edge>)
    requires Surveyed(d, g) && from in g.nodes && IsWalk(g, from, w) && forall i :: 0 <= i < |w| ==> w[i].to in g.nodes
    ensures LengthOf(d, Points(g, from, w)) == Weight(w)
  {
    if w != [] {
      var v := w[..|w| - 1];
      PolylineLength(d, g, from, v);
      assert Points(g, from, w)[..|w|] == Points(g, from, v);
      assert TrueLength(d, g, End(from, v), w[|w| - 1]);
    }
  }

  lemma RoadIsLeast(d: (Vec2, Vec2) -> real, g: RoadGraph, from: Node, to: Node, points: seq<Vec2>, w: seq<Edge>)
    requires Surveyed(d, g) && ShortestRoad(g, from, to, points) && Connects(g, from, to, w)
    ensures LengthOf(d, points) <= Weight(w)
  {
    var v: seq<Edge> :| from in g.nodes && Shortest(g, from, to, v)
                        && (forall i :: 0 <= i < |v| ==> v[i].to in g.nodes) && points == Points(g, from, v);
    PolylineLength(d, g, from, v);
  }
}
