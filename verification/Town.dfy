/**
 Shortest paths on the town's road graph: `shortestPath` of apps/admin-web/src/world/town.ts, the
 linear-scan Dijkstra with its predecessor walk-back.  Weights are non-negative reals.
 */
module Town {
  import opened Options

  const LOTS_PER_STREET := 8
  const STREET_COUNT := 6
  const LOT_COUNT := LOTS_PER_STREET * STREET_COUNT

  datatype Vec2 = Vec2(x: real, z: real)

  /** A road node's id. */
  datatype Node = Node(id: string)

  /** The one id JavaScript treats as false. */
  const EMPTY := Node("")

  datatype Edge = Edge(to: Node, dist: real)

  datatype RoadGraph = RoadGraph(nodes: map<Node, Vec2>, edges: map<Node, seq<Edge>>)

  /** `graph.edges.get(id) ?? []`. */
  function Out(g: RoadGraph, id: Node): seq<Edge> {
    if id in g.edges then g.edges[id] else []
  }

  /** Every edge leads to a known node and has a non-negative length. */
  ghost predicate WellFormed(g: RoadGraph) {
    forall u, i :: 0 <= i < |Out(g, u)| ==> Out(g, u)[i].to in g.nodes && Out(g, u)[i].dist >= 0.0
  }

  // ----- walks, the reference notion -----

  /** Where a walk given by its edges ends. */
  ghost function End(from: Node, w: seq<Edge>): Node {
    if w == [] then from else w[|w| - 1].to
  }

  ghost predicate IsWalk(g: RoadGraph, from: Node, w: seq<Edge>) {
    w == [] || (IsWalk(g, from, w[..|w| - 1]) && w[|w| - 1] in Out(g, End(from, w[..|w| - 1])))
  }

  ghost function Weight(w: seq<Edge>): real {
    if w == [] then 0.0 else Weight(w[..|w| - 1]) + w[|w| - 1].dist
  }

  ghost predicate Connects(g: RoadGraph, from: Node, to: Node, w: seq<Edge>) {
    IsWalk(g, from, w) && End(from, w) == to
  }

  ghost predicate Way(g: RoadGraph, from: Node, to: Node) {
    exists w: seq<Edge> :: Connects(g, from, to, w)
  }

  ghost predicate Shortest(g: RoadGraph, from: Node, to: Node, w: seq<Edge>) {
    Connects(g, from, to, w) && forall v :: Connects(g, from, to, v) ==> Weight(w) <= Weight(v)
  }

  /** The waypoints of a walk. */
  ghost function Points(g: RoadGraph, from: Node, w: seq<Edge>): seq<Vec2>
    requires from in g.nodes && forall i :: 0 <= i < |w| ==> w[i].to in g.nodes
  {
    [g.nodes[from]] + seq(|w|, i requires 0 <= i < |w| => g.nodes[w[i].to])
  }

  /** `points` are the waypoints of a shortest walk. */
  ghost predicate ShortestRoad(g: RoadGraph, from: Node, to: Node, points: seq<Vec2>) {
    exists w: seq<Edge> ::
      && from in g.nodes && Shortest(g, from, to, w)
      && (forall i :: 0 <= i < |w| ==> w[i].to in g.nodes) && points == Points(g, from, w)
  }

  /** No edge leaves the node with the empty id for another node. */
  ghost predicate NoEmptyHop(g: RoadGraph) {
    forall i :: 0 <= i < |Out(g, EMPTY)| ==> Out(g, EMPTY)[i].to == EMPTY
  }

  /** If the empty id is a node at all, no edge leaves it for another node. */
  ghost predicate Truthful(g: RoadGraph) {
    EMPTY in g.nodes ==> NoEmptyHop(g)
  }

  // ----- the search state -----

  /** `v`'s tentative distance comes over an edge from `u`. */
  ghost predicate Hop(g: RoadGraph, dist: map<Node, real>, u: Node, v: Node) {
    && u in dist && v in dist
    && exists i :: 0 <= i < |Out(g, u)| && Out(g, u)[i].to == v && dist[v] == dist[u] + Out(g, u)[i].dist
  }

  /** `v` has a visited predecessor, one that was visited before it. */
  ghost predicate Linked(g: RoadGraph, dist: map<Node, real>, prev: map<Node, Node>, rank: map<Node, nat>, v: Node) {
    && v in prev && prev[v] in rank && Hop(g, dist, prev[v], v)
    && (v in rank ==> rank[prev[v]] < rank[v])
  }

  /** `rank` is the order in which nodes were visited; it makes the predecessors acyclic even
      where edges have length zero. */
  ghost predicate Tree(g: RoadGraph, from: Node, dist: map<Node, real>, prev: map<Node, Node>, rank: map<Node, nat>) {
    && from in dist && dist[from] == 0.0 && dist.Keys <= g.nodes.Keys
    && rank.Keys <= dist.Keys && prev.Keys == dist.Keys - {from}
    && (forall v {:trigger Linked(g, dist, prev, rank, v)} :: v in prev ==> Linked(g, dist, prev, rank, v))
  }

  /** Visited nodes lie within `far`, the distance of the node visited last; the others do not. */
  ghost predicate Ordered(dist: map<Node, real>, rank: map<Node, nat>, far: real) {
    0.0 <= far && forall v :: v in dist ==> 0.0 <= dist[v] && (if v in rank then dist[v] <= far else far <= dist[v])
  }

  /** The first `n` edges of `u` are relaxed. */
  ghost predicate Relaxed(g: RoadGraph, dist: map<Node, real>, u: Node, n: nat)
    requires n <= |Out(g, u)|
  {
    && u in dist
    && forall i :: 0 <= i < n ==> Out(g, u)[i].to in dist && dist[Out(g, u)[i].to] <= dist[u] + Out(g, u)[i].dist
  }

  ghost predicate Settled(g: RoadGraph, dist: map<Node, real>, done: set<Node>) {
    forall u :: u in done ==> Relaxed(g, dist, u, |Out(g, u)|)
  }

  /** A walk stays among settled nodes, each no farther than the walk's weight, until it has
      grown to at least `best`, the least tentative distance of an unvisited node. */
  lemma {:induction false} LowerBound(
    g: RoadGraph, from: Node, dist: map<Node, real>, done: set<Node>, best: real, w: seq<Edge>)
    requires WellFormed(g) && from in dist && dist[from] == 0.0 && done <= dist.Keys && Settled(g, dist, done)
    requires forall v :: v in dist && v !in done ==> best <= dist[v]
    requires IsWalk(g, from, w)
    ensures best <= Weight(w) || (End(from, w) in done && dist[End(from, w)] <= Weight(w))
  {
    if w != [] {
      var v := w[..|w| - 1];
      LowerBound(g, from, dist, done, best, v);
      var u := End(from, v);
      var i :| 0 <= i < |Out(g, u)| && Out(g, u)[i] == w[|w| - 1];
      if u in done && dist[u] <= Weight(v) { assert Relaxed(g, dist, u, |Out(g, u)|); }
    }
  }

  /** With nothing left to visit, walks cannot leave the visited nodes. */
  lemma {:induction false} StaysInside(g: RoadGraph, from: Node, dist: map<Node, real>, done: set<Node>, w: seq<Edge>)
    requires from in done && done == dist.Keys && Settled(g, dist, done) && IsWalk(g, from, w)
    ensures End(from, w) in done
  {
    if w != [] {
      var v := w[..|w| - 1];
      StaysInside(g, from, dist, done, v);
      var u := End(from, v);
      var i :| 0 <= i < |Out(g, u)| && Out(g, u)[i] == w[|w| - 1];
      assert Relaxed(g, dist, u, |Out(g, u)|);
    }
  }

  /** `order` is the insertion order of the distance map. */
  ghost predicate Lists(order: seq<Node>, dist: map<Node, real>) {
    forall id :: id in order <==> id in dist
  }

  /** The linear scan: the first unvisited node, in insertion order, of least distance. */
  method Nearest(order: seq<Node>, dist: map<Node, real>, visited: set<Node>) returns (current: Option<Node>)
    requires Lists(order, dist)
    ensures current.None? ==> dist.Keys <= visited
    ensures current.Some? ==> current.value in dist && current.value !in visited
    ensures current.Some? ==> forall v :: v in dist && v !in visited ==> dist[current.value] <= dist[v]
  {
    current := None;
    for i := 0 to |order|
      invariant current.None? ==> forall j :: 0 <= j < i ==> order[j] in visited
      invariant current.Some? ==> current.value in dist && current.value !in visited
      invariant current.Some? ==> forall j :: 0 <= j < i && order[j] !in visited ==>
                dist[current.value] <= dist[order[j]]
    {
      var id := order[i];
      if id !in visited && (current.None? || dist[id] < dist[current.value]) {
        current := Some(id);
      }
    }
  }

  /** Improving one neighbour of the last visited node `u` keeps the tree. */
  lemma ImproveTree(
    g: RoadGraph, from: Node, dist: map<Node, real>, prev: map<Node, Node>, rank: map<Node, nat>, u: Node, i: nat)
    requires WellFormed(g) && Tree(g, from, dist, prev, rank) && u in rank && i < |Out(g, u)|
    requires var v := Out(g, u)[i].to; v !in rank && v != from
    ensures var e := Out(g, u)[i]; Tree(g, from, dist[e.to := dist[u] + e.dist], prev[e.to := u], rank)
  {
    var e := Out(g, u)[i];
    var dist' := dist[e.to := dist[u] + e.dist];
    var prev' := prev[e.to := u];
    forall v | v in prev' ensures Linked(g, dist', prev', rank, v) {
      if v == e.to {
        assert Out(g, u)[i].to == v && dist'[v] == dist'[u] + Out(g, u)[i].dist;
      } else {
        assert Linked(g, dist, prev, rank, v);
      }
    }
  }

  /** Lowering the distance of an unvisited node keeps every settled node settled. */
  lemma ImproveSettled(g: RoadGraph, dist: map<Node, real>, done: set<Node>, v: Node, d: real)
    requires Settled(g, dist, done) && v !in done && (v in dist ==> d <= dist[v])
    ensures Settled(g, dist[v := d], done)
  {
    forall u | u in done ensures Relaxed(g, dist[v := d], u, |Out(g, u)|) {
      assert Relaxed(g, dist, u, |Out(g, u)|);
    }
  }

  /** The search between two relaxations: `n` edges of the node visited last are done. */
  ghost predicate Relaxing(
    g: RoadGraph, from: Node, dist: map<Node, real>, prev: map<Node, Node>, rank: map<Node, nat>, u: Node, n: nat)
  {
    && Tree(g, from, dist, prev, rank) && u in rank && from in rank
    && Ordered(dist, rank, dist[u]) && Settled(g, dist, rank.Keys - {u})
    && n <= |Out(g, u)| && Relaxed(g, dist, u, n)
  }

  lemma Improve(
    g: RoadGraph, from: Node, dist: map<Node, real>, prev: map<Node, Node>, rank: map<Node, nat>, u: Node, n: nat)
    requires WellFormed(g) && Relaxing(g, from, dist, prev, rank, u, n) && n < |Out(g, u)|
    requires var e := Out(g, u)[n]; e.to in dist ==> dist[u] + e.dist < dist[e.to]
    ensures var e := Out(g, u)[n];
            && Relaxing(g, from, dist[e.to := dist[u] + e.dist], prev[e.to := u], rank, u, n + 1)
            && dist[e.to := dist[u] + e.dist][u] == dist[u]
  {
    var e := Out(g, u)[n];
    ImproveTree(g, from, dist, prev, rank, u, n);
    ImproveSettled(g, dist, rank.Keys - {u}, e.to, dist[u] + e.dist);
  }

  lemma KeepGoing(
    g: RoadGraph, from: Node, dist: map<Node, real>, prev: map<Node, Node>, rank: map<Node, nat>, u: Node, n: nat)
    requires Relaxing(g, from, dist, prev, rank, u, n) && n < |Out(g, u)|
    requires var e := Out(g, u)[n]; e.to in dist && dist[e.to] <= dist[u] + e.dist
    ensures Relaxing(g, from, dist, prev, rank, u, n + 1)
  {
  }

  /** The relaxation loop over the edges of `current`, the node visited last. */
  method Relax(
    g: RoadGraph, ghost from: Node, current: Node, order0: seq<Node>,
    dist0: map<Node, real>, prev0: map<Node, Node>, ghost rank: map<Node, nat>)
    returns (order: seq<Node>, dist: map<Node, real>, prev: map<Node, Node>)
    requires WellFormed(g) && Relaxing(g, from, dist0, prev0, rank, current, 0) && Lists(order0, dist0)
    ensures Relaxing(g, from, dist, prev, rank, current, |Out(g, current)|) && Lists(order, dist)
  {
    order, dist, prev := order0, dist0, prev0;
    var best := dist[current];
    var out := Out(g, current);
    for i := 0 to |out|
      invariant Relaxing(g, from, dist, prev, rank, current, i) && dist[current] == best
      invariant Lists(order, dist)
    {
      var e := out[i];
      var candidate := best + e.dist;
      if e.to !in dist || candidate < dist[e.to] {
        Improve(g, from, dist, prev, rank, current, i);
        if e.to !in dist {
          order := order + [e.to];
        }
        dist := dist[e.to := candidate];
        prev := prev[e.to := current];
      } else {
        KeepGoing(g, from, dist, prev, rank, current, i);
      }
    }
  }

  // ----- the walk-back -----

  lemma {:induction false} Prepend(g: RoadGraph, u: Node, e: Edge, w: seq<Edge>)
    requires e in Out(g, u) && IsWalk(g, e.to, w)
    ensures IsWalk(g, u, [e] + w) && End(u, [e] + w) == End(e.to, w) && Weight([e] + w) == e.dist + Weight(w)
  {
    var x := [e] + w;
    if w == [] {
      assert x[..|x| - 1] == [] && Weight(x) == Weight([]) + e.dist;
    } else {
      Prepend(g, u, e, w[..|w| - 1]);
      assert x[..|x| - 1] == [e] + w[..|w| - 1];
    }
  }

  /** Node ids along a walk. */
  ghost function Ids(from: Node, w: seq<Edge>): seq<Node> {
    [from] + seq(|w|, i requires 0 <= i < |w| => w[i].to)
  }

  lemma IdsPrepend(u: Node, e: Edge, w: seq<Edge>)
    ensures Ids(u, [e] + w) == [u] + Ids(e.to, w)
  {
  }

  /** Following the predecessors from `to`; an empty id is falsy and ends the search. */
  method WalkBack(
    g: RoadGraph, from: Node, to: Node, ghost dist: map<Node, real>, prev: map<Node, Node>, ghost rank: map<Node, nat>)
    returns (path: Option<seq<Node>>, ghost walk: seq<Edge>)
    requires Tree(g, from, dist, prev, rank) && to in dist && from != to
    requires forall v :: v in rank ==> rank[v] < |rank|
    ensures path.Some? ==> Connects(g, from, to, walk) && Weight(walk) == dist[to] && path.value == Ids(from, walk)
    ensures path.None? ==> !Truthful(g)
    ensures from == EMPTY ==> path.None?
  {
    var ids := [to];
    var cursor := to;
    walk := [];
    while cursor != from
      invariant cursor in dist && Connects(g, cursor, to, walk) && dist[cursor] + Weight(walk) == dist[to]
      invariant ids == Ids(cursor, walk) && (cursor != to ==> cursor != EMPTY)
      decreases if cursor in rank then rank[cursor] else |rank|
    {
      assert Linked(g, dist, prev, rank, cursor);
      var before := prev[cursor];
      ghost var i :| 0 <= i < |Out(g, before)| && Out(g, before)[i].to == cursor
        && dist[cursor] == dist[before] + Out(g, before)[i].dist;
      if before == EMPTY {
        return None, [];
      }
      ghost var e := Out(g, before)[i];
      Prepend(g, before, e, walk);
      IdsPrepend(before, e, walk);
      walk := [e] + walk;
      ids := [before] + ids;
      cursor := before;
    }
    path := Some(ids);
  }

  // ----- the search -----

  /** The state between two visits. */
  ghost predicate Between(
    g: RoadGraph, from: Node, dist: map<Node, real>, prev: map<Node, Node>, rank: map<Node, nat>, far: real)
  {
    && Tree(g, from, dist, prev, rank) && Ordered(dist, rank, far) && Settled(g, dist, rank.Keys)
    && (forall v :: v in rank ==> rank[v] < |rank|)
    && (from in rank || dist.Keys == {from})
  }

  lemma VisitTree(
    g: RoadGraph, from: Node, dist: map<Node, real>, prev: map<Node, Node>, rank: map<Node, nat>, u: Node)
    requires Tree(g, from, dist, prev, rank) && u in dist && u !in rank && forall v :: v in rank ==> rank[v] < |rank|
    ensures Tree(g, from, dist, prev, rank[u := |rank|])
  {
    var rank' := rank[u := |rank|];
    forall v | v in prev ensures Linked(g, dist, prev, rank', v) { assert Linked(g, dist, prev, rank, v); }
  }

  /** Visiting the nearest unvisited node. */
  lemma Visit(
    g: RoadGraph, from: Node, dist: map<Node, real>, prev: map<Node, Node>, rank: map<Node, nat>, far: real, u: Node)
    requires Between(g, from, dist, prev, rank, far) && u in dist && u !in rank
    requires forall v :: v in dist && v !in rank ==> dist[u] <= dist[v]
    ensures Relaxing(g, from, dist, prev, rank[u := |rank|], u, 0)
  {
    VisitTree(g, from, dist, prev, rank, u);
    assert rank[u := |rank|].Keys - {u} == rank.Keys;
  }

  /** Once its edges are relaxed the search is between visits again. */
  lemma Visited(
    g: RoadGraph, from: Node, dist: map<Node, real>, prev: map<Node, Node>, rank: map<Node, nat>, u: Node)
    requires u !in rank && forall v :: v in rank ==> rank[v] < |rank|
    requires Relaxing(g, from, dist, prev, rank[u := |rank|], u, |Out(g, u)|)
    ensures Between(g, from, dist, prev, rank[u := |rank|], dist[u])
  {
    var rank' := rank[u := |rank|];
    assert |rank'.Keys| == |rank.Keys| + 1 by { assert rank'.Keys == rank.Keys + {u}; }
    forall v | v in rank'.Keys ensures Relaxed(g, dist, v, |Out(g, v)|) {
      if v != u { assert v in rank'.Keys - {u}; }
    }
  }

  /** One turn of the main loop. */
  method VisitAndRelax(
    g: RoadGraph, ghost from: Node, u: Node, order0: seq<Node>,
    dist0: map<Node, real>, prev0: map<Node, Node>, ghost rank: map<Node, nat>, ghost far: real)
    returns (order: seq<Node>, dist: map<Node, real>, prev: map<Node, Node>)
    requires WellFormed(g) && Between(g, from, dist0, prev0, rank, far)
    requires Lists(order0, dist0) && u in dist0 && u !in rank
    requires forall v :: v in dist0 && v !in rank ==> dist0[u] <= dist0[v]
    ensures u in dist && Between(g, from, dist, prev, rank[u := |rank|], dist[u]) && Lists(order, dist)
  {
    Visit(g, from, dist0, prev0, rank, far, u);
    order, dist, prev := Relax(g, from, u, order0, dist0, prev0, rank[u := |rank|]);
    Visited(g, from, dist, prev, rank, u);
  }

  /** The recorded distance of `to` is a lower bound on all walks, and none recorded means none. */
  ghost predicate Decided(g: RoadGraph, from: Node, to: Node, dist: map<Node, real>) {
    forall w :: Connects(g, from, to, w) ==> to in dist && dist[to] <= Weight(w)
  }

  lemma Initially(g: RoadGraph, from: Node)
    requires from in g.nodes
    ensures Searching(g, from, map[from := 0.0], map[], {})
  {
    var rank: map<Node, nat> := map[];
    assert rank.Keys == {} && Between(g, from, map[from := 0.0], map[], rank, 0.0);
  }

  /** Nothing is left to visit and `to` was not reached: there is no way to it. */
  lemma Exhausted(
    g: RoadGraph, from: Node, dist: map<Node, real>, prev: map<Node, Node>, rank: map<Node, nat>, far: real, to: Node)
    requires Between(g, from, dist, prev, rank, far) && dist.Keys <= rank.Keys && to !in rank
    ensures Decided(g, from, to, dist) && to !in dist
  {
    forall w | Connects(g, from, to, w) ensures false { StaysInside(g, from, dist, rank.Keys, w); }
  }

  /** `to` is the nearest unvisited node: its distance is final. */
  lemma Found(
    g: RoadGraph, from: Node, dist: map<Node, real>, prev: map<Node, Node>, rank: map<Node, nat>, far: real, to: Node)
    requires WellFormed(g) && Between(g, from, dist, prev, rank, far) && to in dist && to !in rank
    requires forall v :: v in dist && v !in rank ==> dist[to] <= dist[v]
    ensures Decided(g, from, to, dist)
  {
    forall w | Connects(g, from, to, w) ensures dist[to] <= Weight(w) {
      LowerBound(g, from, dist, rank.Keys, dist[to], w);
    }
  }

  /** What holds between two iterations of the search, for some order of the visits so far. */
  ghost predicate Searching(
    g: RoadGraph, from: Node, dist: map<Node, real>, prev: map<Node, Node>, visited: set<Node>) {
    exists rank: map<Node, nat>, far: real :: rank.Keys == visited && Between(g, from, dist, prev, rank, far)
  }

  /** Whether the search is over, and the next node to visit if it is not. */
  method Choose(
    g: RoadGraph, from: Node, to: Node, order: seq<Node>, dist: map<Node, real>, ghost prev: map<Node, Node>,
    visited: set<Node>)
    returns (next: Option<Node>)
    requires WellFormed(g) && Searching(g, from, dist, prev, visited) && Lists(order, dist) && to !in visited
    ensures next.None? ==> Decided(g, from, to, dist)
    ensures next.Some? ==> next.value in dist && next.value !in visited && next.value != to
    ensures next.Some? ==> forall v :: v in dist && v !in visited ==> dist[next.value] <= dist[v]
  {
    ghost var rank: map<Node, nat>, far: real :| rank.Keys == visited && Between(g, from, dist, prev, rank, far);
    next := Nearest(order, dist, visited);
    if next.None? {
      Exhausted(g, from, dist, prev, rank, far, to);
    } else if next.value == to {
      Found(g, from, dist, prev, rank, far, to);
      next := None;
    }
  }

  lemma KeysAfter(
    g: RoadGraph, from: Node, dist: map<Node, real>, prev: map<Node, Node>, rank: map<Node, nat>, far: real, u: Node)
    requires Between(g, from, dist, prev, rank, far) && u in dist
    ensures rank[u := |rank|].Keys == rank.Keys + {u} <= g.nodes.Keys
  {
  }

  lemma StillSearching(
    g: RoadGraph, from: Node, dist: map<Node, real>, prev: map<Node, Node>, rank: map<Node, nat>, far: real,
    visited: set<Node>)
    requires rank.Keys == visited && Between(g, from, dist, prev, rank, far)
    ensures Searching(g, from, dist, prev, visited)
  {
  }

  /** The chosen node is visited and its edges are relaxed. */
  method VisitNext(
    g: RoadGraph, ghost from: Node, u: Node, order: seq<Node>, dist: map<Node, real>, prev: map<Node, Node>,
    ghost visited: set<Node>)
    returns (order': seq<Node>, dist': map<Node, real>, prev': map<Node, Node>)
    requires WellFormed(g) && Searching(g, from, dist, prev, visited)
    requires Lists(order, dist) && u in dist && u !in visited
    requires forall v :: v in dist && v !in visited ==> dist[u] <= dist[v]
    ensures Searching(g, from, dist', prev', visited + {u}) && Lists(order', dist') && visited + {u} <= g.nodes.Keys
  {
    ghost var rank: map<Node, nat>, far: real :| rank.Keys == visited && Between(g, from, dist, prev, rank, far);
    KeysAfter(g, from, dist, prev, rank, far, u);
    order', dist', prev' := VisitAndRelax(g, from, u, order, dist, prev, rank, far);
    StillSearching(g, from, dist', prev', rank[u := |rank|], dist'[u], visited + {u});
  }

  method Search(g: RoadGraph, from: Node, to: Node)
    returns (dist: map<Node, real>, prev: map<Node, Node>, ghost visited: set<Node>)
    requires WellFormed(g) && from in g.nodes && from != to
    ensures Searching(g, from, dist, prev, visited)
    ensures Decided(g, from, to, dist)
  {
    dist, prev := map[from := 0.0], map[];
    var order, seen := [from], {};
    Initially(g, from);
    while true
      invariant Searching(g, from, dist, prev, seen) && Lists(order, dist) && to !in seen
      decreases g.nodes.Keys - seen
    {
      var next := Choose(g, from, to, order, dist, prev, seen);
      if next.None? {
        visited := seen;
        return;
      }
      order, dist, prev := VisitNext(g, from, next.value, order, dist, prev, seen);
      seen := seen + {next.value};
    }
  }

  lemma {:induction false} WalkIsKnown(g: RoadGraph, from: Node, w: seq<Edge>)
    requires WellFormed(g) && from in g.nodes && IsWalk(g, from, w)
    ensures forall i :: 0 <= i < |w| ==> w[i].to in g.nodes && w[i].dist >= 0.0
    ensures Weight(w) >= 0.0
  {
    if w != [] { WalkIsKnown(g, from, w[..|w| - 1]); }
  }

  lemma StandingStill(g: RoadGraph, from: Node)
    requires WellFormed(g) && from in g.nodes
    ensures ShortestRoad(g, from, from, [g.nodes[from]]) && Way(g, from, from)
  {
    forall w | Connects(g, from, from, w) ensures 0.0 <= Weight(w) { WalkIsKnown(g, from, w); }
    assert Connects(g, from, from, []);
    assert Points(g, from, []) == [g.nodes[from]];
  }

  lemma Waypoints(g: RoadGraph, from: Node, walk: seq<Edge>, points: seq<Vec2>)
    requires from in g.nodes && |points| == |walk| + 1
    requires forall i :: 0 <= i < |points| ==> Ids(from, walk)[i] in g.nodes && points[i] == g.nodes[Ids(from, walk)[i]]
    ensures forall i :: 0 <= i < |walk| ==> walk[i].to in g.nodes
    ensures points == Points(g, from, walk)
  {
    assert Ids(from, walk)[0] == from;
    forall i | 0 <= i < |walk| ensures walk[i].to in g.nodes && points[i + 1] == g.nodes[walk[i].to] {
      assert Ids(from, walk)[i + 1] == walk[i].to;
    }
  }

  /** The waypoints of the ids. */
  method Locate(g: RoadGraph, ghost from: Node, ids: seq<Node>, ghost walk: seq<Edge>) returns (points: seq<Vec2>)
    requires from in g.nodes && ids == Ids(from, walk) && forall i :: 0 <= i < |walk| ==> walk[i].to in g.nodes
    ensures points == Points(g, from, walk)
  {
    assert forall i :: 0 <= i < |ids| ==> ids[i] in g.nodes;
    points := seq(|ids|, i requires 0 <= i < |ids| => g.nodes[ids[i]]);
    Waypoints(g, from, walk, points);
  }

  lemma WalkIsWay(g: RoadGraph, from: Node, to: Node, w: seq<Edge>)
    requires Connects(g, from, to, w)
    ensures Way(g, from, to)
  {
  }

  /** The walk that was traced back is a shortest one. */
  lemma RoadFound(g: RoadGraph, from: Node, to: Node, dist: map<Node, real>, walk: seq<Edge>, points: seq<Vec2>)
    requires from in g.nodes && Decided(g, from, to, dist) && to in dist
    requires Connects(g, from, to, walk) && Weight(walk) == dist[to]
    requires (forall i :: 0 <= i < |walk| ==> walk[i].to in g.nodes) && points == Points(g, from, walk)
    ensures ShortestRoad(g, from, to, points) && Way(g, from, to)
  {
    WalkIsWay(g, from, to, walk);
    assert Shortest(g, from, to, walk);
  }

  /** Null exactly when there is no way, otherwise the waypoints of a shortest walk, as long as
      the graph is truthful; a search from the empty id for another node is always null. */
  method ShortestPath(g: RoadGraph, from: Node, to: Node) returns (path: Option<seq<Vec2>>)
    requires WellFormed(g)
    ensures from !in g.nodes || to !in g.nodes ==> path.None?
    ensures path.Some? ==> ShortestRoad(g, from, to, path.value)
    ensures from in g.nodes && to in g.nodes && Truthful(g) ==> (path.None? <==> !Way(g, from, to))
    ensures from == EMPTY && to != EMPTY ==> path.None?
  {
    if from !in g.nodes || to !in g.nodes {
      return None;
    }
    if from == to {
      StandingStill(g, from);
      return Some([g.nodes[from]]);
    }
    var dist, prev, visited := Search(g, from, to);
    if to !in dist {
      return None;
    }
    ghost var rank: map<Node, nat>, far: real :| rank.Keys == visited && Between(g, from, dist, prev, rank, far);
    var ids, walk := WalkBack(g, from, to, dist, prev, rank);
    if ids.None? {
      return None;
    }
    WalkIsKnown(g, from, walk);
    var points := Locate(g, from, ids.value, walk);
    RoadFound(g, from, to, dist, walk, points);
    path := Some(points);
  }

  lemma {:induction false} StuckAtEmpty(g: RoadGraph, w: seq<Edge>)
    requires NoEmptyHop(g) && IsWalk(g, EMPTY, w)
    ensures End(EMPTY, w) == EMPTY
  {
    if w != [] {
      StuckAtEmpty(g, w[..|w| - 1]);
      var i :| 0 <= i < |Out(g, EMPTY)| && Out(g, EMPTY)[i] == w[|w| - 1];
    }
  }

  /** Null means unreachable for all known endpoints exactly in the truthful graphs: in any other
      one there is a way from the empty id to another node, and `ShortestPath` answers null. */
  lemma TruthfulIff(g: RoadGraph)
    requires WellFormed(g)
    ensures Truthful(g) <==> forall to :: EMPTY in g.nodes && to in g.nodes && to != EMPTY ==> !Way(g, EMPTY, to)
  {
    if Truthful(g) {
      forall to | EMPTY in g.nodes && to in g.nodes && to != EMPTY ensures !Way(g, EMPTY, to) {
        forall w | Connects(g, EMPTY, to, w) ensures false { StuckAtEmpty(g, w); }
      }
    } else {
      var i :| 0 <= i < |Out(g, EMPTY)| && Out(g, EMPTY)[i].to != EMPTY;
      var e := Out(g, EMPTY)[i];
      assert IsWalk(g, e.to, []);
      Prepend(g, EMPTY, e, []);
      assert Connects(g, EMPTY, e.to, [e] + []);
      assert Way(g, EMPTY, e.to);
    }
  }
}
