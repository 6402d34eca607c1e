/** Who gets a room when many callers race for the lowest free one. */
module RoomProofs {
  import opened Options
  import opened Sets
  import opened Rooms

  /** The callers that have a room. */
  function Served(s: State): set<nat> {
    set c | c in s.callers && s.callers[c].phase.Got?
  }

  /** A failed insert is always the fault of a room handed out since the caller last looked. */
  ghost predicate CallerOk(max: nat, s: State, c: nat) {
    c in s.callers ==>
      var k := s.callers[c];
      && k.fails <= s.handed
      && (k.phase.Looked? || k.phase.Listed? ==> k.fails <= k.since <= s.handed)
      && (k.phase.Looked? && k.since == s.handed ==> k.agent !in s.rooms)
      && (k.phase.Listed? && k.since == s.handed ==> CanInsert(s, k, k.phase.slot))
      && (k.phase.GaveUp? || k.fails < max) && (k.phase.GaveUp? ==> k.fails == max)
      && (k.phase.Ready? || k.phase.GaveUp? ==> k.steps == 3 * k.fails)
      && (k.phase.Looked? ==> k.steps == 3 * k.fails + 1)
      && (k.phase.Listed? ==> k.steps == 3 * k.fails + 2)
      && (k.phase.Got? ==> k.fails < |Served(s)|)
  }

  ghost predicate Inv(max: nat, s: State) {
    && OneToOne(s.rooms) && s.handed <= |Served(s)|
    && forall c {:trigger CallerOk(max, s, c)} :: CallerOk(max, s, c)
  }

  /** A step of caller `c` that leaves it unserved leaves the served as they are. */
  lemma SameServed(s: State, t: State, c: nat)
    requires c in s.callers && !s.callers[c].phase.Got?
    requires t.callers.Keys == s.callers.Keys && (forall x :: x in s.callers && x != c ==> t.callers[x] == s.callers[x])
    ensures |Served(t)| == |Served(s)| + if t.callers[c].phase.Got? then 1 else 0
  {
    assert Served(t) == if t.callers[c].phase.Got? then Served(s) + {c} else Served(s);
  }

  lemma LookKeeps(max: nat, s: State, c: nat, t: State)
    requires Inv(max, s) && Step(max, s, Look(c), t)
    ensures Inv(max, t)
  {
    SameServed(s, t, c);
    forall x {:trigger CallerOk(max, t, x)} ensures CallerOk(max, t, x) { assert CallerOk(max, s, x); }
  }

  lemma ListKeeps(max: nat, s: State, c: nat, slot: nat, t: State)
    requires Inv(max, s) && Step(max, s, List(c, slot), t)
    ensures Inv(max, t)
  {
    SameServed(s, t, c);
    forall x {:trigger CallerOk(max, t, x)} ensures CallerOk(max, t, x) { assert CallerOk(max, s, x); }
  }

  lemma InsertKeeps(max: nat, s: State, c: nat, t: State)
    requires 0 < max && Inv(max, s) && Step(max, s, Insert(c), t)
    ensures Inv(max, t)
  {
    SameServed(s, t, c);
    assert CallerOk(max, s, c);
    forall x {:trigger CallerOk(max, t, x)} ensures CallerOk(max, t, x) { assert CallerOk(max, s, x); }
    var k := s.callers[c];
    if CanInsert(s, k, k.phase.slot) {
      forall a, b | a in t.rooms && b in t.rooms && t.rooms[a] == t.rooms[b] ensures a == b {
        if a in s.rooms { assert s.rooms[a] in s.rooms.Values; }
        if b in s.rooms { assert s.rooms[b] in s.rooms.Values; }
      }
    }
  }

  lemma ReleaseKeeps(max: nat, s: State, agent: nat, t: State)
    requires Inv(max, s) && Step(max, s, Release(agent), t)
    ensures Inv(max, t)
  {
    assert Served(t) == Served(s);
    forall x {:trigger CallerOk(max, t, x)} ensures CallerOk(max, t, x) {
      assert CallerOk(max, s, x);
      assert t.rooms.Values <= s.rooms.Values;
    }
  }

  lemma StepKeeps(max: nat, s: State, e: Event, t: State)
    requires 0 < max && Inv(max, s) && Step(max, s, e, t)
    ensures Inv(max, t) && t.callers.Keys == s.callers.Keys
  {
    match e {
      case Look(c) => LookKeeps(max, s, c, t);
      case List(c, slot) => ListKeeps(max, s, c, slot, t);
      case Insert(c) => InsertKeeps(max, s, c, t);
      case Release(agent) => ReleaseKeeps(max, s, agent, t);
    }
  }

  lemma {:induction false} RunKeeps(max: nat, agents: seq<nat>, rooms: map<nat, nat>, es: seq<Event>, s: State)
    requires 0 < max && OneToOne(rooms) && Reaches(max, Init(agents, rooms), es, s)
    ensures Inv(max, s) && s.callers.Keys == Callers(|agents|)
  {
    if es != [] {
      var e := es[|es| - 1];
      var u :| Reaches(max, Init(agents, rooms), es[..|es| - 1], u) && Step(max, u, e, s);
      RunKeeps(max, agents, rooms, es[..|es| - 1], u);
      StepKeeps(max, u, e, s);
    } else {
      forall c {:trigger CallerOk(max, s, c)} ensures CallerOk(max, s, c) {}
    }
  }

  function Callers(n: nat): (r: set<nat>)
    ensures |r| == n && forall c: nat :: c in r <==> c < n
  {
    if n == 0 then {} else Callers(n - 1) + {n - 1}
  }

  /** However callers, releases and retries interleave, agents and rooms stay one to one; with no
      more callers than attempts nobody gives up, and a caller is served within as many attempts
      as there are callers. */
  lemma EveryoneIsServed(max: nat, agents: seq<nat>, rooms: map<nat, nat>, es: seq<Event>, s: State, c: nat)
    requires 0 < max && OneToOne(rooms) && Reaches(max, Init(agents, rooms), es, s) && c < |agents|
    ensures OneToOne(s.rooms) && c in s.callers && s.callers[c].fails < |agents|
    ensures |agents| <= max ==> !s.callers[c].phase.GaveUp?
    ensures |agents| <= max && s.callers[c].steps >= 3 * |agents| ==> s.callers[c].phase.Got?
  {
    RunKeeps(max, agents, rooms, es, s);
    assert CallerOk(max, s, c);
    if s.callers[c].phase.Got? {
      Fewer(Served(s), Callers(|agents|));
    } else {
      assert c in Callers(|agents|);
      Fewer(Served(s), Callers(|agents|) - {c});
    }
  }

  // ----- one caller more than attempts -----

  /** Callers `0 .. n-1`, for agents of the same number. */
  function Crowd(n: nat): seq<nat> {
    seq(n, i requires 0 <= i < n => i)
  }

  ghost predicate Fresh(s: State, c: nat) {
    c in s.callers && s.callers[c].agent == c && s.callers[c].phase.Ready?
  }

  /** Agents below `r` have the rooms of their number, and callers from `q` up to `max` have not begun. */
  ghost predicate Filled(max: nat, r: nat, q: nat, s: State) {
    && (forall c {:trigger Fresh(s, c)} :: q <= c < max ==> Fresh(s, c))
    && (forall a :: a in s.rooms <==> 0 <= a < r) && (forall a :: a in s.rooms ==> s.rooms[a] == a)
  }

  /** Besides, caller `max` has failed `r` times. */
  ghost predicate Squeezed(max: nat, r: nat, s: State) {
    && Filled(max, r, r, s)
    && max in s.callers && s.callers[max].agent == max && s.callers[max].fails == r
    && s.callers[max].phase == (if r < max then Ready else GaveUp)
  }

  lemma Then(max: nat, s: State, es: seq<Event>, u: State, e: Event, t: State)
    requires Reaches(max, s, es, u) && Step(max, u, e, t)
    ensures Reaches(max, s, es + [e], t)
  {
    var fs := es + [e];
    assert fs[..|fs| - 1] == es && Step(max, u, fs[|fs| - 1], t);
  }

  lemma NextRoom(max: nat, r: nat, s: State)
    requires Squeezed(max, r, s)
    ensures IsLowestFree(s.rooms.Values, r)
  {
    forall i: nat | i < r ensures i in s.rooms.Values { assert i in s.rooms && s.rooms[i] == i; }
  }

  /** Caller `c` makes both its reads and finds room `r`. */
  lemma Reads(max: nat, s: State, es: seq<Event>, u: State, c: nat, r: nat) returns (fs: seq<Event>, t: State)
    requires Reaches(max, s, es, u) && c in u.callers && u.callers[c].phase.Ready? && u.callers[c].agent !in u.rooms
    requires IsLowestFree(u.rooms.Values, r)
    ensures Reaches(max, s, fs, t) && t.rooms == u.rooms && t.peak == u.peak && t.callers.Keys == u.callers.Keys
    ensures t.callers[c].agent == u.callers[c].agent
    ensures t.callers[c].fails == u.callers[c].fails && t.callers[c].phase == Listed(r)
    ensures forall x :: x in u.callers && x != c ==> t.callers[x] == u.callers[x]
  {
    var v := Moved(u, c, u.callers[c].(phase := Looked, since := u.handed));
    Then(max, s, es, u, Look(c), v);
    t := Moved(v, c, v.callers[c].(phase := Listed(r)));
    Then(max, s, es + [Look(c)], v, List(c, r), t);
    fs := es + [Look(c)] + [List(c, r)];
  }

  /** Both are about to insert into room `r`. */
  ghost predicate Colliding(max: nat, r: nat, w: State) {
    && Filled(max, r, r + 1, w)
    && max in w.callers && w.callers[max].agent == max && w.callers[max].fails == r && w.callers[max].phase == Listed(r)
    && r in w.callers && w.callers[r].agent == r && w.callers[r].phase == Listed(r)
  }

  /** Caller `r` gets the room, caller `max` fails. */
  lemma Collide(max: nat, r: nat, w: State)
    requires r < max && Colliding(max, r, w)
    ensures Squeezed(max, r + 1, Inserted(max, Inserted(max, w, r), max))
  {
    assert CanInsert(w, w.callers[r], r) by { assert r !in w.rooms.Values; }
    var x := Inserted(max, w, r);
    assert x.rooms[r] in x.rooms.Values;
    var t := Inserted(max, x, max);
    forall c {:trigger Fresh(t, c)} | r + 1 <= c < max ensures Fresh(t, c) { assert Fresh(w, c); }
  }

  lemma BothRead(max: nat, r: nat, u: State, v: State, w: State)
    requires r < max && Squeezed(max, r, u) && v.rooms == u.rooms && w.rooms == v.rooms
    requires r in u.callers && v.callers.Keys == u.callers.Keys && w.callers.Keys == v.callers.Keys
    requires forall x :: x in u.callers && x != max ==> v.callers[x] == u.callers[x]
    requires forall x :: x in v.callers && x != r ==> w.callers[x] == v.callers[x]
    requires v.callers[max].agent == max && v.callers[max].fails == r && v.callers[max].phase == Listed(r)
    requires w.callers[r].agent == r && w.callers[r].phase == Listed(r)
    ensures Colliding(max, r, w)
  {
    forall c {:trigger Fresh(w, c)} | r + 1 <= c < max ensures Fresh(w, c) { assert Fresh(u, c); }
  }

  /** Caller `max` reads, caller `r` reads and inserts, and then caller `max` fails. */
  lemma Round(max: nat, r: nat, s: State, es: seq<Event>, u: State) returns (fs: seq<Event>, t: State)
    requires r < max && Reaches(max, s, es, u) && Squeezed(max, r, u)
    ensures Reaches(max, s, fs, t) && Squeezed(max, r + 1, t)
  {
    NextRoom(max, r, u);
    assert Fresh(u, r);
    var v, w;
    fs, v := Reads(max, s, es, u, max, r);
    fs, w := Reads(max, s, fs, v, r, r);
    BothRead(max, r, u, v, w);
    Collide(max, r, w);
    var x := Inserted(max, w, r);
    t := Inserted(max, x, max);
    Then(max, s, fs, w, Insert(r), x);
    Then(max, s, fs + [Insert(r)], x, Insert(max), t);
    fs := fs + [Insert(r)] + [Insert(max)];
  }

  lemma {:induction false} Rounds(max: nat, n: nat, r: nat) returns (es: seq<Event>, t: State)
    requires r <= max < n && 0 < max
    ensures Reaches(max, Init(Crowd(n), map[]), es, t) && Squeezed(max, r, t)
  {
    if r == 0 {
      es, t := [], Init(Crowd(n), map[]);
      forall c {:trigger Fresh(t, c)} | 0 <= c < max ensures Fresh(t, c) {}
    } else {
      es, t := Rounds(max, n, r - 1);
      es, t := Round(max, r - 1, Init(Crowd(n), map[]), es, t);
    }
  }

  /** In no run with `n` callers does one give up. */
  ghost predicate NobodyGivesUp(max: nat, n: nat) {
    forall agents, rooms, es, s, c {:trigger Reaches(max, Init(agents, rooms), es, s), s.callers[c]} ::
      |agents| == n && OneToOne(rooms) && Reaches(max, Init(agents, rooms), es, s) && c in s.callers ==>
        !s.callers[c].phase.GaveUp?
  }

  /** The attempts suffice exactly when there are no more concurrent callers than attempts. */
  lemma AttemptsSufficeIff(max: nat, n: nat)
    requires 0 < max
    ensures NobodyGivesUp(max, n) <==> n <= max
  {
    if n <= max {
      forall agents, rooms, es, s, c {:trigger Reaches(max, Init(agents, rooms), es, s), s.callers[c]}
        | |agents| == n && OneToOne(rooms) && Reaches(max, Init(agents, rooms), es, s) && c in s.callers
        ensures !s.callers[c].phase.GaveUp?
      {
        RunKeeps(max, agents, rooms, es, s);
        EveryoneIsServed(max, agents, rooms, es, s, c);
      }
    } else {
      var es, t := Rounds(max, n, max);
      assert |Crowd(n)| == n && OneToOne(map[]) && t.callers[max].phase.GaveUp?;
    }
  }

  // ----- how high the slots go -----

  /** A slot below which everything is taken is at most the number of agents with a room. */
  lemma {:induction false} LowestAtMost(rooms: map<nat, nat>, slot: nat)
    requires forall s :: 0 <= s < slot ==> s in rooms.Values
    ensures slot <= |rooms|
  {
    if slot > 0 {
      assert slot - 1 in rooms.Values;
      var a :| a in rooms && rooms[a] == slot - 1;
      var rest := rooms - {a};
      forall s | 0 <= s < slot - 1 ensures s in rest.Values {
        assert s in rooms.Values;
        var b :| b in rooms && rooms[b] == s;
        assert b in rest && rest[b] == s;
      }
      LowestAtMost(rest, slot - 1);
      assert |rooms.Keys| == |rest.Keys| + 1 by { assert rooms.Keys == rest.Keys + {a}; }
    }
  }

  lemma OneMore(rooms: map<nat, nat>, agent: nat, slot: nat)
    requires agent !in rooms
    ensures |rooms[agent := slot]| == |rooms| + 1
  {
    assert rooms[agent := slot].Keys == rooms.Keys + {agent};
  }

  lemma OneLess(rooms: map<nat, nat>, agent: nat)
    ensures |rooms - {agent}| <= |rooms|
  {
    assert (rooms - {agent}).Keys <= rooms.Keys;
    Fewer((rooms - {agent}).Keys, rooms.Keys);
  }

  ghost predicate SlotOk(s: State, c: nat) {
    c in s.callers && s.callers[c].phase.Listed? ==> s.callers[c].phase.slot <= s.peak
  }

  /** No slot in use, or about to be, is above the peak. */
  ghost predicate Packed(s: State) {
    && |s.rooms| <= s.peak && (forall a :: a in s.rooms ==> s.rooms[a] <= s.peak)
    && (forall c {:trigger SlotOk(s, c)} :: SlotOk(s, c))
  }

  lemma PackedStep(max: nat, s: State, e: Event, t: State)
    requires Packed(s) && Step(max, s, e, t)
    ensures Packed(t)
  {
    match e {
      case List(c, slot) => LowestAtMost(s.rooms, slot);
      case Insert(c) =>
        if CanInsert(s, s.callers[c], s.callers[c].phase.slot) {
          OneMore(s.rooms, s.callers[c].agent, s.callers[c].phase.slot);
        }
      case Release(agent) => OneLess(s.rooms, agent);
      case Look(_) =>
    }
    if e.Insert? { assert SlotOk(s, e.c); }
    forall c {:trigger SlotOk(t, c)} ensures SlotOk(t, c) { assert SlotOk(s, c); }
  }

  /** Over any interleaving every active slot is at most the peak number of agents with a room. */
  lemma {:induction false} SlotsWithinPeak(max: nat, agents: seq<nat>, rooms: map<nat, nat>, es: seq<Event>, s: State)
    requires (forall a :: a in rooms ==> rooms[a] <= |rooms|) && Reaches(max, Init(agents, rooms), es, s)
    ensures Packed(s)
  {
    if es != [] {
      var e := es[|es| - 1];
      var u :| Reaches(max, Init(agents, rooms), es[..|es| - 1], u) && Step(max, u, e, s);
      SlotsWithinPeak(max, agents, rooms, es[..|es| - 1], u);
      PackedStep(max, u, e, s);
    } else {
      forall c {:trigger SlotOk(s, c)} ensures SlotOk(s, c) {}
    }
  }

  /** Every slot in use is below the peak. */
  ghost predicate Dense(s: State) {
    |s.rooms| <= s.peak && forall a :: a in s.rooms ==> s.rooms[a] < s.peak
  }

  lemma CallDense(max: nat, s: State, c: nat, slot: nat, u: State, v: State, t: State)
    requires Dense(s) && Step(max, s, Look(c), u) && Step(max, u, List(c, slot), v) && Step(max, v, Insert(c), t)
    ensures Dense(t)
  {
    LowestAtMost(s.rooms, slot);
    OneMore(s.rooms, s.callers[c].agent, slot);
  }

  lemma TurnDense(max: nat, s: State, turn: Turn, t: State)
    requires Dense(s) && TurnStep(max, s, turn, t)
    ensures Dense(t)
  {
    match turn {
      case Leave(agent) => OneLess(s.rooms, agent);
      case Call(c, slot) =>
        var u :| Step(max, s, Look(c), u) &&
          if u.callers[c].phase.Got? then t == u
          else exists v {:trigger Step(max, v, Insert(c), t)} ::
            Step(max, u, List(c, slot), v) && Step(max, v, Insert(c), t);
        if !u.callers[c].phase.Got? {
          var v :| Step(max, u, List(c, slot), v) && Step(max, v, Insert(c), t);
          CallDense(max, s, c, slot, u, v, t);
        }
    }
  }

  /** Over any serial run every active slot is below the peak number of agents with a room. */
  lemma {:induction false} SerialSlotsBelowPeak(
    max: nat, agents: seq<nat>, rooms: map<nat, nat>, turns: seq<Turn>, s: State)
    requires (forall a :: a in rooms ==> rooms[a] < |rooms|) && SerialRun(max, Init(agents, rooms), turns, s)
    ensures Dense(s)
  {
    if turns != [] {
      var u :| SerialRun(max, Init(agents, rooms), turns[..|turns| - 1], u) && TurnStep(max, u, turns[|turns| - 1], s);
      SerialSlotsBelowPeak(max, agents, rooms, turns[..|turns| - 1], u);
      TurnDense(max, u, turns[|turns| - 1], s);
    }
  }

  /** Caller `c` finds room `r` free and inserts at once. */
  lemma Takes(max: nat, s: State, es: seq<Event>, u: State, c: nat, r: nat) returns (fs: seq<Event>, t: State)
    requires Reaches(max, s, es, u) && c in u.callers && u.callers[c].phase.Ready? && u.callers[c].agent !in u.rooms
    requires IsLowestFree(u.rooms.Values, r)
    ensures Reaches(max, s, fs, t) && t.rooms == u.rooms[u.callers[c].agent := r]
    ensures t.peak == if |t.rooms| > u.peak then |t.rooms| else u.peak
    ensures t.callers.Keys == u.callers.Keys && forall x :: x in u.callers && x != c ==> t.callers[x] == u.callers[x]
  {
    var v;
    fs, v := Reads(max, s, es, u, c, r);
    t := Inserted(max, v, c);
    Then(max, s, fs, v, Insert(c), t);
    fs := fs + [Insert(c)];
  }

  lemma Singleton(rooms: map<nat, nat>, a: nat, r: nat)
    requires rooms == map[a := r]
    ensures |rooms| == 1 && rooms.Values == {r}
  {
    assert rooms[a] == r;
  }

  /** The second caller lists its slot, the first agent's room is released, and then it inserts. */
  lemma InsertsLate(max: nat, s: State, es: seq<Event>, u: State) returns (fs: seq<Event>, t: State)
    requires Reaches(max, s, es, u) && u.rooms == map[0 := 0] && u.peak == 1 && Fresh(u, 1)
    ensures Reaches(max, s, fs, t) && t.rooms == map[1 := 1] && t.peak == 1
  {
    Singleton(u.rooms, 0, 0);
    var v;
    fs, v := Reads(max, s, es, u, 1, 1);
    var w := v.(rooms := v.rooms - {0});
    Then(max, s, fs, v, Release(0), w);
    assert w.rooms == map[] && w.rooms.Values == {};
    t := Inserted(max, w, 1);
    Then(max, s, fs + [Release(0)], w, Insert(1), t);
    fs := fs + [Release(0)] + [Insert(1)];
    assert t.rooms == map[1 := 1];
    Singleton(t.rooms, 1, 1);
  }

  /** Interleaved, the bound is not strict. */
  lemma PeakIsReached(max: nat) returns (es: seq<Event>, s: State)
    requires max > 0
    ensures Reaches(max, Init(Crowd(2), map[]), es, s) && 1 in s.rooms && s.rooms[1] == s.peak
  {
    var s0 := Init(Crowd(2), map[]);
    assert Reaches(max, s0, [], s0) && s0.rooms.Values == {} && Fresh(s0, 0) && Fresh(s0, 1);
    var u;
    es, u := Takes(max, s0, [], s0, 0, 0);
    assert u.rooms == map[0 := 0];
    Singleton(u.rooms, 0, 0);
    assert Fresh(u, 1);
    es, s := InsertsLate(max, s0, es, u);
  }
}
