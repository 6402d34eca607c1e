/**
 Rooms of the agents' apartment: the slot arithmetic of packages/common/rooms.py and the retrying
 allocator of services/api/services/room_assignment.py, with any number of concurrent callers.
 */
module Rooms {
  import opened Options

  const ROOMS_PER_FLOOR := 4

  // ----- slots and rooms -----

  /** Floor and room of a slot, both from 1; a negative slot is refused. */
  function SlotToRoom(slot: int): Option<(int, int)> {
    if slot < 0 then None else Some((slot / ROOMS_PER_FLOOR + 1, slot % ROOMS_PER_FLOOR + 1))
  }

  function RoomToSlot(floor: int, room: int): int {
    (floor - 1) * ROOMS_PER_FLOOR + (room - 1)
  }

  /** Slots and real rooms correspond one to one. */
  lemma SlotsAreRooms(slot: nat, floor: int, room: int)
    requires 1 <= floor && 1 <= room <= 4
    ensures SlotToRoom(slot).Some? && RoomToSlot(SlotToRoom(slot).value.0, SlotToRoom(slot).value.1) == slot
    ensures 1 <= SlotToRoom(slot).value.0 && 1 <= SlotToRoom(slot).value.1 <= 4
    ensures 4 * (SlotToRoom(slot).value.0 - 1) + SlotToRoom(slot).value.1 - 1 == slot
    ensures SlotToRoom(RoomToSlot(floor, room)) == Some((floor, room))
  {
    var s := RoomToSlot(floor, room);
    assert s == 4 * (floor - 1) + (room - 1);
  }

  ghost predicate IsLowestFree(occupied: set<int>, slot: nat) {
    slot !in occupied && forall s :: 0 <= s < slot ==> s in occupied
  }

  lemma {:induction false} AllBelowTaken(occupied: set<int>, slot: nat)
    requires forall s :: 0 <= s < slot ==> s in occupied
    ensures slot <= |occupied|
  {
    if slot > 0 {
      AllBelowTaken(occupied - {slot - 1}, slot - 1);
      assert |occupied - {slot - 1}| == |occupied| - 1;
    }
  }

  /** The lowest free slot; there is always one no higher than the number of slots taken. */
  method LowestFreeSlot(occupied: set<int>) returns (slot: nat)
    ensures IsLowestFree(occupied, slot) && slot <= |occupied|
  {
    slot := 0;
    while slot in occupied
      invariant forall s :: 0 <= s < slot ==> s in occupied
      decreases |occupied| - slot
    {
      AllBelowTaken(occupied, slot + 1);
      slot := slot + 1;
    }
    AllBelowTaken(occupied, slot);
  }

  // ----- concurrent callers -----

  datatype Phase = Ready | Looked | Listed(slot: nat) | Got(slot: nat) | GaveUp

  /** One `ensure_assignment` call.  `since` is the number of rooms handed out when it last looked
      for its agent's room, `steps` the number of its own steps. */
  datatype Caller = Caller(agent: nat, fails: nat, since: nat, steps: nat, phase: Phase)

  /** `rooms` are the active assignments of one tenant, `handed` the number of successful inserts,
      `peak` the largest number of agents that had a room at the same time. */
  datatype State = State(rooms: map<nat, nat>, callers: map<nat, Caller>, handed: nat, peak: nat)

  /** The two reads and the insert of an attempt are separate statements; rooms may be released
      at any time. */
  datatype Event = Look(c: nat) | List(c: nat, slot: nat) | Insert(c: nat) | Release(agent: nat)

  function Moved(s: State, c: nat, k: Caller): State
    requires c in s.callers
  {
    s.(callers := s.callers[c := k.(steps := k.steps + 1)])
  }

  ghost predicate CanInsert(s: State, k: Caller, slot: nat) {
    k.agent !in s.rooms && slot !in s.rooms.Values
  }

  ghost function Inserted(max: nat, s: State, c: nat): State
    requires c in s.callers && s.callers[c].phase.Listed?
  {
    var k := s.callers[c];
    if CanInsert(s, k, k.phase.slot)
    then
      var rooms := s.rooms[k.agent := k.phase.slot];
      Moved(s.(rooms := rooms, handed := s.handed + 1, peak := if |rooms| > s.peak then |rooms| else s.peak), c,
            k.(phase := Got(k.phase.slot)))
    else Moved(s, c, k.(fails := k.fails + 1, phase := if k.fails + 1 >= max then GaveUp else Ready))
  }

  ghost predicate Step(max: nat, s: State, e: Event, t: State) {
    match e
    case Look(c) =>
      && c in s.callers && s.callers[c].phase.Ready?
      && var k := s.callers[c];
         t == (if k.agent in s.rooms then Moved(s, c, k.(phase := Got(s.rooms[k.agent])))
               else Moved(s, c, k.(phase := Looked, since := s.handed)))
    case List(c, slot) =>
      c in s.callers && s.callers[c].phase.Looked? && IsLowestFree(s.rooms.Values, slot)
        && t == Moved(s, c, s.callers[c].(phase := Listed(slot)))
    case Insert(c) => c in s.callers && s.callers[c].phase.Listed? && t == Inserted(max, s, c)
    case Release(agent) => t == s.(rooms := s.rooms - {agent})
  }

  /** `n` calls, caller `c` for agent `agents[c]`, on top of some assignments. */
  function Init(agents: seq<nat>, rooms: map<nat, nat>): State {
    State(rooms, map c: nat | c < |agents| :: Caller(agents[c], 0, 0, 0, Ready), 0, |rooms|)
  }

  ghost predicate OneToOne(rooms: map<nat, nat>) {
    forall a, b :: a in rooms && b in rooms && rooms[a] == rooms[b] ==> a == b
  }

  ghost predicate Reaches(max: nat, s: State, es: seq<Event>, t: State)
    decreases |es|
  {
    if es == [] then s == t
    else exists u {:trigger Step(max, u, es[|es| - 1], t)} ::
      Reaches(max, s, es[..|es| - 1], u) && Step(max, u, es[|es| - 1], t)
  }

  /** A call that runs without interruption, or a release. */
  datatype Turn = Call(c: nat, slot: nat) | Leave(agent: nat)

  ghost predicate TurnStep(max: nat, s: State, turn: Turn, t: State) {
    match turn
    case Leave(agent) => Step(max, s, Release(agent), t)
    case Call(c, slot) =>
      exists u {:trigger Step(max, s, Look(c), u)} :: Step(max, s, Look(c), u) &&
        if u.callers[c].phase.Got? then t == u
        else exists v {:trigger Step(max, v, Insert(c), t)} ::
          Step(max, u, List(c, slot), v) && Step(max, v, Insert(c), t)
  }

  /** Calls and releases one after the other. */
  ghost predicate SerialRun(max: nat, s: State, turns: seq<Turn>, t: State)
    decreases |turns|
  {
    if turns == [] then s == t
    else exists u {:trigger TurnStep(max, u, turns[|turns| - 1], t)} ::
      SerialRun(max, s, turns[..|turns| - 1], u) && TurnStep(max, u, turns[|turns| - 1], t)
  }
}
