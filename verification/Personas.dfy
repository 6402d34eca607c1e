/**
 Persona slots: the claim loop of services/api/services/persona_slots.py with any number of
 concurrent callers.  A slot and its persona's agent appear in one commit and are never removed.
 */
module Personas {
  import opened Options
  import opened Sets

  /** Where a caller is in `ensure_persona` and `_claim_slot`; the reads are separate statements. */
  datatype Phase =
    | Fresh
    | Checked
    | Reading
    | Holding(occupied: set<nat>)
    | Clashed
    | Claimed(slot: nat)
    | Found
    | CapReached
    | RanOut

  /** `tries` is the number of failed inserts. */
  datatype Caller = Caller(code: nat, tries: nat, phase: Phase)

  /** `slots` maps a taken slot to its persona's code. */
  datatype State = State(slots: map<nat, nat>, callers: map<nat, Caller>)

  datatype Event = Check(c: nat) | Read(c: nat) | Try(c: nat) | Recheck(c: nat)

  function LowestFree(occupied: set<nat>, from: nat, cap: nat): Option<nat>
    requires from <= cap
    decreases cap - from
  {
    if from == cap then None else if from in occupied then LowestFree(occupied, from + 1, cap) else Some(from)
  }

  function Moved(s: State, c: nat, k: Caller): State {
    s.(callers := s.callers[c := k])
  }

  /** `ensure_persona`'s first look, and the look after a failed insert. */
  function Checking(s: State, c: nat): Option<State>
    requires c in s.callers
  {
    var k := s.callers[c];
    if k.phase.Fresh? then Some(Moved(s, c, k.(phase := if k.code in s.slots.Values then Found else Checked))) else None
  }

  /** The occupied slots are read on entry and again before the loop goes round; a caller whose
      last round has failed falls out of the loop instead. */
  function Reads(cap: nat, s: State, c: nat): Option<State>
    requires c in s.callers
  {
    var k := s.callers[c];
    if k.phase.Checked? then Some(Moved(s, c, k.(phase := Holding(s.slots.Keys))))
    else if k.phase.Reading? then
      Some(Moved(s, c, k.(tries := k.tries + 1,
                          phase := if k.tries + 1 == cap + 1 then RanOut else Holding(s.slots.Keys))))
    else None
  }

  function Tries(cap: nat, s: State, c: nat): Option<State>
    requires c in s.callers
  {
    var k := s.callers[c];
    if !k.phase.Holding? then None
    else match LowestFree(k.phase.occupied, 0, cap)
      case None => Some(Moved(s, c, k.(phase := CapReached)))
      case Some(slot) =>
        if slot in s.slots || k.code in s.slots.Values then Some(Moved(s, c, k.(phase := Clashed)))
        else Some(Moved(s.(slots := s.slots[slot := k.code]), c, k.(phase := Claimed(slot))))
  }

  function Rechecks(s: State, c: nat): Option<State>
    requires c in s.callers
  {
    var k := s.callers[c];
    if k.phase.Clashed? then Some(Moved(s, c, k.(phase := if k.code in s.slots.Values then Found else Reading)))
    else None
  }

  function Apply(cap: nat, s: State, e: Event): Option<State> {
    if e.c !in s.callers then None
    else match e
      case Check(c) => Checking(s, c)
      case Read(c) => Reads(cap, s, c)
      case Try(c) => Tries(cap, s, c)
      case Recheck(c) => Rechecks(s, c)
  }

  function Run(cap: nat, s: State, es: seq<Event>): Option<State>
    decreases |es|
  {
    if es == [] then Some(s)
    else
      var r := Run(cap, s, es[..|es| - 1]);
      if r.None? then None else Apply(cap, r.value, es[|es| - 1])
  }

  /** Calls that have not begun, on top of slots already claimed. */
  ghost predicate Begins(cap: nat, s: State) {
    && (forall c :: c in s.callers ==> s.callers[c].phase.Fresh? && s.callers[c].tries == 0)
    && (forall x :: x in s.slots ==> x < cap) && OnePerCode(s.slots)
  }

  ghost predicate OnePerCode(slots: map<nat, nat>) {
    forall x, y :: x in slots && y in slots && slots[x] == slots[y] ==> x == y
  }

  // ----- the cap -----

  lemma {:induction false} LowestIsFree(occupied: set<nat>, from: nat, cap: nat)
    requires from <= cap && forall x: nat :: x < from ==> x in occupied
    ensures match LowestFree(occupied, from, cap)
            case Some(slot) => slot < cap && slot !in occupied
            case None => forall x: nat :: x < cap ==> x in occupied
    decreases cap - from
  {
    if from < cap && from in occupied { LowestIsFree(occupied, from + 1, cap); }
  }

  lemma {:induction false} AtMost(slots: set<nat>, cap: nat)
    requires forall x :: x in slots ==> x < cap
    ensures |slots| <= cap
    decreases cap
  {
    if cap == 0 {
      assert slots == {};
    } else {
      AtMost(slots - {cap - 1}, cap - 1);
    }
  }

  /** Every failed insert has cost a slot that the next read sees. */
  ghost predicate CallerOk(cap: nat, s: State, c: nat) {
    c in s.callers ==>
      var k := s.callers[c];
      k.tries <= cap &&
      match k.phase
      case Fresh => k.tries == 0
      case Checked => k.tries == 0
      case Holding(occupied) => occupied <= s.slots.Keys && k.tries <= |occupied|
      case Clashed => k.code in s.slots.Values || k.tries < |s.slots.Keys|
      case Reading => k.tries < |s.slots.Keys|
      case Claimed(slot) => slot in s.slots && s.slots[slot] == k.code
      case Found => k.code in s.slots.Values
      case CapReached => forall x: nat :: x < cap ==> x in s.slots
      case RanOut => false
  }

  ghost predicate Inv(cap: nat, s: State) {
    && (forall x :: x in s.slots ==> x < cap) && OnePerCode(s.slots)
    && forall c {:trigger CallerOk(cap, s, c)} :: CallerOk(cap, s, c)
  }

  lemma ClaimKeeps(cap: nat, s: State, c: nat, slot: nat, x: nat)
    requires Inv(cap, s) && c in s.callers && slot !in s.slots && s.callers[c].code !in s.slots.Values && x != c
    ensures CallerOk(cap, Moved(s.(slots := s.slots[slot := s.callers[c].code]), c,
                                s.callers[c].(phase := Claimed(slot))), x)
  {
    assert CallerOk(cap, s, x);
    var t := s.slots[slot := s.callers[c].code];
    assert s.slots.Keys <= t.Keys;
    Fewer(s.slots.Keys, t.Keys);
    forall v | v in s.slots.Values ensures v in t.Values {
      var y :| y in s.slots && s.slots[y] == v;
      assert y in t && t[y] == v;
    }
  }

  lemma TryKeeps(cap: nat, s: State, c: nat, t: State)
    requires Inv(cap, s) && c in s.callers && Tries(cap, s, c) == Some(t)
    ensures Inv(cap, t)
  {
    var k := s.callers[c];
    assert CallerOk(cap, s, c);
    LowestIsFree(k.phase.occupied, 0, cap);
    if t.slots == s.slots {
      if t.callers[c].phase.Clashed? && k.code !in s.slots.Values {
        Clash(k.phase.occupied, s.slots.Keys, LowestFree(k.phase.occupied, 0, cap).value);
      }
      forall x {:trigger CallerOk(cap, t, x)} ensures CallerOk(cap, t, x) { assert CallerOk(cap, s, x); }
    } else {
      forall x {:trigger CallerOk(cap, t, x)} ensures CallerOk(cap, t, x) {
        if x != c { ClaimKeeps(cap, s, c, t.callers[c].phase.slot, x); }
      }
      forall x, y | x in t.slots && y in t.slots && t.slots[x] == t.slots[y] ensures x == y {
        if x in s.slots { assert s.slots[x] in s.slots.Values; }
        if y in s.slots { assert s.slots[y] in s.slots.Values; }
      }
    }
  }

  lemma Clash(occupied: set<nat>, taken: set<nat>, slot: nat)
    requires occupied <= taken && slot in taken && slot !in occupied
    ensures |occupied| < |taken|
  {
    Fewer(occupied, taken - {slot});
  }

  lemma StepKeeps(cap: nat, s: State, e: Event, t: State)
    requires Inv(cap, s) && Apply(cap, s, e) == Some(t)
    ensures Inv(cap, t)
  {
    if e.Try? {
      TryKeeps(cap, s, e.c, t);
    } else {
      assert CallerOk(cap, s, e.c);
      AtMost(s.slots.Keys, cap);
      forall x {:trigger CallerOk(cap, t, x)} ensures CallerOk(cap, t, x) { assert CallerOk(cap, s, x); }
    }
  }

  lemma {:induction false} RunKeeps(cap: nat, s: State, es: seq<Event>, t: State)
    requires Begins(cap, s) && Run(cap, s, es) == Some(t)
    ensures Inv(cap, t)
  {
    if es == [] {
      forall x {:trigger CallerOk(cap, t, x)} ensures CallerOk(cap, t, x) {}
    } else {
      RunKeeps(cap, s, es[..|es| - 1], Run(cap, s, es[..|es| - 1]).value);
      StepKeeps(cap, Run(cap, s, es[..|es| - 1]).value, es[|es| - 1], t);
    }
  }

  /** However many callers race: no two slots go to one persona, a caller that is done has its
      persona's slot, the cap is reported only when every slot is taken, and the error behind the
      loop is never raised. */
  lemma CapIsReal(cap: nat, s: State, es: seq<Event>, t: State, c: nat)
    requires Begins(cap, s) && Run(cap, s, es) == Some(t) && c in t.callers
    ensures OnePerCode(t.slots) && (forall x :: x in t.slots ==> x < cap)
    ensures !t.callers[c].phase.RanOut? && t.callers[c].tries <= cap
    ensures t.callers[c].phase.Claimed? || t.callers[c].phase.Found? ==> t.callers[c].code in t.slots.Values
    ensures t.callers[c].phase.CapReached? ==> forall x: nat :: x < cap ==> x in t.slots
  {
    RunKeeps(cap, s, es, t);
    assert CallerOk(cap, t, c);
  }
}
