/**
 Lot placement: `assignLots` of apps/admin-web/src/world/lots.ts, linear probing from a project's
 home lot in the order the projects are listed.  The string hash is a parameter.
 */
module Lots {
  import opened Options
  import opened Town

  datatype Project = Project(id: string)

  function Slot(home: nat, probe: nat): (s: nat)
    ensures s < LOT_COUNT
  {
    (home + probe) % LOT_COUNT
  }

  /** The first free slot from probe `p` on. */
  function Probe(home: nat, p: nat, taken: set<nat>): Option<nat>
    requires p <= LOT_COUNT
    decreases LOT_COUNT - p
  {
    if p == LOT_COUNT then None else if Slot(home, p) in taken then Probe(home, p + 1, taken) else Some(Slot(home, p))
  }

  function Place(m: map<Project, nat>, id: Project, home: nat): map<Project, nat> {
    if id in m then m
    else match Probe(home, 0, m.Values) case Some(s) => m[id := s] case None => m
  }

  function Assign(ids: seq<Project>, hash: Project -> nat): map<Project, nat> {
    if ids == [] then map[] else Place(Assign(ids[..|ids| - 1], hash), ids[|ids| - 1], hash(ids[|ids| - 1]))
  }

  /** The probing loop. */
  method FindLot(taken: array<bool>, h: nat, ghost used: set<nat>) returns (lot: Option<nat>)
    requires taken.Length == LOT_COUNT && forall s :: 0 <= s < LOT_COUNT ==> (taken[s] <==> s in used)
    ensures lot == Probe(h, 0, used) && (lot.Some? ==> lot.value < LOT_COUNT)
  {
    var home := h % LOT_COUNT;
    HomeMod(h, 0, used);
    for probe := 0 to LOT_COUNT
      invariant Probe(h, 0, used) == Probe(home, probe, used)
    {
      var candidate := (home + probe) % LOT_COUNT;
      if !taken[candidate] {
        return Some(candidate);
      }
    }
    lot := None;
  }

  method AssignLots(ids: seq<Project>, hash: Project -> nat) returns (lotOf: map<Project, nat>)
    ensures lotOf == Assign(ids, hash)
  {
    lotOf := map[];
    var taken := new bool[LOT_COUNT](_ => false);
    for i := 0 to |ids|
      invariant lotOf == Assign(ids[..i], hash)
      invariant forall s :: 0 <= s < LOT_COUNT ==> (taken[s] <==> s in lotOf.Values)
    {
      var id := ids[i];
      assert ids[..i + 1][..i] == ids[..i];
      if id !in lotOf {
        var lot := FindLot(taken, hash(id), lotOf.Values);
        if lot.Some? {
          ValuesAfter(lotOf, id, lot.value);
          taken[lot.value] := true;
          lotOf := lotOf[id := lot.value];
        }
      }
    }
    assert ids[..|ids|] == ids;
  }

  lemma ValuesAfter(m: map<Project, nat>, id: Project, s: nat)
    requires id !in m
    ensures m[id := s].Values == m.Values + {s}
  {
    var n := m[id := s];
    assert id in n && n[id] in n.Values;
    forall v | v in m.Values ensures v in n.Values {
      var k :| k in m && m[k] == v;
      assert k in n && n[k] == v;
    }
  }

  lemma WrapsAround(a: nat, k: nat)
    ensures (a + 48 * k) % 48 == a % 48
  {
  }

  lemma HomeSlot(h: nat, p: nat)
    ensures Slot(h, p) == Slot(h % LOT_COUNT, p)
  {
    var q := h / LOT_COUNT;
    assert LOT_COUNT == 48 && h == 48 * q + h % 48;
    WrapsAround(h % 48 + p, q);
  }

  /** The code reduces the hash before adding the probe. */
  lemma {:induction false} HomeMod(h: nat, p: nat, taken: set<nat>)
    requires p <= LOT_COUNT
    ensures Probe(h, p, taken) == Probe(h % LOT_COUNT, p, taken)
    decreases LOT_COUNT - p
  {
    if p < LOT_COUNT {
      HomeSlot(h, p);
      HomeMod(h, p + 1, taken);
    }
  }

  // ----- what a placement is -----

  ghost predicate OneToOne(m: map<Project, nat>) {
    forall a, b :: a in m && b in m && m[a] == m[b] ==> a == b
  }

  /** `s` is the first probe slot from `home` that is not taken. */
  ghost predicate FirstFree(home: nat, taken: set<nat>, s: nat) {
    exists p ::
      && 0 <= p < LOT_COUNT && s == Slot(home, p) && s !in taken
      && forall q :: 0 <= q < p ==> Slot(home, q) in taken
  }

  lemma {:induction false} ProbeIsFirst(home: nat, p: nat, taken: set<nat>)
    requires p <= LOT_COUNT && forall q :: 0 <= q < p ==> Slot(home, q) in taken
    ensures match Probe(home, p, taken)
            case Some(s) => FirstFree(home, taken, s)
            case None => forall q :: 0 <= q < LOT_COUNT ==> Slot(home, q) in taken
    decreases LOT_COUNT - p
  {
    if p < LOT_COUNT && Slot(home, p) in taken { ProbeIsFirst(home, p + 1, taken); }
  }

  /** Probing visits every lot. */
  lemma ProbesCover(home: nat, s: nat) returns (p: nat)
    requires s < LOT_COUNT
    ensures p < LOT_COUNT && Slot(home, p) == s
  {
    p := (s + LOT_COUNT - home % LOT_COUNT) % LOT_COUNT;
  }

  /** A map that uses `n` given lots has at least `n` keys. */
  lemma {:induction false} ManyLots(m: map<Project, nat>, n: nat)
    requires forall s :: 0 <= s < n ==> s in m.Values
    ensures n <= |m|
    decreases n
  {
    if n > 0 {
      assert n - 1 in m.Values;
      var id :| id in m && m[id] == n - 1;
      var rest := m - {id};
      forall s | 0 <= s < n - 1 ensures s in rest.Values {
        assert s in m.Values;
        var k :| k in m && m[k] == s;
        assert k in rest && rest[k] == s;
      }
      ManyLots(rest, n - 1);
      assert |m.Keys| == |rest.Keys| + 1 by { assert m.Keys == rest.Keys + {id}; }
    }
  }

  /** While a lot is free, a new project gets its first free probe slot; otherwise it gets none. */
  lemma PlaceIff(m: map<Project, nat>, id: Project, home: nat)
    requires id !in m
    ensures |m| < LOT_COUNT ==> id in Place(m, id, home)
    ensures id in Place(m, id, home) ==> FirstFree(home, m.Values, Place(m, id, home)[id])
    ensures id !in Place(m, id, home) ==> forall s :: 0 <= s < LOT_COUNT ==> s in m.Values
  {
    ProbeIsFirst(home, 0, m.Values);
    if id !in Place(m, id, home) {
      forall s | 0 <= s < LOT_COUNT ensures s in m.Values {
        var p := ProbesCover(home, s);
      }
      ManyLots(m, LOT_COUNT);
    }
  }

  function Listed(ids: seq<Project>): set<Project> {
    set i | 0 <= i < |ids| :: ids[i]
  }

  /** No two projects share a lot, and every lot exists. */
  ghost predicate Fits(m: map<Project, nat>) {
    OneToOne(m) && forall id :: id in m ==> m[id] < LOT_COUNT
  }

  lemma PlaceFits(m: map<Project, nat>, id: Project, home: nat)
    requires Fits(m)
    ensures Fits(Place(m, id, home)) && m.Keys <= Place(m, id, home).Keys <= m.Keys + {id}
  {
    if id !in m { PlaceIff(m, id, home); }
  }

  lemma ListedGrows(ids: seq<Project>, id: Project)
    ensures Listed(ids + [id]) == Listed(ids) + {id}
  {
    var all := ids + [id];
    assert all[|ids|] == id;
    forall x | x in Listed(ids) ensures x in Listed(all) {
      var i :| 0 <= i < |ids| && ids[i] == x;
      assert all[i] == x;
    }
  }

  lemma LastIsPlaced(m: map<Project, nat>, listed: set<Project>, id: Project, home: nat)
    requires |listed + {id}| <= LOT_COUNT && m.Keys <= listed && (|listed| <= LOT_COUNT ==> m.Keys == listed)
    ensures |listed| <= LOT_COUNT && id in Place(m, id, home)
  {
    if id in listed {
      assert listed + {id} == listed;
    } else {
      assert |listed + {id}| == |listed| + 1;
      PlaceIff(m, id, home);
    }
  }

  /** No two projects share a lot, every lot exists, only listed projects are placed, and all of
      them are while there are no more than lots. */
  lemma {:induction false} Placement(ids: seq<Project>, hash: Project -> nat)
    ensures Fits(Assign(ids, hash)) && Assign(ids, hash).Keys <= Listed(ids)
    ensures |Listed(ids)| <= LOT_COUNT ==> Assign(ids, hash).Keys == Listed(ids)
  {
    if ids != [] {
      var rest, id := ids[..|ids| - 1], ids[|ids| - 1];
      Placement(rest, hash);
      assert ids == rest + [id];
      ListedGrows(rest, id);
      var m := Assign(rest, hash);
      PlaceFits(m, id, hash(id));
      if |Listed(ids)| <= LOT_COUNT { LastIsPlaced(m, Listed(rest), id, hash(id)); }
    }
  }

  /** Projects listed later never move an earlier one. */
  lemma {:induction false} AppendKeeps(ids: seq<Project>, more: seq<Project>, hash: Project -> nat)
    ensures forall id :: id in Assign(ids, hash) ==>
              id in Assign(ids + more, hash) && Assign(ids + more, hash)[id] == Assign(ids, hash)[id]
  {
    if more == [] {
      assert ids + more == ids;
    } else {
      AppendKeeps(ids, more[..|more| - 1], hash);
      assert (ids + more)[..|ids + more| - 1] == ids + more[..|more| - 1];
    }
  }

  lemma NoRoom(m: map<Project, nat>, id: Project, home: nat)
    requires forall s :: 0 <= s < LOT_COUNT ==> s in m.Values
    ensures Place(m, id, home) == m
  {
    ProbeIsFirst(home, 0, m.Values);
  }

  /** Once every lot is taken nothing is placed any more. */
  lemma {:induction false} FullStaysFull(ids: seq<Project>, more: seq<Project>, hash: Project -> nat)
    requires forall s :: 0 <= s < LOT_COUNT ==> s in Assign(ids, hash).Values
    ensures Assign(ids + more, hash) == Assign(ids, hash)
  {
    if more == [] {
      assert ids + more == ids;
    } else {
      var rest, id := more[..|more| - 1], more[|more| - 1];
      FullStaysFull(ids, rest, hash);
      assert (ids + more)[..|ids + more| - 1] == ids + rest;
      NoRoom(Assign(ids, hash), id, hash(id));
    }
  }

  /** Lot `s` is free, and every lot on the way up to it from the home lot, past the last one to the
      first if need be, is taken. */
  ghost predicate Nearest(home: nat, taken: set<nat>, s: nat) {
    && s < 48 && s !in taken
    && forall r: nat {:trigger r in taken} :: r < 48 && (r + 48 - home) % 48 < (s + 48 - home) % 48 ==> r in taken
  }

  lemma StepsTo(home: nat, p: nat)
    requires home < 48 && p < 48
    ensures ((home + p) % 48 + 48 - home) % 48 == p
  {
  }

  lemma StepsBack(home: nat, r: nat)
    requires home < 48 && r < 48
    ensures (home + (r + 48 - home) % 48) % 48 == r
  {
  }

  lemma FirstIsNearest(home: nat, taken: set<nat>, s: nat)
    requires FirstFree(home, taken, s)
    ensures Nearest(home % 48, taken, s)
  {
    var h := home % 48;
    var p :| 0 <= p < LOT_COUNT && s == Slot(home, p) && forall q :: 0 <= q < p ==> Slot(home, q) in taken;
    HomeSlot(home, p);
    StepsTo(h, p);
    forall r: nat {:trigger r in taken} | r < 48 && (r + 48 - h) % 48 < (s + 48 - h) % 48 ensures r in taken {
      var q := (r + 48 - h) % 48;
      HomeSlot(home, q);
      StepsBack(h, r);
      assert Slot(home, q) == r;
    }
  }

  /** A project stands on the first lot of its probe sequence that no project listed before it
      holds, whatever is listed after it. */
  lemma FirstFreeLot(before: seq<Project>, id: Project, after: seq<Project>, hash: Project -> nat)
    requires id !in before && id in Assign(before + [id] + after, hash)
    ensures FirstFree(hash(id), Assign(before, hash).Values, Assign(before + [id] + after, hash)[id])
    ensures Nearest(hash(id) % 48, Assign(before, hash).Values, Assign(before + [id] + after, hash)[id])
  {
    var m, upto := Assign(before, hash), before + [id];
    Placement(before, hash);
    assert id !in m by { assert id !in Listed(before); }
    PlaceIff(m, id, hash(id));
    assert upto[..|upto| - 1] == before;
    AppendKeeps(upto, after, hash);
    if id !in Assign(upto, hash) { FullStaysFull(upto, after, hash); }
    FirstIsNearest(hash(id), m.Values, Assign(before + [id] + after, hash)[id]);
  }
}
