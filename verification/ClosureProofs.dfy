/** What every run of the closure protocol keeps. */
module ClosureProofs {
  import opened Options
  import opened Closure

  // ----- the invariant, transaction by transaction -----

  lemma LateCloseKeeps(w: World, id: Id, closer: ClosedBy, at: int)
    requires Inv(w) && id in w.closures
    ensures Inv(LateClose(w, id, closer, at))
  {
    var v := LateClose(w, id, closer, at);
    forall x {:trigger RowOk(v, x)} | x in v.rows ensures RowOk(v, x) { assert RowOk(w, x); }
    forall a, b {:trigger Apart(v, a, b)} ensures Apart(v, a, b) { assert Apart(w, a, b); }
  }

  lemma FirstCloseKeeps(
    w: World, id: Id, closer: ClosedBy, outcome: Outcome, reason: Reason, tools: Option<nat>, at: int)
    requires Inv(w) && Open(w, id) && w.rows[id].kind.Subagent? && !outcome.Abandoned?
    ensures Inv(FirstClose(w, id, closer, outcome, reason, tools, at))
  {
    var v := FirstClose(w, id, closer, outcome, reason, tools, at);
    assert RowOk(w, id);
    forall x {:trigger RowOk(v, x)} | x in v.rows ensures RowOk(v, x) {
      assert RowOk(w, x) && Apart(w, x, id);
    }
    forall a, b {:trigger Apart(v, a, b)} ensures Apart(v, a, b) { assert Apart(w, a, b); }
  }

  /** A subagent row without a closure is open. */
  lemma CloseKeeps(w: World, id: Id, closer: ClosedBy, outcome: Outcome, reason: Reason, tools: Option<nat>, at: int)
    requires Inv(w) && id in w.rows && w.rows[id].kind.Subagent? && !outcome.Abandoned?
    ensures Inv(Close(w, id, closer, outcome, reason, tools, at))
  {
    if id in w.closures {
      LateCloseKeeps(w, id, closer, at);
    } else {
      assert RowOk(w, id);
      FirstCloseKeeps(w, id, closer, outcome, reason, tools, at);
    }
  }

  /** Ending a session whose subagents are all closed. */
  lemma FinishKeeps(w: World, id: Id, outcome: Outcome, at: int)
    requires Inv(w) && Open(w, id) && w.rows[id].kind.Session?
    requires forall s {:trigger OpenSub(w, id, s)} :: !OpenSub(w, id, s)
    ensures Inv(Finish(w, id, outcome, at))
  {
    var v := Finish(w, id, outcome, at);
    assert RowOk(w, id);
    forall x {:trigger RowOk(v, x)} | x in v.rows ensures RowOk(v, x) {
      assert RowOk(w, x) && Apart(w, x, id) && !OpenSub(w, id, x);
    }
    forall a, b {:trigger Apart(v, a, b)} ensures Apart(v, a, b) { assert Apart(w, a, b); }
  }

  lemma NewSessionKeeps(w: World, e: Event)
    requires Inv(w) && e.RegisterSession? && !Registered(w, e.tenant, e.ref)
    requires e.id !in w.rows && e.task !in w.tasks && e.mission !in w.missions
    ensures Inv(NewSession(w, e))
  {
    var v := NewSession(w, e);
    forall x {:trigger RowOk(v, x)} | x in v.rows ensures RowOk(v, x) {
      if x != e.id { assert RowOk(w, x); }
    }
    forall a, b {:trigger Apart(v, a, b)} ensures Apart(v, a, b) {
      assert Apart(w, a, b);
      if a in w.rows { assert RowOk(w, a) && !IsSession(w, e.tenant, e.ref, a); }
      if b in w.rows { assert RowOk(w, b) && !IsSession(w, e.tenant, e.ref, b); }
    }
  }

  lemma NewSubagentKeeps(w: World, e: Event, p: Id)
    requires Inv(w) && e.RegisterSubagent? && !Spawned(w, e.tenant, e.instance)
    requires IsSession(w, e.tenant, e.ref, p) && e.id !in w.rows && e.task !in w.tasks
    ensures Inv(NewSubagent(w, e, p))
  {
    var v := NewSubagent(w, e, p);
    assert RowOk(w, p);
    forall x {:trigger RowOk(v, x)} | x in v.rows ensures RowOk(v, x) {
      if x != e.id { assert RowOk(w, x); }
    }
    forall a, b {:trigger Apart(v, a, b)} ensures Apart(v, a, b) {
      assert Apart(w, a, b);
      if a in w.rows { assert RowOk(w, a) && !IsSubagent(w, e.tenant, e.instance, a); }
      if b in w.rows { assert RowOk(w, b) && !IsSubagent(w, e.tenant, e.instance, b); }
    }
  }

  /** The insert of a subagent leaves nothing open under an ended session exactly when its session
      is still open at that moment; the code looks at the session earlier in the request and takes
      no lock on it. */
  lemma InsertNeedsOpenSession(w: World, e: Event, p: Id)
    requires Inv(w) && Tidy(w) && e.RegisterSubagent?
    requires IsSession(w, e.tenant, e.ref, p) && e.id !in w.rows
    ensures Tidy(NewSubagent(w, e, p)) <==> Open(w, p)
  {
    var v := NewSubagent(w, e, p);
    if Open(w, p) {
      forall x {:trigger TidyRow(v, x)} ensures TidyRow(v, x) {
        assert TidyRow(w, x);
        if x in w.rows { assert RowOk(w, x); }
      }
    } else {
      assert !TidyRow(v, e.id);
    }
  }

  lemma HeartbeatKeeps(w: World, id: Id, at: int)
    requires Inv(w) && id in w.rows
    ensures Inv(w.(rows := w.rows[id := w.rows[id].(heartbeat := Some(at))]))
  {
    var v := w.(rows := w.rows[id := w.rows[id].(heartbeat := Some(at))]);
    forall x {:trigger RowOk(v, x)} | x in v.rows ensures RowOk(v, x) { assert RowOk(w, x); }
    forall a, b {:trigger Apart(v, a, b)} ensures Apart(v, a, b) { assert Apart(w, a, b); }
  }

  // ----- closing and ending several rows -----

  function FailedBy(r: Row, closer: ClosedBy, reason: Reason, at: int): Closed {
    Closed(r.tenant, r.task, closer, Outcome.Failed, reason, None, at, None)
  }

  /** Row `x`, its closure and its task are untouched. */
  ghost predicate Same(w: World, v: World, x: Id) {
    && x in w.rows && x in v.rows && v.rows[x] == w.rows[x]
    && (x in v.closures <==> x in w.closures) && (x in w.closures ==> v.closures[x] == w.closures[x])
    && (w.rows[x].task in w.tasks ==> w.rows[x].task in v.tasks && v.tasks[w.rows[x].task] == w.tasks[w.rows[x].task])
  }

  /** The rows in `ids` are failed with a new closure, the others untouched. */
  ghost predicate Failing(w: World, v: World, ids: seq<Id>, closer: ClosedBy, reason: Reason, at: int, x: Id) {
    if x in ids
    then && x in w.rows && x in v.rows && v.rows[x] == Stamped(w.rows[x], at, Outcome.Failed)
         && x in v.closures && v.closures[x] == FailedBy(w.rows[x], closer, reason, at)
    else x in w.rows ==> Same(w, v, x)
  }

  ghost predicate OpenSubagents(w: World, ids: seq<Id>) {
    Distinct(ids) && forall i :: 0 <= i < |ids| ==> Open(w, ids[i]) && w.rows[ids[i]].kind.Subagent?
  }

  lemma FailOne(w: World, u: World, ids: seq<Id>, y: Id, closer: ClosedBy, reason: Reason, at: int, x: Id)
    requires Inv(u) && Open(w, y) && Open(u, y) && y !in ids && u.rows[y] == w.rows[y] && w.rows[y].kind.Subagent?
    requires Failing(w, u, ids, closer, reason, at, x)
    ensures Failing(w, FirstClose(u, y, closer, Outcome.Failed, reason, None, at), ids + [y], closer, reason, at, x)
  {
    assert RowOk(u, y) && Apart(u, x, y);
    assert x in ids + [y] <==> x in ids || x == y;
    if x in u.rows { assert RowOk(u, x); }
  }

  lemma {:induction false} CloseAllKeeps(w: World, ids: seq<Id>, closer: ClosedBy, reason: Reason, at: int)
    requires Inv(w) && OpenSubagents(w, ids)
    ensures Inv(CloseAll(w, ids, closer, reason, at)) && CloseAll(w, ids, closer, reason, at).missions == w.missions
    ensures forall x {:trigger Failing(w, CloseAll(w, ids, closer, reason, at), ids, closer, reason, at, x)} ::
              Failing(w, CloseAll(w, ids, closer, reason, at), ids, closer, reason, at, x)
  {
    if ids != [] {
      var rest, y := ids[..|ids| - 1], ids[|ids| - 1];
      var u := CloseAll(w, rest, closer, reason, at);
      CloseAllKeeps(w, rest, closer, reason, at);
      assert Failing(w, u, rest, closer, reason, at, y) && RowOk(u, y);
      FirstCloseKeeps(u, y, closer, Outcome.Failed, reason, None, at);
      var v := CloseAll(w, ids, closer, reason, at);
      assert v == FirstClose(u, y, closer, Outcome.Failed, reason, None, at);
      assert rest + [y] == ids;
      forall x {:trigger Failing(w, v, ids, closer, reason, at, x)} ensures Failing(w, v, ids, closer, reason, at, x) {
        assert Failing(w, u, rest, closer, reason, at, x);
        FailOne(w, u, rest, y, closer, reason, at, x);
      }
    }
  }

  /** The sessions in `ids` are ended, nothing else about rows and closures changes. */
  ghost predicate Ending(w: World, v: World, ids: seq<Id>, at: int, x: Id) {
    if x in ids then x in w.rows && x in v.rows && v.rows[x] == Stamped(w.rows[x], at, Abandoned)
    else x in w.rows ==> Same(w, v, x)
  }

  ghost predicate Idle(w: World, id: Id) {
    Open(w, id) && w.rows[id].kind.Session? && forall s {:trigger OpenSub(w, id, s)} :: !OpenSub(w, id, s)
  }

  ghost predicate IdleSessions(w: World, ids: seq<Id>) {
    Distinct(ids) && forall i :: 0 <= i < |ids| ==> Idle(w, ids[i])
  }

  lemma EndOne(w: World, u: World, ids: seq<Id>, y: Id, at: int, x: Id)
    requires Inv(u) && Open(u, y) && y !in ids && y in w.rows && u.rows[y] == w.rows[y] && w.rows[y].kind.Session?
    requires Ending(w, u, ids, at, x)
    ensures Ending(w, Finish(u, y, Abandoned, at), ids + [y], at, x)
  {
    assert RowOk(u, y) && Apart(u, x, y);
    assert x in ids + [y] <==> x in ids || x == y;
    if x in u.rows { assert RowOk(u, x); }
  }

  lemma StillIdle(w: World, u: World, ids: seq<Id>, at: int, y: Id)
    requires Idle(w, y) && y !in ids && u.rows.Keys == w.rows.Keys
    requires forall x {:trigger Ending(w, u, ids, at, x)} :: Ending(w, u, ids, at, x)
    ensures Idle(u, y)
  {
    assert Ending(w, u, ids, at, y);
    forall s {:trigger OpenSub(u, y, s)} ensures !OpenSub(u, y, s) {
      assert Ending(w, u, ids, at, s) && !OpenSub(w, y, s);
    }
  }

  lemma {:induction false} EndAllKeeps(w: World, ids: seq<Id>, at: int)
    requires Inv(w) && IdleSessions(w, ids)
    ensures Inv(EndAll(w, ids, at)) && EndAll(w, ids, at).closures == w.closures
    ensures forall x {:trigger Ending(w, EndAll(w, ids, at), ids, at, x)} :: Ending(w, EndAll(w, ids, at), ids, at, x)
  {
    if ids != [] {
      var rest, y := ids[..|ids| - 1], ids[|ids| - 1];
      var u := EndAll(w, rest, at);
      EndAllKeeps(w, rest, at);
      StillIdle(w, u, rest, at, y);
      FinishKeeps(u, y, Abandoned, at);
      var v := EndAll(w, ids, at);
      assert rest + [y] == ids;
      forall x {:trigger Ending(w, v, ids, at, x)} ensures Ending(w, v, ids, at, x) {
        assert Ending(w, u, rest, at, x) && Ending(w, u, rest, at, y);
        EndOne(w, u, rest, y, at, x);
      }
    }
  }

  lemma ListedAreOpen(w: World, id: Id, subs: seq<Id>)
    requires Inv(w) && id in w.rows && w.rows[id].kind.Session? && ListsOpenSubs(w, id, subs)
    ensures OpenSubagents(w, subs) && id !in subs
  {
    forall i | 0 <= i < |subs| ensures Open(w, subs[i]) && w.rows[subs[i]].kind.Subagent? {
      assert subs[i] in subs && OpenSub(w, id, subs[i]) && RowOk(w, subs[i]);
    }
    assert RowOk(w, id);
    assert !OpenSub(w, id, id);
  }

  /** Once its open subagents are closed, a session is idle. */
  lemma LeftIdle(w: World, id: Id, subs: seq<Id>, at: int)
    requires Inv(w) && Open(w, id) && w.rows[id].kind.Session?
    requires ListsOpenSubs(w, id, subs) && OpenSubagents(w, subs) && id !in subs
    ensures Idle(CloseAll(w, subs, SessionEnd, SessionEnded, at), id)
    ensures CloseAll(w, subs, SessionEnd, SessionEnded, at).rows[id] == w.rows[id]
  {
    var u := CloseAll(w, subs, SessionEnd, SessionEnded, at);
    CloseAllKeeps(w, subs, SessionEnd, SessionEnded, at);
    assert Failing(w, u, subs, SessionEnd, SessionEnded, at, id);
    forall s {:trigger OpenSub(u, id, s)} ensures !OpenSub(u, id, s) {
      assert Failing(w, u, subs, SessionEnd, SessionEnded, at, s);
      assert OpenSub(w, id, s) <==> s in subs;
    }
  }

  lemma EndKeeps(w: World, id: Id, outcome: Outcome, subs: seq<Id>, at: int)
    requires Inv(w) && Open(w, id) && w.rows[id].kind.Session? && ListsOpenSubs(w, id, subs)
    ensures OpenSubagents(w, subs) && id !in subs && Inv(End(w, id, outcome, subs, at))
  {
    ListedAreOpen(w, id, subs);
    CloseAllKeeps(w, subs, SessionEnd, SessionEnded, at);
    LeftIdle(w, id, subs, at);
    FinishKeeps(CloseAll(w, subs, SessionEnd, SessionEnded, at), id, outcome, at);
  }

  lemma SweepKeeps(w: World, e: Event)
    requires e.Reap? && Inv(w)
    requires PicksSubs(w, e.durable, e.cutoff, e.batch, e.subs)
    requires PicksSessions(CloseAll(w, e.subs, Reaper, ReapedStale, e.at), e.durable, e.cutoff, e.batch, e.sess)
    ensures OpenSubagents(w, e.subs) && IdleSessions(CloseAll(w, e.subs, Reaper, ReapedStale, e.at), e.sess)
    ensures Inv(CloseAll(w, e.subs, Reaper, ReapedStale, e.at)) && Inv(Sweep(w, e.subs, e.sess, e.at))
  {
    CloseAllKeeps(w, e.subs, Reaper, ReapedStale, e.at);
    EndAllKeeps(CloseAll(w, e.subs, Reaper, ReapedStale, e.at), e.sess, e.at);
  }

  lemma StepKeeps(w: World, e: Event, v: World)
    requires Inv(w) && Step(w, e, v)
    ensures Inv(v)
  {
    match e {
      case RegisterSession(_, _, _, _, _, _, _) =>
        if v != w { NewSessionKeeps(w, e); }
      case RegisterSubagent(_, _, _, _, _, _, _, _) =>
        if v != w {
          var p :| IsSession(w, e.tenant, e.ref, p) && (e.late || Open(w, p)) && v == NewSubagent(w, e, p);
          NewSubagentKeeps(w, e, p);
        }
      case Heartbeat(_, id, at) =>
        if id in w.rows { HeartbeatKeeps(w, id, at); }
      case EndSession(_, id, outcome, subs, at) =>
        if v != w { EndKeeps(w, id, outcome, subs, at); }
      case HookClose(_, id, outcome, reason, tools, at) =>
        if v != w { CloseKeeps(w, id, Hook, outcome, reason, tools, at); }
      case Reap(_, _, _, _, _, _) =>
        SweepKeeps(w, e);
    }
  }

  // ----- what never changes again -----

  /** A row keeps its identity, and its end once it has one. */
  ghost predicate RowFrozen(w: World, v: World, x: Id) {
    x in w.rows ==>
      && x in v.rows
      && v.rows[x].(heartbeat := w.rows[x].heartbeat, ended := w.rows[x].ended, outcome := w.rows[x].outcome)
         == w.rows[x]
      && (w.rows[x].ended.Some? ==> v.rows[x].ended == w.rows[x].ended && v.rows[x].outcome == w.rows[x].outcome)
  }

  /** A closure keeps all it says; its late mark may be added, once. */
  ghost predicate ClosureFrozen(w: World, v: World, x: Id) {
    x in w.closures ==>
      && x in v.closures && v.closures[x].(late := w.closures[x].late) == w.closures[x]
      && (w.closures[x].late.Some? ==> v.closures[x].late == w.closures[x].late)
  }

  ghost predicate Frozen(w: World, v: World) {
    forall x {:trigger RowFrozen(w, v, x)} {:trigger ClosureFrozen(w, v, x)} ::
      RowFrozen(w, v, x) && ClosureFrozen(w, v, x)
  }

  /** Only a hook adds a late mark, and only to a reaper's closure. */
  ghost predicate MarkedByHook(w: World, e: Event, v: World, x: Id) {
    x in w.closures && x in v.closures && v.closures[x].late != w.closures[x].late ==>
      e.HookClose? && e.id == x && w.closures[x].closer.Reaper? && w.closures[x].late.None?
        && v.closures[x].late == Some(e.at)
  }

  lemma FrozenTrans(a: World, b: World, c: World)
    requires Frozen(a, b) && Frozen(b, c)
    ensures Frozen(a, c)
  {
    forall x {:trigger RowFrozen(a, c, x)} {:trigger ClosureFrozen(a, c, x)}
      ensures RowFrozen(a, c, x) && ClosureFrozen(a, c, x)
    {
      assert RowFrozen(a, b, x) && RowFrozen(b, c, x) && ClosureFrozen(a, b, x) && ClosureFrozen(b, c, x);
    }
  }

  ghost predicate SameClosure(w: World, v: World, x: Id) {
    x in w.closures ==> x in v.closures && v.closures[x] == w.closures[x]
  }

  lemma CloseAllFreezes(w: World, ids: seq<Id>, closer: ClosedBy, reason: Reason, at: int)
    requires Inv(w) && OpenSubagents(w, ids)
    ensures Frozen(w, CloseAll(w, ids, closer, reason, at))
    ensures forall x {:trigger SameClosure(w, CloseAll(w, ids, closer, reason, at), x)} ::
            SameClosure(w, CloseAll(w, ids, closer, reason, at), x)
  {
    var v := CloseAll(w, ids, closer, reason, at);
    CloseAllKeeps(w, ids, closer, reason, at);
    forall x {:trigger RowFrozen(w, v, x)} {:trigger ClosureFrozen(w, v, x)} {:trigger SameClosure(w, v, x)}
      ensures RowFrozen(w, v, x) && ClosureFrozen(w, v, x) && SameClosure(w, v, x)
    {
      assert Failing(w, v, ids, closer, reason, at, x);
      if x in w.rows { assert RowOk(w, x); }
    }
  }

  lemma EndAllFreezes(w: World, ids: seq<Id>, at: int)
    requires Inv(w) && IdleSessions(w, ids)
    ensures Frozen(w, EndAll(w, ids, at))
  {
    var v := EndAll(w, ids, at);
    EndAllKeeps(w, ids, at);
    forall x {:trigger RowFrozen(w, v, x)} {:trigger ClosureFrozen(w, v, x)}
      ensures RowFrozen(w, v, x) && ClosureFrozen(w, v, x)
    {
      assert Ending(w, v, ids, at, x);
    }
  }

  lemma FinishFreezes(w: World, id: Id, outcome: Outcome, at: int)
    requires Open(w, id)
    ensures Frozen(w, Finish(w, id, outcome, at))
  {
    var v := Finish(w, id, outcome, at);
    forall x {:trigger RowFrozen(w, v, x)} {:trigger ClosureFrozen(w, v, x)}
      ensures RowFrozen(w, v, x) && ClosureFrozen(w, v, x)
    {
    }
  }

  lemma SmallStepFreezes(w: World, e: Event, v: World)
    requires Inv(w) && Step(w, e, v) && !e.EndSession? && !e.Reap?
    ensures Frozen(w, v)
    ensures forall x {:trigger MarkedByHook(w, e, v, x)} :: MarkedByHook(w, e, v, x)
  {
    if e.HookClose? && e.id in w.rows { assert RowOk(w, e.id); }
    forall x {:trigger RowFrozen(w, v, x)} {:trigger ClosureFrozen(w, v, x)}
      ensures RowFrozen(w, v, x) && ClosureFrozen(w, v, x)
    {
    }
  }

  lemma StepFreezes(w: World, e: Event, v: World)
    requires Inv(w) && Step(w, e, v)
    ensures Frozen(w, v)
    ensures forall x {:trigger MarkedByHook(w, e, v, x)} :: MarkedByHook(w, e, v, x)
  {
    if e.Reap? {
      SweepKeeps(w, e);
      var u := CloseAll(w, e.subs, Reaper, ReapedStale, e.at);
      CloseAllFreezes(w, e.subs, Reaper, ReapedStale, e.at);
      EndAllKeeps(u, e.sess, e.at);
      EndAllFreezes(u, e.sess, e.at);
      FrozenTrans(w, u, v);
      forall x {:trigger MarkedByHook(w, e, v, x)} ensures MarkedByHook(w, e, v, x) { assert SameClosure(w, u, x); }
    } else if e.EndSession? {
      if v != w {
        EndKeeps(w, e.id, e.outcome, e.subs, e.at);
        var u := CloseAll(w, e.subs, SessionEnd, SessionEnded, e.at);
        CloseAllFreezes(w, e.subs, SessionEnd, SessionEnded, e.at);
        LeftIdle(w, e.id, e.subs, e.at);
        FinishFreezes(u, e.id, e.outcome, e.at);
        FrozenTrans(w, u, v);
        forall x {:trigger MarkedByHook(w, e, v, x)} ensures MarkedByHook(w, e, v, x) { assert SameClosure(w, u, x); }
      } else {
        forall x {:trigger RowFrozen(w, v, x)} {:trigger ClosureFrozen(w, v, x)}
          ensures RowFrozen(w, v, x) && ClosureFrozen(w, v, x)
        {
        }
      }
    } else {
      SmallStepFreezes(w, e, v);
    }
  }

  // ----- whole runs -----

  lemma {:induction false} RunKeeps(ws: seq<World>, es: seq<Event>, k: nat)
    requires IsRun(ws, es) && ws[0] == EMPTY && k < |ws|
    ensures Inv(ws[k])
  {
    if k > 0 {
      RunKeeps(ws, es, k - 1);
      assert StepAt(ws, es, k - 1);
      StepKeeps(ws[k - 1], es[k - 1], ws[k]);
    }
  }

  lemma {:induction false} RunFreezes(ws: seq<World>, es: seq<Event>, i: nat, j: nat)
    requires IsRun(ws, es) && ws[0] == EMPTY && i <= j < |ws|
    ensures Frozen(ws[i], ws[j])
    decreases j
  {
    if i < j {
      RunFreezes(ws, es, i, j - 1);
      RunKeeps(ws, es, j - 1);
      assert StepAt(ws, es, j - 1);
      StepFreezes(ws[j - 1], es[j - 1], ws[j]);
      FrozenTrans(ws[i], ws[j - 1], ws[j]);
    } else {
      forall x {:trigger RowFrozen(ws[i], ws[j], x)} {:trigger ClosureFrozen(ws[i], ws[j], x)}
        ensures RowFrozen(ws[i], ws[j], x) && ClosureFrozen(ws[i], ws[j], x) {}
    }
  }

  /** A reported success completes the task, a reported failure fails it; nothing else is reported. */
  predicate Settled(outcome: Outcome, task: TaskStatus) {
    || (outcome == Outcome.Completed && task == TaskStatus.Completed)
    || (outcome == Outcome.Failed && task == TaskStatus.Failed)
  }

  /** In every reachable world, overtaken registrations included, a subagent is ended exactly when it
      has its one closure, and then the row says what the closure says and the task is completed or
      failed as the closure's outcome is; a session never has a closure. */
  lemma ClosedIffEnded(ws: seq<World>, es: seq<Event>, k: nat, x: Id)
    requires IsRun(ws, es) && ws[0] == EMPTY && k < |ws| && x in ws[k].rows
    ensures x in ws[k].closures <==> ws[k].rows[x].kind.Subagent? && ws[k].rows[x].ended.Some?
    ensures ws[k].rows[x].task in ws[k].tasks
    ensures x in ws[k].closures ==>
              && ws[k].rows[x].outcome == Some(ws[k].closures[x].outcome)
              && ws[k].rows[x].ended == Some(ws[k].closures[x].at)
              && Settled(ws[k].closures[x].outcome, ws[k].tasks[ws[k].rows[x].task])
  {
    RunKeeps(ws, es, k);
    assert RowOk(ws[k], x);
  }

  /** The first close decides for good: closer, outcome and reason never change, and the task
      keeps the status that outcome gave it, whoever closes, ends or reaps afterwards. */
  lemma FirstCloserWins(ws: seq<World>, es: seq<Event>, i: nat, j: nat, x: Id)
    requires IsRun(ws, es) && ws[0] == EMPTY && i <= j < |ws| && x in ws[i].closures
    ensures x in ws[j].closures && ws[j].closures[x].(late := ws[i].closures[x].late) == ws[i].closures[x]
    ensures ws[j].closures[x].task in ws[j].tasks
    ensures Settled(ws[i].closures[x].outcome, ws[j].tasks[ws[j].closures[x].task])
    ensures x in ws[i].rows && x in ws[j].rows && ws[j].rows[x].ended == ws[i].rows[x].ended
    ensures ws[j].rows[x].outcome == ws[i].rows[x].outcome
  {
    RunKeeps(ws, es, i);
    RunKeeps(ws, es, j);
    RunFreezes(ws, es, i, j);
    assert RowOk(ws[i], x) && RowFrozen(ws[i], ws[j], x) && ClosureFrozen(ws[i], ws[j], x);
    assert RowOk(ws[j], x);
  }

  /** A late mark is set by a hook close on a reaper's closure, and stays as it is. */
  lemma MarkedOnce(ws: seq<World>, es: seq<Event>, i: nat, j: nat, x: Id)
    requires IsRun(ws, es) && ws[0] == EMPTY && i < j < |ws| && x in ws[i].closures
    requires x in ws[i + 1].closures ==> ws[i + 1].closures[x].late != ws[i].closures[x].late
    ensures es[i].HookClose? && es[i].id == x && ws[i].closures[x].closer.Reaper? && ws[i].closures[x].late.None?
    ensures x in ws[j].closures && ws[j].closures[x].late == Some(es[i].at)
  {
    RunKeeps(ws, es, i);
    assert StepAt(ws, es, i);
    StepFreezes(ws[i], es[i], ws[i + 1]);
    assert ClosureFrozen(ws[i], ws[i + 1], x) && MarkedByHook(ws[i], es[i], ws[i + 1], x);
    RunFreezes(ws, es, i + 1, j);
    assert ClosureFrozen(ws[i + 1], ws[j], x);
  }

  // ----- nothing open under an ended session -----

  lemma TidyEnd(w: World, id: Id, outcome: Outcome, subs: seq<Id>, at: int)
    requires Inv(w) && Tidy(w) && Open(w, id) && w.rows[id].kind.Session? && ListsOpenSubs(w, id, subs)
    ensures OpenSubagents(w, subs) && Tidy(End(w, id, outcome, subs, at))
  {
    ListedAreOpen(w, id, subs);
    CloseAllKeeps(w, subs, SessionEnd, SessionEnded, at);
    var u := CloseAll(w, subs, SessionEnd, SessionEnded, at);
    LeftIdle(w, id, subs, at);
    var v := Finish(u, id, outcome, at);
    forall x {:trigger TidyRow(v, x)} ensures TidyRow(v, x) {
      assert TidyRow(w, x) && !OpenSub(u, id, x);
      assert Failing(w, u, subs, SessionEnd, SessionEnded, at, x);
      if x in w.rows {
        assert RowOk(w, x);
        if w.rows[x].parent.Some? { SessionStays(w, u, subs, at, w.rows[x].parent.value); }
      }
    }
  }

  lemma SessionStays(w: World, u: World, subs: seq<Id>, at: int, p: Id)
    requires p in w.rows && w.rows[p].kind.Session? && OpenSubagents(w, subs)
    requires Failing(w, u, subs, SessionEnd, SessionEnded, at, p)
    ensures p in u.rows && u.rows[p] == w.rows[p]
  {
  }

  lemma TidySweptRow(w: World, e: Event, u: World, v: World, x: Id)
    requires e.Reap? && Inv(w) && TidyRow(w, x) && x in w.rows && w.rows[x].parent.Some?
    requires OpenSubagents(w, e.subs) && IdleSessions(u, e.sess)
    requires forall y {:trigger Failing(w, u, e.subs, Reaper, ReapedStale, e.at, y)} ::
             Failing(w, u, e.subs, Reaper, ReapedStale, e.at, y)
    requires forall y {:trigger Ending(u, v, e.sess, e.at, y)} :: Ending(u, v, e.sess, e.at, y)
    ensures TidyRow(v, x)
  {
    assert RowOk(w, x);
    var p := w.rows[x].parent.value;
    assert p !in e.subs by { assert w.rows[p].kind.Session?; }
    assert Failing(w, u, e.subs, Reaper, ReapedStale, e.at, x) && Failing(w, u, e.subs, Reaper, ReapedStale, e.at, p);
    assert Ending(u, v, e.sess, e.at, x) && Ending(u, v, e.sess, e.at, p);
    if p in e.sess {
      assert Idle(u, p);
      assert !OpenSub(u, p, x);
    }
  }

  lemma TidySweep(w: World, e: Event)
    requires e.Reap? && Inv(w) && Tidy(w)
    requires PicksSubs(w, e.durable, e.cutoff, e.batch, e.subs)
    requires PicksSessions(CloseAll(w, e.subs, Reaper, ReapedStale, e.at), e.durable, e.cutoff, e.batch, e.sess)
    ensures Tidy(Sweep(w, e.subs, e.sess, e.at))
  {
    SweepKeeps(w, e);
    var u := CloseAll(w, e.subs, Reaper, ReapedStale, e.at);
    CloseAllKeeps(w, e.subs, Reaper, ReapedStale, e.at);
    EndAllKeeps(u, e.sess, e.at);
    var v := Sweep(w, e.subs, e.sess, e.at);
    forall x {:trigger TidyRow(v, x)} ensures TidyRow(v, x) {
      if x in w.rows {
        assert Failing(w, u, e.subs, Reaper, ReapedStale, e.at, x) && Ending(u, v, e.sess, e.at, x) && TidyRow(w, x);
        if w.rows[x].parent.Some? { TidySweptRow(w, e, u, v, x); }
      }
    }
  }

  lemma TidySmall(w: World, e: Event, v: World)
    requires Inv(w) && Tidy(w) && Step(w, e, v) && (e.RegisterSession? || e.Heartbeat? || e.HookClose?)
    ensures Tidy(v)
  {
    forall x {:trigger TidyRow(v, x)} ensures TidyRow(v, x) {
      assert TidyRow(w, x);
      if x in w.rows { assert RowOk(w, x); }
    }
  }

  lemma TidyStep(w: World, e: Event, v: World)
    requires Inv(w) && Tidy(w) && Step(w, e, v) && (e.RegisterSubagent? ==> !e.late)
    ensures Tidy(v)
  {
    if v != w {
      match e {
        case RegisterSubagent(_, _, _, _, _, _, _, _) =>
          var p :| IsSession(w, e.tenant, e.ref, p) && Open(w, p) && v == NewSubagent(w, e, p);
          InsertNeedsOpenSession(w, e, p);
        case EndSession(_, id, outcome, subs, at) => TidyEnd(w, id, outcome, subs, at);
        case Reap(_, _, _, _, _, _) => TidySweep(w, e);
        case _ => TidySmall(w, e, v);
      }
    }
  }

  lemma {:induction false} RunTidy(ws: seq<World>, es: seq<Event>, k: nat)
    requires IsRun(ws, es) && ws[0] == EMPTY && k < |ws| && Prompt(es)
    ensures Tidy(ws[k])
  {
    if k > 0 {
      RunTidy(ws, es, k - 1);
      RunKeeps(ws, es, k - 1);
      assert StepAt(ws, es, k - 1);
      TidyStep(ws[k - 1], es[k - 1], ws[k]);
    }
  }

  /** An ended session stays ended as it was, its task is completed and its mission is not running;
      and unless a registration was overtaken, every subagent it has or ever gets is ended with a
      closure. */
  lemma EndedSessionIsOver(ws: seq<World>, es: seq<Event>, i: nat, j: nat, s: Id)
    requires IsRun(ws, es) && ws[0] == EMPTY && i <= j < |ws|
    requires s in ws[i].rows && ws[i].rows[s].kind.Session? && ws[i].rows[s].ended.Some?
    ensures s in ws[j].rows && ws[j].rows[s].ended == ws[i].rows[s].ended
    ensures ws[j].rows[s].outcome == ws[i].rows[s].outcome
    ensures ws[j].rows[s].task in ws[j].tasks && ws[j].tasks[ws[j].rows[s].task] == TaskStatus.Completed
    ensures ws[j].rows[s].mission in ws[j].missions
    ensures ws[j].missions[ws[j].rows[s].mission].status == MissionStatus.Completed
    ensures Prompt(es) ==>
              forall x :: x in ws[j].rows && ws[j].rows[x].parent == Some(s) ==>
                ws[j].rows[x].ended.Some? && x in ws[j].closures
  {
    RunKeeps(ws, es, j);
    RunFreezes(ws, es, i, j);
    assert RowFrozen(ws[i], ws[j], s) && RowOk(ws[j], s);
    if Prompt(es) {
      RunTidy(ws, es, j);
      forall x | x in ws[j].rows && ws[j].rows[x].parent == Some(s)
        ensures ws[j].rows[x].ended.Some? && x in ws[j].closures
      {
        assert RowOk(ws[j], x) && TidyRow(ws[j], x);
      }
    }
  }

  /** An overtaken registration does leave a stray: register, end, insert. */
  lemma StrayRun(ref: Ref, instance: Ref) returns (ws: seq<World>, es: seq<Event>)
    ensures IsRun(ws, es) && ws[0] == EMPTY && |ws| == 4
    ensures Open(ws[3], 1) && ws[3].rows[1].parent == Some(0) && 0 in ws[3].rows && ws[3].rows[0].ended.Some?
  {
    var e1 := Event.RegisterSession(0, ref, true, 0, 0, 0, 0);
    var w1 := NewSession(EMPTY, e1);
    var e2 := Event.EndSession(0, 0, Outcome.Completed, [], 0);
    var w2 := End(w1, 0, Outcome.Completed, [], 0);
    var e3 := Event.RegisterSubagent(0, ref, instance, true, 1, 1, 0, true);
    var w3 := NewSubagent(w2, e3, 0);
    ws, es := [EMPTY, w1, w2, w3], [e1, e2, e3];
    assert Step(EMPTY, e1, w1) && Step(w1, e2, w2);
    assert IsSession(w2, 0, ref, 0);
    assert Step(w2, e3, w3);
    forall k {:trigger StepAt(ws, es, k)} | 0 <= k < |es| ensures StepAt(ws, es, k) {}
  }

  // ----- single steps -----

  /** Who wrote a new closure, and what it says. */
  ghost predicate WrittenBy(w: World, e: Event, c: Closed, x: Id)
    requires x in w.rows
  {
    match e
    case HookClose(_, id, outcome, reason, tools, at) =>
      id == x && c == Closed(w.rows[x].tenant, w.rows[x].task, Hook, outcome, reason, tools, at, None)
    case EndSession(_, id, _, _, at) =>
      w.rows[x].parent == Some(id) && c == FailedBy(w.rows[x], SessionEnd, SessionEnded, at)
    case Reap(_, _, _, subs, _, at) => x in subs && c == FailedBy(w.rows[x], Reaper, ReapedStale, at)
    case _ => false
  }

  lemma ClosureWritten(w: World, e: Event, v: World, x: Id)
    requires Inv(w) && Step(w, e, v) && x !in w.closures && x in v.closures
    ensures Open(w, x) && w.rows[x].kind.Subagent? && WrittenBy(w, e, v.closures[x], x)
    ensures x in v.rows && v.rows[x] == w.rows[x].(ended := Some(e.at), outcome := Some(v.closures[x].outcome))
  {
    if e.Reap? {
      SweepKeeps(w, e);
      CloseAllKeeps(w, e.subs, Reaper, ReapedStale, e.at);
      var u := CloseAll(w, e.subs, Reaper, ReapedStale, e.at);
      EndAllKeeps(u, e.sess, e.at);
      assert Failing(w, u, e.subs, Reaper, ReapedStale, e.at, x) && Ending(u, v, e.sess, e.at, x);
    } else if e.EndSession? {
      EndKeeps(w, e.id, e.outcome, e.subs, e.at);
      CloseAllKeeps(w, e.subs, SessionEnd, SessionEnded, e.at);
      assert Failing(w, CloseAll(w, e.subs, SessionEnd, SessionEnded, e.at), e.subs, SessionEnd, SessionEnded, e.at, x);
      assert OpenSub(w, e.id, x) <==> x in e.subs;
    } else if e.HookClose? {
      assert RowOk(w, e.id);
    }
    if x in w.rows { assert RowOk(w, x); }
  }

  /** A closure that appears was written by the one step that closed the open row.  The task is
      completed or failed as a hook reports, and failed by a session's end and by the reaper. */
  lemma NewClosure(w: World, e: Event, v: World, x: Id)
    requires Inv(w) && Step(w, e, v) && x !in w.closures && x in v.closures
    ensures Open(w, x) && w.rows[x].kind.Subagent? && WrittenBy(w, e, v.closures[x], x)
    ensures x in v.rows && v.rows[x] == w.rows[x].(ended := Some(e.at), outcome := Some(v.closures[x].outcome))
    ensures w.rows[x].task in v.tasks && Settled(v.closures[x].outcome, v.tasks[w.rows[x].task])
    ensures !e.HookClose? ==> v.tasks[w.rows[x].task] == TaskStatus.Failed
  {
    ClosureWritten(w, e, v, x);
    StepKeeps(w, e, v);
    assert RowOk(v, x);
  }

  /** A row that appears is open, has its start and no heartbeat, and its task is queued.  A session's
      mission is running under its reference; a subagent belongs to the session of its reference. */
  lemma NewRow(w: World, e: Event, v: World, x: Id)
    requires Inv(w) && Step(w, e, v) && x !in w.rows && x in v.rows
    ensures (e.RegisterSession? || e.RegisterSubagent?) && e.id == x
    ensures var r := v.rows[x];
            && r.tenant == e.tenant && r.ref == e.ref && r.task == e.task && r.started == e.at
            && r.heartbeat.None? && r.ended.None? && r.outcome.None?
            && r.task in v.tasks && v.tasks[r.task] == TaskStatus.Queued
            && (e.RegisterSession? ==>
                  && r.kind.Session? && r.parent.None? && r.mission in v.missions
                  && v.missions[r.mission] == Mission(e.ref, MissionStatus.Running))
            && (e.RegisterSubagent? ==>
                  && r.kind.Subagent? && r.instance == Some(e.instance) && r.parent.Some?
                  && r.parent.value in w.rows && var p := w.rows[r.parent.value];
                     && p.tenant == e.tenant && p.kind.Session? && p.ref == e.ref && p.mission == r.mission
                     && (!e.late ==> p.ended.None?))
  {
    if e.Reap? { SweepKeeps(w, e); }
    if e.EndSession? && v != w { EndKeeps(w, e.id, e.outcome, e.subs, e.at); }
  }

  /** A heartbeat is recorded on the row it names, if it is the tenant's, and changes nothing else. */
  lemma HeartbeatRecorded(w: World, e: Event, v: World)
    requires Inv(w) && e.Heartbeat? && Step(w, e, v)
    ensures v == w.(rows := v.rows) && v.rows.Keys == w.rows.Keys
    ensures forall x :: x in w.rows ==>
              if x == e.id && w.rows[x].tenant == e.tenant then v.rows[x] == w.rows[x].(heartbeat := Some(e.at))
              else v.rows[x] == w.rows[x]
  {
  }

  /** A session that ends does so by its own end, with the outcome given, or by the reaper, abandoned. */
  lemma SessionEndRecorded(w: World, e: Event, v: World, x: Id)
    requires Inv(w) && Step(w, e, v) && Open(w, x) && w.rows[x].kind.Session? && !Open(v, x)
    ensures x in v.rows && (e.EndSession? || e.Reap?)
    ensures e.EndSession? ==> e.id == x && e.tenant == w.rows[x].tenant
    ensures v.rows[x].ended == Some(e.at) && v.rows[x].outcome == Some(if e.EndSession? then e.outcome else Abandoned)
    ensures v.rows[x] == w.rows[x].(ended := v.rows[x].ended, outcome := v.rows[x].outcome)
  {
    if e.Reap? {
      SweepKeeps(w, e);
      CloseAllKeeps(w, e.subs, Reaper, ReapedStale, e.at);
      var u := CloseAll(w, e.subs, Reaper, ReapedStale, e.at);
      EndAllKeeps(u, e.sess, e.at);
      assert Failing(w, u, e.subs, Reaper, ReapedStale, e.at, x) && Ending(u, v, e.sess, e.at, x);
    } else if e.EndSession? && v != w {
      EndKeeps(w, e.id, e.outcome, e.subs, e.at);
      CloseAllKeeps(w, e.subs, SessionEnd, SessionEnded, e.at);
      var u := CloseAll(w, e.subs, SessionEnd, SessionEnded, e.at);
      assert Failing(w, u, e.subs, SessionEnd, SessionEnded, e.at, x);
      if e.id in w.rows { assert Failing(w, u, e.subs, SessionEnd, SessionEnded, e.at, e.id); }
    }
  }

  /** A hook close changes no mission, and no other row, closure or task. */
  lemma CloseTouchesOneRow(w: World, e: Event, v: World, x: Id)
    requires Inv(w) && e.HookClose? && Step(w, e, v) && x in w.rows && x != e.id
    ensures Same(w, v, x) && v.missions == w.missions
  {
    if e.id in w.rows { assert Apart(w, x, e.id) && RowOk(w, x) && RowOk(w, e.id); }
  }

  /** A second hook close, whatever it reports, changes nothing. */
  lemma HookCloseOnce(w: World, e: Event, v: World, f: Event, u: World)
    requires Inv(w) && e.HookClose? && f.HookClose? && e.id == f.id
    requires e.tenant == f.tenant && Step(w, e, v) && Step(v, f, u)
    ensures u == v
  {
  }

  /** Ending a session again, whatever the outcome, changes nothing. */
  lemma EndOnce(w: World, e: Event, v: World, f: Event, u: World)
    requires Inv(w) && e.EndSession? && f.EndSession? && e.id == f.id
    requires e.tenant == f.tenant && Step(w, e, v) && Step(v, f, u)
    ensures u == v
  {
    if v != w { EndKeeps(w, e.id, e.outcome, e.subs, e.at); }
  }

  /** Row, closure, task and mission of `x` are untouched. */
  ghost predicate LeftAlone(w: World, v: World, x: Id) {
    && Same(w, v, x) && w.rows[x].mission in w.missions && w.rows[x].mission in v.missions
    && v.missions[w.rows[x].mission] == w.missions[w.rows[x].mission]
  }

  lemma FinishLeavesAlone(w: World, id: Id, outcome: Outcome, at: int, x: Id)
    requires Inv(w) && Open(w, id) && w.rows[id].kind.Session? && x in w.rows && w.rows[x].tenant != w.rows[id].tenant
    ensures LeftAlone(w, Finish(w, id, outcome, at), x)
  {
    assert Apart(w, x, id) && RowOk(w, id) && RowOk(w, x);
    if w.rows[x].kind.Subagent? { assert Apart(w, w.rows[x].parent.value, id); }
  }

  lemma EndLeavesAlone(w: World, id: Id, outcome: Outcome, subs: seq<Id>, at: int, x: Id)
    requires Inv(w) && Open(w, id) && w.rows[id].kind.Session? && ListsOpenSubs(w, id, subs)
    requires x in w.rows && w.rows[x].tenant != w.rows[id].tenant
    ensures OpenSubagents(w, subs) && LeftAlone(w, End(w, id, outcome, subs, at), x)
  {
    EndKeeps(w, id, outcome, subs, at);
    var u := CloseAll(w, subs, SessionEnd, SessionEnded, at);
    CloseAllKeeps(w, subs, SessionEnd, SessionEnded, at);
    LeftIdle(w, id, subs, at);
    assert RowOk(w, x) && (OpenSub(w, id, x) <==> x in subs);
    assert Failing(w, u, subs, SessionEnd, SessionEnded, at, x);
    FinishLeavesAlone(u, id, outcome, at, x);
  }

  /** A request by one tenant changes nothing another tenant has. */
  lemma TenantsApart(w: World, e: Event, v: World, x: Id)
    requires Inv(w) && !e.Reap? && Step(w, e, v) && x in w.rows && w.rows[x].tenant != e.tenant
    ensures LeftAlone(w, v, x)
  {
    assert RowOk(w, x);
    if e.EndSession? && v != w {
      EndLeavesAlone(w, e.id, e.outcome, e.subs, e.at, x);
    } else if e.HookClose? && e.id in w.rows && e.id != x {
      CloseTouchesOneRow(w, e, v, x);
    }
  }
}
