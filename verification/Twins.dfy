/**
 The closure protocol's statements: services/api/services/agent_runtime_closure.py and the
 registration, heartbeat, end and close routes of services/api/routes/agent_runtime.py, each
 proved to be a step of `Closure`.
 */
module Twins {
  import opened Options
  import opened Closure
  import opened ClosureProofs
  import R = ReaperProofs

  /** Every status written follows from the one before by a legal transition. */
  ghost predicate LegalTrail(trail: seq<TaskStatus>) {
    forall i :: 0 < i < |trail| ==> Legal(trail[i - 1], trail[i])
  }

  /** A closed row's task, unless it is over already, is completed by a success and failed by anything else. */
  ghost predicate TaskFollows(
    before: map<Id, TaskStatus>, task: Id, outcome: Outcome, after: map<Id, TaskStatus>)
  {
    && after.Keys == before.Keys
    && forall t :: t in before ==>
         if t != task || before[t].Completed? || before[t].Failed? || before[t].Cancelled?
         then after[t] == before[t]
         else after[t] == if outcome == Outcome.Completed then TaskStatus.Completed else TaskStatus.Failed
  }

  /** `ServerError` is an exception no route catches. */
  datatype Reply = Accepted(id: Id) | NotFound | Conflict | ServerError

  class Tables {
    var rows: map<Id, Row>
    var tasks: map<Id, TaskStatus>
    var missions: map<Id, Mission>
    var closures: map<Id, Closed>

    ghost function Now(): World
      reads this
    {
      World(rows, tasks, missions, closures)
    }

    constructor ()
      ensures Now() == EMPTY && Inv(Now())
    {
      rows, tasks, missions, closures := map[], map[], map[], map[];
    }

    /** Never raises, from any status: each write is a legal transition, and the task ends as the
        target unless it was terminal already. */
    method AdvanceTask(task: Id, target: TaskStatus) returns (raised: bool, ghost trail: seq<TaskStatus>)
      requires task in tasks && (target.Completed? || target.Failed?)
      modifies `tasks
      ensures !raised && tasks == Settle(old(tasks), task, target)
      ensures tasks[task] ==
              var before := old(tasks)[task];
              if before.Completed? || before.Failed? || before.Cancelled? then before else target
      ensures trail != [] && trail[0] == old(tasks)[task] && trail[|trail| - 1] == tasks[task] && LegalTrail(trail)
    {
      trail := [tasks[task]];
      if Terminal(tasks[task]) {
        return false, trail;
      }
      if tasks[task] == Queued || (tasks[task] == Waiting && target == TaskStatus.Completed) {
        if !Legal(tasks[task], TaskStatus.Running) {
          return true, trail;
        }
        tasks := tasks[task := TaskStatus.Running];
        trail := trail + [TaskStatus.Running];
      }
      if !Legal(tasks[task], target) {
        return true, trail;
      }
      tasks := tasks[task := target];
      trail := trail + [target];
      raised := false;
    }

    /** Inserts the closure, settles the task and stamps the row. */
    method InsertClosure(id: Id, closer: ClosedBy, outcome: Outcome, reason: Reason, tools: Option<nat>, at: int)
      requires id in rows
      modifies `rows, `tasks, `closures
      ensures Now() == FirstClose(old(Now()), id, closer, outcome, reason, tools, at)
    {
      var row := rows[id];
      var target := if outcome == Outcome.Completed then TaskStatus.Completed else TaskStatus.Failed;
      closures := closures[id := Closed(row.tenant, row.task, closer, outcome, reason, tools, at, None)];
      if row.task in tasks {
        var _, _ := AdvanceTask(row.task, target);
      }
      rows := rows[id := row.(ended := Some(at), outcome := Some(outcome))];
    }

    /** The row's closure, new or not; `None` when the tenant has no such row. */
    method CloseTask(
      tenant: nat, id: Id, closer: ClosedBy, outcome: Outcome, reason: Reason, tools: Option<nat>, at: int)
      returns (closure: Option<Closed>, isNew: bool)
      modifies `rows, `tasks, `closures
      ensures (id !in old(rows) || old(rows)[id].tenant != tenant) ==> closure.None? && !isNew && Now() == old(Now())
      ensures id in old(rows) && old(rows)[id].tenant == tenant ==>
                && Now() == Close(old(Now()), id, closer, outcome, reason, tools, at)
                && id in closures && closure == Some(closures[id]) && isNew == (id !in old(closures))
      ensures isNew ==>
                && closures == old(closures)[id := Closed(old(rows)[id].tenant, old(rows)[id].task,
                                                          closer, outcome, reason, tools, at, None)]
                && rows == old(rows)[id := old(rows)[id].(ended := Some(at), outcome := Some(outcome))]
                && TaskFollows(old(tasks), old(rows)[id].task, outcome, tasks)
      ensures !isNew ==> rows == old(rows) && tasks == old(tasks)
      ensures !isNew && closure.Some? ==>
                var c := old(closures)[id];
                closures == old(closures)[id := c.(late := if closer == Hook && c.closer == Reaper && c.late == None
                                                           then Some(at) else c.late)]
    {
      if id !in rows || rows[id].tenant != tenant {
        return None, false;
      }
      isNew := id !in closures;
      if isNew {
        FirstCloseSays(Now(), id, closer, outcome, reason, tools, at);
        InsertClosure(id, closer, outcome, reason, tools, at);
      } else if closer == Hook && closures[id].closer == Reaper && closures[id].late == None {
        closures := closures[id := closures[id].(late := Some(at))];
      }
      closure := Some(closures[id]);
    }

    /** Fails rows one after the other, each under its tenant, and counts the new closures. */
    method CloseEach(ids: seq<Id>, tenants: seq<nat>, closer: ClosedBy, reason: Reason, at: int) returns (made: nat)
      requires |tenants| == |ids| && forall i :: 0 <= i < |ids| ==> ids[i] in rows && rows[ids[i]].tenant == tenants[i]
      modifies `rows, `tasks, `closures
      ensures Now() == CloseAll(old(Now()), ids, closer, reason, at)
      ensures OpenSubagents(old(Now()), ids) && Inv(old(Now())) ==> made == |ids|
    {
      made := 0;
      ghost var w := Now();
      for i := 0 to |ids|
        invariant Now() == CloseAll(w, ids[..i], closer, reason, at)
        invariant OpenSubagents(w, ids) && Inv(w) ==> made == i
      {
        NextClose(w, ids, i, closer, reason, at);
        var _, isNew := CloseTask(tenants[i], ids[i], closer, Outcome.Failed, reason, None, at);
        if isNew {
          made := made + 1;
        }
      }
      assert ids[..|ids|] == ids;
    }

    /** The ids a query selects, each once, in the order the scan meets them. */
    method OpenSubagentIds(session: Id) returns (ids: seq<Id>)
      ensures ListsOpenSubs(Now(), session, ids)
    {
      ids := [];
      var todo := rows.Keys;
      while todo != {}
        invariant todo <= rows.Keys && Distinct(ids)
        invariant forall x :: x in ids ==> x !in todo
        invariant forall x {:trigger OpenSub(Now(), session, x)} :: x !in todo ==>
                  (OpenSub(Now(), session, x) <==> x in ids)
      {
        var x :| x in todo;
        todo := todo - {x};
        if rows[x].parent == Some(session) && rows[x].ended == None {
          ids := ids + [x];
        }
      }
    }

    /** Completes the mission if it is running and stamps the session's row. */
    method StampSession(id: Id, outcome: Outcome, at: int)
      requires id in rows
      modifies `rows, `missions
      ensures Now() == Stamp(old(Now()), id, outcome, at)
    {
      var r := rows[id];
      if r.mission in missions && missions[r.mission].status == MissionStatus.Running {
        missions := missions[r.mission := missions[r.mission].(status := MissionStatus.Completed)];
      }
      rows := rows[id := r.(ended := Some(at), outcome := Some(outcome))];
    }

    /** Ends an open session of the tenant with everything under it, in one transaction. */
    method EndSession(tenant: nat, id: Id, outcome: Outcome, at: int) returns (row: Option<Row>, ghost subs: seq<Id>)
      requires Inv(Now()) && (id in rows ==> rows[id].kind.Session?)
      modifies this
      ensures Inv(Now()) && Step(old(Now()), Event.EndSession(tenant, id, outcome, subs, at), Now())
      ensures if id in old(rows) && old(rows)[id].tenant == tenant then id in rows && row == Some(rows[id])
              else row.None?
    {
      subs := [];
      if id !in rows || rows[id].tenant != tenant {
        return None, [];
      }
      if rows[id].ended != None {
        return Some(rows[id]), [];
      }
      ghost var w := Now();
      var ids := OpenSubagentIds(id);
      subs := ids;
      EndKeeps(w, id, outcome, subs, at);
      EndInCodeOrder(w, id, outcome, ids, at);
      var task := rows[id].task;
      if task in tasks {
        var _, _ := AdvanceTask(task, TaskStatus.Completed);
      }
      SubsBelong(w, id, ids);
      var _ := CloseEach(ids, seq(|ids|, _ => tenant), SessionEnd, SessionEnded, at);
      StampSession(id, outcome, at);
      return Some(rows[id]), subs;
    }

    /** Stale subagents, at most `batch` of them, passing over locked rows. */
    method StaleSubagentIds(durable: set<Id>, cutoff: int, batch: nat, locked: set<Id>)
      returns (ids: seq<Id>, tenants: seq<nat>)
      ensures |tenants| == |ids| && forall i :: 0 <= i < |ids| ==> ids[i] in rows && rows[ids[i]].tenant == tenants[i]
      ensures PicksSubs(Now(), durable, cutoff, batch, ids)
      ensures |ids| == batch || forall x {:trigger StaleSub(Now(), durable, cutoff, x)} ::
              StaleSub(Now(), durable, cutoff, x) ==> x in ids || x in locked
    {
      ids, tenants := [], [];
      var todo := rows.Keys;
      while todo != {} && |ids| < batch
        invariant todo <= rows.Keys && Distinct(ids) && |ids| <= batch
        invariant |tenants| == |ids| && forall i :: 0 <= i < |ids| ==>
                  ids[i] in rows && rows[ids[i]].tenant == tenants[i]
        invariant forall i :: 0 <= i < |ids| ==> ids[i] !in todo && StaleSub(Now(), durable, cutoff, ids[i])
        invariant forall x {:trigger StaleSub(Now(), durable, cutoff, x)} :: StaleSub(Now(), durable, cutoff, x) ==>
                  x in todo || x in ids || x in locked
      {
        var x :| x in todo;
        todo := todo - {x};
        var r := rows[x];
        if r.kind == Subagent && r.ended == None && x !in durable && x !in locked && r.parent != None
          && r.parent.value in rows {
          var p := rows[r.parent.value];
          var latest := if r.heartbeat == None then r.started else r.heartbeat.value;
          if p.heartbeat != None && p.heartbeat.value > latest {
            latest := p.heartbeat.value;
          }
          if p.started > latest {
            latest := p.started;
          }
          if latest < cutoff {
            ids, tenants := ids + [x], tenants + [r.tenant];
          }
        }
      }
    }

    /** Stale sessions with no open subagent, at most `batch` of them, passing over locked rows. */
    method StaleSessionIds(durable: set<Id>, cutoff: int, batch: nat, locked: set<Id>) returns (ids: seq<Id>)
      ensures PicksSessions(Now(), durable, cutoff, batch, ids)
      ensures |ids| == batch || forall x {:trigger StaleSession(Now(), durable, cutoff, x)} ::
              StaleSession(Now(), durable, cutoff, x) ==> x in ids || x in locked
    {
      ids := [];
      var todo := rows.Keys;
      while todo != {} && |ids| < batch
        invariant todo <= rows.Keys && Distinct(ids) && |ids| <= batch
        invariant forall i :: 0 <= i < |ids| ==> ids[i] !in todo && StaleSession(Now(), durable, cutoff, ids[i])
        invariant forall x {:trigger StaleSession(Now(), durable, cutoff, x)} ::
                  StaleSession(Now(), durable, cutoff, x) ==> x in todo || x in ids || x in locked
      {
        var x :| x in todo;
        todo := todo - {x};
        var r := rows[x];
        var open := OpenSubagentIds(x);
        assert open != [] ==> OpenSub(Now(), x, open[0]);
        var seen := if r.heartbeat == None then r.started else r.heartbeat.value;
        if r.kind == Session && r.ended == None && x !in durable && x !in locked && seen < cutoff && open == [] {
          ids := ids + [x];
        }
      }
    }

    /** Ends idle sessions one after the other. */
    method EndEach(ids: seq<Id>, at: int)
      requires Inv(Now()) && IdleSessions(Now(), ids)
      modifies this
      ensures Inv(Now()) && Now() == EndAll(old(Now()), ids, at)
    {
      ghost var w := Now();
      for i := 0 to |ids|
        invariant Inv(Now()) && Now() == EndAll(w, ids[..i], at)
      {
        NextIsIdle(w, ids, i, at);
        ghost var u := Now();
        var _, subs := EndSession(rows[ids[i]].tenant, ids[i], Abandoned, at);
        NoneOpen(u, ids[i], subs);
        assert ids[..i + 1][..i] == ids[..i];
      }
      assert ids[..|ids|] == ids;
    }

    /** One sweep; the count is the number of subagents it closed. */
    method Reap(durable: set<Id>, now: int, window: int, batch: nat, locked: set<Id>, at: int)
      returns (reaped: nat, ghost subs: seq<Id>, ghost sess: seq<Id>)
      requires Inv(Now())
      modifies this
      ensures Inv(Now()) && Step(old(Now()), Event.Reap(durable, now - window, batch, subs, sess, at), Now())
      ensures reaped == |subs|
      ensures locked == {} ==> R.Unhindered(old(Now()), Event.Reap(durable, now - window, batch, subs, sess, at))
    {
      var cutoff := now - window;
      ghost var w := Now();
      var first, tenants := StaleSubagentIds(durable, cutoff, batch, locked);
      subs := first;
      FirstHalf(w, durable, cutoff, batch, first, at);
      reaped := CloseEach(first, tenants, Reaper, ReapedStale, at);
      var second := StaleSessionIds(durable, cutoff, batch, locked);
      sess := second;
      SecondHalf(w, Event.Reap(durable, cutoff, batch, subs, sess, at), locked);
      EndEach(second, at);
    }

    // ----- the routes -----

    method FindSession(tenant: nat, ref: Ref) returns (id: Option<Id>)
      ensures if id.Some? then IsSession(Now(), tenant, ref, id.value) else !Registered(Now(), tenant, ref)
    {
      var todo := rows.Keys;
      while todo != {}
        invariant todo <= rows.Keys && forall x :: IsSession(Now(), tenant, ref, x) ==> x in todo
      {
        var x :| x in todo;
        if rows[x].tenant == tenant && rows[x].kind == Session && rows[x].ref == ref {
          return Some(x);
        }
        todo := todo - {x};
      }
      id := None;
    }

    method FindSubagent(tenant: nat, instance: Ref) returns (id: Option<Id>)
      ensures if id.Some? then IsSubagent(Now(), tenant, instance, id.value) else !Spawned(Now(), tenant, instance)
    {
      var todo := rows.Keys;
      while todo != {}
        invariant todo <= rows.Keys && forall x :: IsSubagent(Now(), tenant, instance, x) ==> x in todo
      {
        var x :| x in todo;
        if rows[x].tenant == tenant && rows[x].kind == Subagent && rows[x].instance == Some(instance) {
          return Some(x);
        }
        todo := todo - {x};
      }
      id := None;
    }

    method HasCode(ref: Ref) returns (taken: bool)
      ensures taken == CodeTaken(Now(), ref)
    {
      var todo := missions.Keys;
      while todo != {}
        invariant todo <= missions.Keys && forall m :: m in missions && missions[m].code == ref ==> m in todo
      {
        var m :| m in todo;
        if missions[m].code == ref {
          return true;
        }
        todo := todo - {m};
      }
      taken := false;
    }

    /** Idempotent: the reference's session, new or not.  Mission codes are unique over all
        tenants, so a reference another tenant uses ends in an error nobody handles. */
    method RegisterSession(tenant: nat, ref: Ref, seeded: bool, id: Id, mission: Id, task: Id, at: int)
      returns (reply: Reply)
      requires Inv(Now()) && id !in rows && task !in tasks && mission !in missions
      modifies this
      ensures Inv(Now()) && Step(old(Now()), Event.RegisterSession(tenant, ref, seeded, id, mission, task, at), Now())
      ensures reply.Accepted? ==> IsSession(Now(), tenant, ref, reply.id)
      ensures reply.Conflict? <==> !Registered(old(Now()), tenant, ref) && !seeded
      ensures reply.ServerError? <==> !Registered(old(Now()), tenant, ref) && seeded && CodeTaken(old(Now()), ref)
      ensures !reply.NotFound?
    {
      ghost var w := Now();
      var existing := FindSession(tenant, ref);
      if existing.Some? {
        return Accepted(existing.value);
      }
      if !seeded {
        return Conflict;
      }
      var taken := HasCode(ref);
      if taken {
        return ServerError;
      }
      missions := missions[mission := Mission(ref, MissionStatus.Running)];
      tasks := tasks[task := Queued];
      rows := rows[id := Row(tenant, Session, ref, None, None, mission, task, at, None, None, None)];
      StepKeeps(w, Event.RegisterSession(tenant, ref, seeded, id, mission, task, at), Now());
      reply := Accepted(id);
    }

    /** Idempotent; a new subagent needs a registered session that has not ended. */
    method RegisterSubagent(tenant: nat, ref: Ref, instance: Ref, persona: bool, id: Id, task: Id, at: int)
      returns (reply: Reply)
      requires Inv(Now()) && id !in rows && task !in tasks
      modifies this
      ensures Inv(Now())
      ensures Step(old(Now()), Event.RegisterSubagent(tenant, ref, instance, persona, id, task, at, false), Now())
      ensures reply.Accepted? ==> IsSubagent(Now(), tenant, instance, reply.id)
      ensures reply.NotFound? <==> !Spawned(old(Now()), tenant, instance) && !Registered(old(Now()), tenant, ref)
    {
      ghost var w := Now();
      var existing := FindSubagent(tenant, instance);
      if existing.Some? {
        return Accepted(existing.value);
      }
      var parent := FindSession(tenant, ref);
      if parent.None? {
        return NotFound;
      }
      OnlySession(w, tenant, ref, parent.value);
      if rows[parent.value].ended != None || !persona {
        return Conflict;
      }
      var mission := rows[parent.value].mission;
      tasks := tasks[task := Queued];
      rows := rows[id := Row(tenant, Subagent, ref, Some(instance), parent, mission, task, at, None, None, None)];
      ghost var e := Event.RegisterSubagent(tenant, ref, instance, persona, id, task, at, false);
      assert IsSession(w, tenant, ref, parent.value) && Now() == NewSubagent(w, e, parent.value);
      StepKeeps(w, Event.RegisterSubagent(tenant, ref, instance, persona, id, task, at, false), Now());
      reply := Accepted(id);
    }

    /** A heartbeat when no outcome is given, otherwise the session's end. */
    method UpdateSession(tenant: nat, id: Id, outcome: Option<Outcome>, at: int)
      returns (reply: Reply, ghost subs: seq<Id>)
      requires Inv(Now())
      modifies this
      ensures Inv(Now())
      ensures Step(old(Now()), if outcome.None? then Event.Heartbeat(tenant, id, at)
                   else Event.EndSession(tenant, id, outcome.value, subs, at), Now())
      ensures reply.NotFound? <==> id !in old(rows) || old(rows)[id].tenant != tenant
      ensures reply.Conflict? <==>
                id in old(rows) && old(rows)[id].tenant == tenant && outcome.Some? && old(rows)[id].kind.Subagent?
    {
      subs := [];
      if id !in rows || rows[id].tenant != tenant {
        return NotFound, [];
      }
      if outcome.None? {
        HeartbeatKeeps(Now(), id, at);
        rows := rows[id := rows[id].(heartbeat := Some(at))];
        return Accepted(id), [];
      }
      if rows[id].kind == Subagent {
        return Conflict, [];
      }
      var _, closed := EndSession(tenant, id, outcome.value, at);
      return Accepted(id), closed;
    }

    /** The hook's close of a subagent, by row id. */
    method CloseSubagent(tenant: nat, id: Id, outcome: Outcome, reason: Reason, tools: Option<nat>, at: int)
      returns (reply: Reply)
      requires Inv(Now()) && !outcome.Abandoned?
      modifies this
      ensures Inv(Now()) && Step(old(Now()), Event.HookClose(tenant, id, outcome, reason, tools, at), Now())
      ensures reply.NotFound? <==> id !in old(rows) || old(rows)[id].tenant != tenant
      ensures reply.Conflict? <==> id in old(rows) && old(rows)[id].tenant == tenant && old(rows)[id].kind.Session?
    {
      if id !in rows || rows[id].tenant != tenant {
        return NotFound;
      }
      if rows[id].kind != Subagent {
        return Conflict;
      }
      CloseKeeps(Now(), id, Hook, outcome, reason, tools, at);
      var _, _ := CloseTask(tenant, id, Hook, outcome, reason, tools, at);
      reply := Accepted(id);
    }
  }

  /** A tenant has one session for a reference. */
  lemma OnlySession(w: World, tenant: nat, ref: Ref, p: Id)
    requires Inv(w) && IsSession(w, tenant, ref, p)
    ensures forall q :: IsSession(w, tenant, ref, q) ==> q == p
  {
    forall q | IsSession(w, tenant, ref, q) ensures q == p { assert Apart(w, p, q); }
  }

  lemma FirstCloseSays(
    w: World, id: Id, closer: ClosedBy, outcome: Outcome, reason: Reason, tools: Option<nat>, at: int)
    requires id in w.rows
    ensures TaskFollows(w.tasks, w.rows[id].task, outcome, FirstClose(w, id, closer, outcome, reason, tools, at).tasks)
  {
  }

  ghost function WithTask(w: World, task: Id): World {
    w.(tasks := Settle(w.tasks, task, TaskStatus.Completed))
  }

  ghost function Stamp(w: World, id: Id, outcome: Outcome, at: int): World
    requires id in w.rows
  {
    Finish(w, id, outcome, at).(tasks := w.tasks)
  }

  lemma SubsBelong(w: World, id: Id, ids: seq<Id>)
    requires Inv(w) && id in w.rows && ListsOpenSubs(w, id, ids)
    ensures forall i :: 0 <= i < |ids| ==> ids[i] in w.rows && w.rows[ids[i]].tenant == w.rows[id].tenant
  {
    forall i | 0 <= i < |ids| ensures ids[i] in w.rows && w.rows[ids[i]].tenant == w.rows[id].tenant {
      assert ids[i] in ids && OpenSub(w, id, ids[i]) && RowOk(w, ids[i]);
    }
  }

  lemma CloseShape(w: World, id: Id, closer: ClosedBy, outcome: Outcome, reason: Reason, tools: Option<nat>, at: int)
    requires id in w.rows
    ensures Close(w, id, closer, outcome, reason, tools, at).rows.Keys == w.rows.Keys
    ensures Close(w, id, closer, outcome, reason, tools, at).missions == w.missions
    ensures forall x :: x in w.rows ==>
              Close(w, id, closer, outcome, reason, tools, at).rows[x].tenant == w.rows[x].tenant
  {
  }

  /** Closing rows moves none of them to another tenant, and no mission. */
  lemma {:induction false} CloseAllShape(w: World, ids: seq<Id>, closer: ClosedBy, reason: Reason, at: int)
    requires forall i :: 0 <= i < |ids| ==> ids[i] in w.rows
    ensures CloseAll(w, ids, closer, reason, at).missions == w.missions
    ensures forall x :: x in w.rows ==> CloseAll(w, ids, closer, reason, at).rows[x].tenant == w.rows[x].tenant
  {
    if ids != [] {
      CloseAllShape(w, ids[..|ids| - 1], closer, reason, at);
      CloseShape(CloseAll(w, ids[..|ids| - 1], closer, reason, at), ids[|ids| - 1], closer, Outcome.Failed, reason,
                 None, at);
    }
  }

  /** Closing some of the listed rows leaves the next one without a closure. */
  lemma NextIsOpen(w: World, ids: seq<Id>, i: nat, closer: ClosedBy, reason: Reason, at: int)
    requires Inv(w) && OpenSubagents(w, ids) && i < |ids|
    ensures ids[i] !in CloseAll(w, ids[..i], closer, reason, at).closures
  {
    CloseAllKeeps(w, ids[..i], closer, reason, at);
    assert Failing(w, CloseAll(w, ids[..i], closer, reason, at), ids[..i], closer, reason, at, ids[i])
           && RowOk(w, ids[i]);
  }

  /** What the close of the next listed row finds and does. */
  lemma NextClose(w: World, ids: seq<Id>, i: nat, closer: ClosedBy, reason: Reason, at: int)
    requires i < |ids| && forall j :: 0 <= j < |ids| ==> ids[j] in w.rows
    ensures var u := CloseAll(w, ids[..i], closer, reason, at);
            && ids[i] in u.rows && u.rows[ids[i]].tenant == w.rows[ids[i]].tenant
            && CloseAll(w, ids[..i + 1], closer, reason, at)
               == Close(u, ids[i], closer, Outcome.Failed, reason, None, at)
            && (Inv(w) && OpenSubagents(w, ids) ==> ids[i] !in u.closures)
  {
    CloseAllShape(w, ids[..i], closer, reason, at);
    if Inv(w) && OpenSubagents(w, ids) { NextIsOpen(w, ids, i, closer, reason, at); }
    assert ids[..i + 1][..i] == ids[..i];
  }

  lemma TaskCommutes(u: World, t: Id, y: Id, at: int)
    requires y in u.rows && y !in u.closures && u.rows[y].task != t
    ensures Close(WithTask(u, t), y, SessionEnd, Outcome.Failed, SessionEnded, None, at)
         == WithTask(Close(u, y, SessionEnd, Outcome.Failed, SessionEnded, None, at), t)
  {
    var v := Close(u, y, SessionEnd, Outcome.Failed, SessionEnded, None, at);
    assert Settle(Settle(u.tasks, t, TaskStatus.Completed), u.rows[y].task, TaskStatus.Failed)
           == Settle(v.tasks, t, TaskStatus.Completed);
  }

  /** Advancing the session's own task before its subagents' closes, as the code does, comes to
      the same as after them. */
  lemma {:induction false} TaskFirst(w: World, id: Id, ids: seq<Id>, at: int)
    requires Inv(w) && Open(w, id) && w.rows[id].kind.Session? && OpenSubagents(w, ids) && id !in ids
    ensures CloseAll(WithTask(w, w.rows[id].task), ids, SessionEnd, SessionEnded, at)
         == WithTask(CloseAll(w, ids, SessionEnd, SessionEnded, at), w.rows[id].task)
  {
    if ids != [] {
      var rest, y := ids[..|ids| - 1], ids[|ids| - 1];
      TaskFirst(w, id, rest, at);
      CloseAllKeeps(w, rest, SessionEnd, SessionEnded, at);
      var u := CloseAll(w, rest, SessionEnd, SessionEnded, at);
      assert Failing(w, u, rest, SessionEnd, SessionEnded, at, y) && RowOk(u, y) && Apart(w, id, y);
      TaskCommutes(u, w.rows[id].task, y, at);
    }
  }

  /** The code's order (own task, subagents, mission, row) ends in the same tables. */
  lemma EndInCodeOrder(w: World, id: Id, outcome: Outcome, ids: seq<Id>, at: int)
    requires Inv(w) && Open(w, id) && w.rows[id].kind.Session?
    requires ListsOpenSubs(w, id, ids) && OpenSubagents(w, ids) && id !in ids
    ensures w.rows[id].task in w.tasks
    ensures Stamp(CloseAll(WithTask(w, w.rows[id].task), ids, SessionEnd, SessionEnded, at), id, outcome, at)
            == End(w, id, outcome, ids, at)
  {
    assert RowOk(w, id);
    TaskFirst(w, id, ids, at);
    LeftIdle(w, id, ids, at);
  }

  lemma FirstIsOpen(w: World, id: Id, subs: seq<Id>)
    requires ListsOpenSubs(w, id, subs) && subs != []
    ensures OpenSub(w, id, subs[0])
  {
    assert subs[0] in subs;
  }

  lemma NoneOpen(w: World, id: Id, subs: seq<Id>)
    requires Idle(w, id) && ListsOpenSubs(w, id, subs)
    ensures subs == []
  {
    if subs != [] { FirstIsOpen(w, id, subs); }
  }

  /** Ending some of the listed sessions leaves the next one idle. */
  lemma NextIsIdle(w: World, ids: seq<Id>, i: nat, at: int)
    requires Inv(w) && IdleSessions(w, ids) && i < |ids|
    ensures Idle(EndAll(w, ids[..i], at), ids[i])
  {
    EndAllKeeps(w, ids[..i], at);
    StillIdle(w, EndAll(w, ids[..i], at), ids[..i], at, ids[i]);
  }

  lemma FirstHalf(w: World, durable: set<Id>, cutoff: int, batch: nat, subs: seq<Id>, at: int)
    requires Inv(w) && PicksSubs(w, durable, cutoff, batch, subs)
    ensures OpenSubagents(w, subs) && Inv(CloseAll(w, subs, Reaper, ReapedStale, at))
  {
    CloseAllKeeps(w, subs, Reaper, ReapedStale, at);
  }

  lemma SecondHalf(w: World, e: Event, locked: set<Id>)
    requires e.Reap? && PicksSubs(w, e.durable, e.cutoff, e.batch, e.subs)
    requires |e.subs| == e.batch || forall x {:trigger StaleSub(w, e.durable, e.cutoff, x)} ::
             StaleSub(w, e.durable, e.cutoff, x) ==> x in e.subs || x in locked
    requires PicksSessions(R.Halfway(w, e), e.durable, e.cutoff, e.batch, e.sess)
    requires |e.sess| == e.batch || forall x {:trigger StaleSession(R.Halfway(w, e), e.durable, e.cutoff, x)} ::
                                      StaleSession(R.Halfway(w, e), e.durable, e.cutoff, x) ==>
                                        x in e.sess || x in locked
    ensures IdleSessions(R.Halfway(w, e), e.sess) && Step(w, e, Sweep(w, e.subs, e.sess, e.at))
    ensures locked == {} ==> R.Unhindered(w, e)
  {
  }
}
