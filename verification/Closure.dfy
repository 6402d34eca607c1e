/**
 The closure protocol for runtime sessions and their subagents
 (services/api/services/agent_runtime_closure.py and the routes that call it): registration,
 heartbeat, hook close, session end and the reaper, each one transaction, as a step system over
 the tables they share.  `Twins` has the statements themselves.
 */
module Closure {
  import opened Options

  type Id = nat

  datatype Ref = Ref(text: string)
  datatype Kind = Session | Subagent
  datatype Outcome = Completed | Failed | Abandoned
  datatype ClosedBy = Hook | SessionEnd | Reaper
  datatype Reason = HookReported | SessionEnded | ReapedStale
  datatype TaskStatus = Queued | Running | Waiting | Completed | Failed | Cancelled
  datatype MissionStatus = Draft | Ready | Running | Paused | Completed | Failed | Cancelled

  datatype Row = Row(
    tenant: nat, kind: Kind, ref: Ref, instance: Option<Ref>, parent: Option<Id>, mission: Id, task: Id,
    started: int, heartbeat: Option<int>, ended: Option<int>, outcome: Option<Outcome>)

  datatype Mission = Mission(code: Ref, status: MissionStatus)

  datatype Closed = Closed(
    tenant: nat, task: Id, closer: ClosedBy, outcome: Outcome, reason: Reason, tools: Option<nat>, at: int,
    late: Option<int>)

  /** Closures are keyed by the row they close: at most one each. */
  datatype World = World(
    rows: map<Id, Row>, tasks: map<Id, TaskStatus>, missions: map<Id, Mission>, closures: map<Id, Closed>)

  const EMPTY := World(map[], map[], map[], map[])

  // ----- transitions -----

  /** TASK_TRANSITIONS. */
  predicate Legal(from: TaskStatus, to: TaskStatus) {
    match from
    case Queued => to.Running? || to.Cancelled?
    case Running => to.Waiting? || to.Completed? || to.Failed? || to.Cancelled?
    case Waiting => to.Running? || to.Failed? || to.Cancelled?
    case Failed => to.Queued?
    case Completed => false
    case Cancelled => false
  }

  predicate Terminal(s: TaskStatus) {
    s.Completed? || s.Failed? || s.Cancelled?
  }

  function Target(o: Outcome): TaskStatus {
    if o.Completed? then TaskStatus.Completed else TaskStatus.Failed
  }

  /** What a task's status becomes when its row is closed. */
  function Settle(tasks: map<Id, TaskStatus>, task: Id, target: TaskStatus): map<Id, TaskStatus> {
    if task in tasks && !Terminal(tasks[task]) then tasks[task := target] else tasks
  }

  // ----- one transaction each -----

  predicate Open(w: World, id: Id) {
    id in w.rows && w.rows[id].ended.None?
  }

  function Stamped(r: Row, at: int, outcome: Outcome): Row {
    r.(ended := Some(at), outcome := Some(outcome))
  }

  /** A close on a row that has a closure: a hook that comes after the reaper leaves its mark, once. */
  function LateClose(w: World, id: Id, closer: ClosedBy, at: int): World
    requires id in w.closures
  {
    if closer.Hook? && w.closures[id].closer.Reaper? && w.closures[id].late.None?
    then w.(closures := w.closures[id := w.closures[id].(late := Some(at))])
    else w
  }

  function FirstClose(
    w: World, id: Id, closer: ClosedBy, outcome: Outcome, reason: Reason, tools: Option<nat>, at: int): World
    requires id in w.rows
  {
    var r := w.rows[id];
    w.(rows := w.rows[id := Stamped(r, at, outcome)],
       tasks := Settle(w.tasks, r.task, Target(outcome)),
       closures := w.closures[id := Closed(r.tenant, r.task, closer, outcome, reason, tools, at, None)])
  }

  function Close(
    w: World, id: Id, closer: ClosedBy, outcome: Outcome, reason: Reason, tools: Option<nat>, at: int): World
    requires id in w.rows
  {
    if id in w.closures then LateClose(w, id, closer, at) else FirstClose(w, id, closer, outcome, reason, tools, at)
  }

  /** Fails the rows `ids`, one after the other. */
  function CloseAll(w: World, ids: seq<Id>, closer: ClosedBy, reason: Reason, at: int): (r: World)
    requires forall i :: 0 <= i < |ids| ==> ids[i] in w.rows
    ensures r.rows.Keys == w.rows.Keys
  {
    if ids == [] then w
    else Close(CloseAll(w, ids[..|ids| - 1], closer, reason, at), ids[|ids| - 1], closer, Outcome.Failed, reason, None,
               at)
  }

  /** A session's own end: its task and mission are completed, its row is stamped. */
  function Finish(w: World, id: Id, outcome: Outcome, at: int): World
    requires id in w.rows
  {
    var r := w.rows[id];
    w.(rows := w.rows[id := Stamped(r, at, outcome)],
       tasks := Settle(w.tasks, r.task, TaskStatus.Completed),
       missions := if r.mission in w.missions && w.missions[r.mission].status.Running?
                   then w.missions[r.mission := w.missions[r.mission].(status := MissionStatus.Completed)]
                   else w.missions)
  }

  function End(w: World, id: Id, outcome: Outcome, subs: seq<Id>, at: int): World
    requires id in w.rows && forall i :: 0 <= i < |subs| ==> subs[i] in w.rows
  {
    Finish(CloseAll(w, subs, SessionEnd, SessionEnded, at), id, outcome, at)
  }

  /** Ends the sessions `ids`, which have no open subagent, one after the other. */
  function EndAll(w: World, ids: seq<Id>, at: int): (r: World)
    requires forall i :: 0 <= i < |ids| ==> ids[i] in w.rows
    ensures r.rows.Keys == w.rows.Keys
  {
    if ids == [] then w else Finish(EndAll(w, ids[..|ids| - 1], at), ids[|ids| - 1], Abandoned, at)
  }

  function Sweep(w: World, subs: seq<Id>, sess: seq<Id>, at: int): World
    requires forall i :: 0 <= i < |subs| ==> subs[i] in w.rows
    requires forall i :: 0 <= i < |sess| ==> sess[i] in w.rows
  {
    EndAll(CloseAll(w, subs, Reaper, ReapedStale, at), sess, at)
  }

  // ----- what the queries select -----

  predicate IsSession(w: World, tenant: nat, ref: Ref, id: Id) {
    id in w.rows && w.rows[id].tenant == tenant && w.rows[id].kind.Session? && w.rows[id].ref == ref
  }

  predicate IsSubagent(w: World, tenant: nat, instance: Ref, id: Id) {
    id in w.rows && w.rows[id].tenant == tenant && w.rows[id].kind.Subagent? && w.rows[id].instance == Some(instance)
  }

  predicate OpenSub(w: World, session: Id, id: Id) {
    Open(w, id) && w.rows[id].parent == Some(session)
  }

  function Seen(r: Row): int {
    match r.heartbeat case Some(t) => t case None => r.started
  }

  /** A subagent is stale when its own last sign of life, its parent's last heartbeat if there is
      one, and its parent's start all lie before the cutoff. */
  predicate StaleSub(w: World, durable: set<Id>, cutoff: int, id: Id) {
    && Open(w, id) && w.rows[id].kind.Subagent? && id !in durable && w.rows[id].parent.Some?
    && w.rows[id].parent.value in w.rows
    && var p := w.rows[w.rows[id].parent.value];
       Seen(w.rows[id]) < cutoff && p.started < cutoff && (p.heartbeat.Some? ==> p.heartbeat.value < cutoff)
  }

  ghost predicate StaleSession(w: World, durable: set<Id>, cutoff: int, id: Id) {
    && Open(w, id) && w.rows[id].kind.Session? && id !in durable && Seen(w.rows[id]) < cutoff
    && forall s {:trigger OpenSub(w, id, s)} :: !OpenSub(w, id, s)
  }

  predicate Distinct(ids: seq<Id>) {
    forall i, j :: 0 <= i < j < |ids| ==> ids[i] != ids[j]
  }

  /** The open subagents of a session, each once, in any order. */
  ghost predicate ListsOpenSubs(w: World, session: Id, ids: seq<Id>) {
    Distinct(ids) && (forall s {:trigger OpenSub(w, session, s)} :: OpenSub(w, session, s) <==> s in ids)
  }

  /** A query result with a row limit that may skip locked rows. */
  ghost predicate PicksSubs(w: World, durable: set<Id>, cutoff: int, batch: nat, ids: seq<Id>) {
    Distinct(ids) && |ids| <= batch && forall i :: 0 <= i < |ids| ==> StaleSub(w, durable, cutoff, ids[i])
  }

  ghost predicate PicksSessions(w: World, durable: set<Id>, cutoff: int, batch: nat, ids: seq<Id>) {
    Distinct(ids) && |ids| <= batch && forall i :: 0 <= i < |ids| ==> StaleSession(w, durable, cutoff, ids[i])
  }

  // ----- the step system -----

  /** A `late` registration of a subagent has found its session open earlier in the request and
      inserts now; no lock keeps the session from ending in between.  New ids are unused; `seeded` and
      `persona` say whether the agent the row is for may be used; `at` is the time the database stamps;
      `durable` are the rows whose task runs on the custom_durable adapter. */
  datatype Event =
    | RegisterSession(tenant: nat, ref: Ref, seeded: bool, id: Id, mission: Id, task: Id, at: int)
    | RegisterSubagent(tenant: nat, ref: Ref, instance: Ref, persona: bool, id: Id, task: Id, at: int, late: bool)
    | Heartbeat(tenant: nat, id: Id, at: int)
    | EndSession(tenant: nat, id: Id, outcome: Outcome, subs: seq<Id>, at: int)
    | HookClose(tenant: nat, id: Id, outcome: Outcome, reason: Reason, tools: Option<nat>, at: int)
    | Reap(durable: set<Id>, cutoff: int, batch: nat, subs: seq<Id>, sess: seq<Id>, at: int)

  function NewSession(w: World, e: Event): World
    requires e.RegisterSession?
  {
    w.(rows := w.rows[e.id := Row(e.tenant, Session, e.ref, None, None, e.mission, e.task, e.at, None, None, None)],
       tasks := w.tasks[e.task := Queued],
       missions := w.missions[e.mission := Mission(e.ref, MissionStatus.Running)])
  }

  function NewSubagent(w: World, e: Event, parent: Id): World
    requires e.RegisterSubagent? && parent in w.rows
  {
    w.(rows := w.rows[e.id := Row(e.tenant, Subagent, e.ref, Some(e.instance), Some(parent), w.rows[parent].mission,
                                  e.task, e.at, None, None, None)],
       tasks := w.tasks[e.task := Queued])
  }

  ghost predicate Registered(w: World, tenant: nat, ref: Ref) {
    exists id :: IsSession(w, tenant, ref, id)
  }

  ghost predicate CodeTaken(w: World, ref: Ref) {
    exists m :: m in w.missions && w.missions[m].code == ref
  }

  ghost predicate Spawned(w: World, tenant: nat, instance: Ref) {
    exists id :: IsSubagent(w, tenant, instance, id)
  }

  ghost predicate DoRegisterSession(w: World, e: Event, v: World)
    requires e.RegisterSession?
  {
    if Registered(w, e.tenant, e.ref) || !e.seeded || CodeTaken(w, e.ref) then v == w
    else e.id !in w.rows && e.task !in w.tasks && e.mission !in w.missions && v == NewSession(w, e)
  }

  ghost predicate DoRegisterSubagent(w: World, e: Event, v: World)
    requires e.RegisterSubagent?
  {
    if Spawned(w, e.tenant, e.instance) || !e.persona then v == w
    else if forall p :: IsSession(w, e.tenant, e.ref, p) ==> !e.late && !Open(w, p) then v == w
    else e.id !in w.rows && e.task !in w.tasks && exists p ::
      IsSession(w, e.tenant, e.ref, p) && (e.late || Open(w, p)) && v == NewSubagent(w, e, p)
  }

  ghost predicate DoHeartbeat(w: World, e: Event, v: World)
    requires e.Heartbeat?
  {
    if e.id in w.rows && w.rows[e.id].tenant == e.tenant
    then v == w.(rows := w.rows[e.id := w.rows[e.id].(heartbeat := Some(e.at))]) else v == w
  }

  ghost predicate DoEndSession(w: World, e: Event, v: World)
    requires e.EndSession?
  {
    if Open(w, e.id) && w.rows[e.id].tenant == e.tenant && w.rows[e.id].kind.Session?
    then ListsOpenSubs(w, e.id, e.subs) && (forall i :: 0 <= i < |e.subs| ==> e.subs[i] in w.rows)
      && v == End(w, e.id, e.outcome, e.subs, e.at)
    else v == w
  }

  ghost predicate DoHookClose(w: World, e: Event, v: World)
    requires e.HookClose?
  {
    if e.id in w.rows && w.rows[e.id].tenant == e.tenant && w.rows[e.id].kind.Subagent?
    then !e.outcome.Abandoned? && v == Close(w, e.id, Hook, e.outcome, e.reason, e.tools, e.at)
    else v == w
  }

  ghost predicate DoReap(w: World, e: Event, v: World)
    requires e.Reap?
  {
    && PicksSubs(w, e.durable, e.cutoff, e.batch, e.subs)
    && PicksSessions(CloseAll(w, e.subs, Reaper, ReapedStale, e.at), e.durable, e.cutoff, e.batch, e.sess)
    && v == Sweep(w, e.subs, e.sess, e.at)
  }

  ghost predicate Step(w: World, e: Event, v: World) {
    match e
    case RegisterSession(_, _, _, _, _, _, _) => DoRegisterSession(w, e, v)
    case RegisterSubagent(_, _, _, _, _, _, _, _) => DoRegisterSubagent(w, e, v)
    case Heartbeat(_, _, _) => DoHeartbeat(w, e, v)
    case EndSession(_, _, _, _, _) => DoEndSession(w, e, v)
    case HookClose(_, _, _, _, _, _) => DoHookClose(w, e, v)
    case Reap(_, _, _, _, _, _) => DoReap(w, e, v)
  }

  /** `ws` are the worlds before, between and after the events `es`. */
  ghost predicate IsRun(ws: seq<World>, es: seq<Event>) {
    |ws| == |es| + 1 && forall k {:trigger StepAt(ws, es, k)} :: 0 <= k < |es| ==> StepAt(ws, es, k)
  }

  ghost predicate StepAt(ws: seq<World>, es: seq<Event>, k: int) {
    0 <= k < |es| && k + 1 < |ws| && Step(ws[k], es[k], ws[k + 1])
  }

  // ----- the invariant -----

  ghost predicate SessionOk(w: World, id: Id)
    requires id in w.rows && w.rows[id].task in w.tasks && w.rows[id].mission in w.missions
  {
    var r := w.rows[id];
    && r.parent.None? && r.instance.None? && id !in w.closures
    && w.missions[r.mission].code == r.ref
    && w.missions[r.mission].status == (if r.ended.None? then MissionStatus.Running else MissionStatus.Completed)
    && (r.ended.Some? ==> w.tasks[r.task] == TaskStatus.Completed)
  }

  ghost predicate SubagentOk(w: World, id: Id)
    requires id in w.rows && w.rows[id].task in w.tasks && w.rows[id].mission in w.missions
  {
    var r := w.rows[id];
    && r.instance.Some? && r.parent.Some? && r.parent.value in w.rows
    && var p := w.rows[r.parent.value];
       && p.kind.Session? && p.tenant == r.tenant && p.mission == r.mission
       && (r.ended.Some? ==> id in w.closures && ClosureOk(w, id))
  }

  /** A closure agrees with the row it closed and with the task's status. */
  ghost predicate ClosureOk(w: World, id: Id)
    requires id in w.rows && id in w.closures && w.rows[id].task in w.tasks
  {
    var r, c := w.rows[id], w.closures[id];
    && c.tenant == r.tenant && c.task == r.task && !c.outcome.Abandoned?
    && r.ended == Some(c.at) && r.outcome == Some(c.outcome)
    && w.tasks[r.task] == Target(c.outcome) && (c.late.Some? ==> c.closer.Reaper?)
  }

  ghost predicate RowOk(w: World, id: Id) {
    && id in w.rows && w.rows[id].task in w.tasks && w.rows[id].mission in w.missions
    && (w.rows[id].outcome.Some? <==> w.rows[id].ended.Some?)
    && (w.rows[id].ended.None? ==> id !in w.closures && w.tasks[w.rows[id].task] == Queued)
    && (if w.rows[id].kind.Session? then SessionOk(w, id) else SubagentOk(w, id))
  }

  /** No two rows share a task, no two sessions a mission or a reference, no two subagents an instance. */
  ghost predicate Apart(w: World, a: Id, b: Id) {
    a in w.rows && b in w.rows && a != b ==>
      && w.rows[a].task != w.rows[b].task
      && (w.rows[a].kind.Session? && w.rows[b].kind.Session? ==> w.rows[a].mission != w.rows[b].mission)
      && (w.rows[a].kind == w.rows[b].kind && w.rows[a].tenant == w.rows[b].tenant ==>
            if w.rows[a].kind.Session? then w.rows[a].ref != w.rows[b].ref
            else w.rows[a].instance != w.rows[b].instance)
  }

  ghost predicate Inv(w: World) {
    && w.closures.Keys <= w.rows.Keys
    && (forall id {:trigger RowOk(w, id)} :: id in w.rows ==> RowOk(w, id))
    && (forall a, b {:trigger Apart(w, a, b)} :: Apart(w, a, b))
  }

  ghost predicate TidyRow(w: World, id: Id) {
    id in w.rows && w.rows[id].parent.Some? && w.rows[id].parent.value in w.rows
      && w.rows[w.rows[id].parent.value].ended.Some? ==>
      w.rows[id].ended.Some?
  }

  /** Under an ended session nothing is open. */
  ghost predicate Tidy(w: World) {
    forall id {:trigger TidyRow(w, id)} :: TidyRow(w, id)
  }

  /** No registration of a subagent is overtaken by the end of its session. */
  ghost predicate Prompt(es: seq<Event>) {
    forall i :: 0 <= i < |es| && es[i].RegisterSubagent? ==> !es[i].late
  }
}
