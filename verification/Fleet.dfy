/**
 Any number of workers on one task: the lease protocol of `Lease` decides who is inside the work,
 and each worker inside runs the executor of `Metering` on the shared tables.

 As in services/worker/main.py a worker's last commit comes after `lease.run`, with no heartbeat
 behind it: it may land when the key has expired and another worker is at work.  A commit writes
 the columns the session has changed and no others.  The task row is read between acquiring the
 lease and starting the race, and is not reloaded after a commit, so a worker goes on with the row
 it once read (`seen`).  The recovery transaction of the sweep may come long after its look at the
 key.

 Whenever the heartbeat race excludes (`Lease.ExclusionIff`), the ceilings, the checkpoint log and
 the output survive all of this; `FleetLimits` shows that otherwise they do not.
 */
module Fleet {
  import opened Options
  import opened Budget
  import M = Metering
  import P = MeteringProofs
  import L = Lease

  datatype Worker = Worker(x: M.Exec, seen: M.Task)

  /** A last commit on its way, with the raw response it has inserted, if any. */
  datatype Pending = Pending(s: M.Session, seen: M.Task, raw: Option<M.Artifact>)

  /** `read`: the task row that a worker which has not started yet has read. */
  datatype State = State(
    lease: L.State, db: M.Db, hist: M.History,
    read: map<nat, M.Task>, work: map<nat, Worker>, last: map<nat, Pending>)

  /** `prompt`: nobody has taken the key since the sweep looked. */
  datatype Event =
    | Protocol(l: L.Event)
    | Read(t: nat)
    | Work(t: nat, w: M.Event)
    | CommitFails(t: nat)
    | SweepOrphan(prompt: bool)
    | Operator(o: M.Event)

  function Init(policy: Policy): State {
    State(L.Init, M.Init(policy).db, M.Init(policy).hist, map[], map[], map[])
  }

  /** An UPDATE of the changed columns. */
  function Merge(row: M.Task, seen: M.Task, mine: M.Task): M.Task {
    M.Task(if mine.status != seen.status then mine.status else row.status,
           if mine.retryCount != seen.retryCount then mine.retryCount else row.retryCount,
           if mine.output != seen.output then mine.output else row.output)
  }

  /** The tables as this worker's session has them. */
  function Lens(f: State, w: Worker): M.State {
    M.State(f.db.(task := w.seen), Some(w.x), f.hist)
  }

  ghost predicate RawPending(f: State) {
    exists t :: t in f.last && f.last[t].raw.Some?
  }

  /** An insert waits for the transaction that has inserted the same artifact. */
  ghost predicate Blocked(f: State, r: M.State) {
    r.exec.Some? && |r.exec.value.s.artifacts| > |r.db.artifacts| && RawPending(f)
  }

  ghost function DoWork(cfg: M.Config, f: State, t: nat, e: M.Event): Option<State> {
    if t !in f.work || !L.Inside(f.lease, t) || !M.IsWork(e) then None
    else
      var r := M.Apply(cfg, Lens(f, f.work[t]), e);
      if r.None? || Blocked(f, r.value) then None
      else
        var g := f.(db := r.value.db.(task := Merge(f.db.task, f.work[t].seen, r.value.db.task)), hist := r.value.hist);
        if r.value.exec.None? then Some(g.(work := f.work - {t}))
        else Some(g.(work := f.work[t := Worker(r.value.exec.value, r.value.db.task)]))
  }

  predicate Executable(task: M.Task) {
    task.status.Queued? || task.status.Running?
  }

  /** A worker that holds the key reads the row; a task that is not executable is skipped instead. */
  function DoRead(f: State, t: nat): Option<State> {
    if t !in f.lease.leases || !f.lease.leases[t].Waiting? || t in f.read || !Executable(f.db.task) then None
    else Some(f.(read := f.read[t := f.db.task]))
  }

  /** The session starts from the row read before. */
  function DoStart(f: State, t: nat): Option<State> {
    if t !in f.read then None
    else
      var begun := M.DoBegin(M.State(f.db.(task := f.read[t]), None, f.hist));
      if begun.None? || begun.value.exec.None? then None
      else Some(f.(read := f.read - {t}, work := f.work[t := Worker(begun.value.exec.value, f.read[t])]))
  }

  /** The work is over.  If it ended as it should, the last commit follows; otherwise an uncaught
      error rolls the session back. */
  function DoFinish(f: State, t: nat): State {
    if t in f.work && f.work[t].x.Closing? then
      var w := f.work[t];
      var raw := if |w.x.s.artifacts| > |f.db.artifacts| then Some(w.x.s.artifacts[|f.db.artifacts|]) else None;
      f.(work := f.work - {t}, last := f.last[t := Pending(w.x.s, w.seen, raw)])
    else f.(work := f.work - {t})
  }

  /** Another session's committed artifact shows in this one's queries. */
  function Shown(w: Worker, a: M.Artifact): Worker {
    w.(x := w.x.(s := w.x.s.(artifacts := w.x.s.artifacts + [a])))
  }

  function Land(f: State, q: Pending): State {
    var db := f.db.(task := Merge(f.db.task, q.seen, q.s.task),
                    mission := if q.s.mission.Some? then q.s.mission.value else f.db.mission);
    if q.raw.Some? && M.FindArtifact(f.db.artifacts, q.raw.value.kind).None?
    then f.(db := db.(artifacts := f.db.artifacts + [q.raw.value]),
            work := map t | t in f.work :: Shown(f.work[t], q.raw.value))
    else f.(db := db)
  }

  /** A worker whose lease is gone, or who has died, has had its session rolled back. */
  function Surviving(f: State): State {
    f.(read := map t | t in f.read && t in f.lease.leases && f.lease.leases[t].Waiting? :: f.read[t],
       work := map t | t in f.work && L.Inside(f.lease, t) :: f.work[t],
       last := map t | t in f.last && L.Acting(f.lease, t) :: f.last[t])
  }

  function DoProtocol(p: L.Params, f: State, e: L.Event): Option<State> {
    var lease := L.Apply(p, f.lease, e);
    if lease.None? then None
    else
      var g := f.(lease := lease.value);
      match e
      case Start(t) => DoStart(g, t)
      case Finish(t) => Some(DoFinish(g, t))
      case Landed(t) => Some(if t in g.last then Land(g, g.last[t]).(last := g.last - {t}) else g)
      case _ => Some(Surviving(g))
  }

  /** An event outside any executor, applied to the shared tables. */
  function DoOutside(cfg: M.Config, f: State, e: M.Event): Option<State> {
    var r := M.Apply(cfg, M.State(f.db, None, f.hist), e);
    if r.None? then None else Some(f.(db := r.value.db, hist := r.value.hist))
  }

  ghost function Apply(p: L.Params, cfg: M.Config, f: State, e: Event): Option<State> {
    match e
    case Protocol(l) => DoProtocol(p, f, l)
    case Read(t) => DoRead(f, t)
    case Work(t, w) => DoWork(cfg, f, t, w)
    case CommitFails(t) =>
      if L.Apply(p, f.lease, L.Landed(t)).None? then None
      else Some(f.(lease := L.Apply(p, f.lease, L.Landed(t)).value, last := f.last - {t}))
    case SweepOrphan(prompt) => if prompt && L.Leased(f.lease) then None else DoOutside(cfg, f, M.Sweep)
    case Operator(o) => if o.OperatorRetry? || o.MissionMoves? then DoOutside(cfg, f, o) else None
  }

  ghost function Run(p: L.Params, cfg: M.Config, f: State, es: seq<Event>): Option<State>
    decreases |es|
  {
    if es == [] then Some(f)
    else
      var r := Run(p, cfg, f, es[..|es| - 1]);
      if r.None? then None else Apply(p, cfg, r.value, es[|es| - 1])
  }

  // ----- the invariant -----

  ghost predicate WorkOk(cfg: M.Config, f: State, t: nat) {
    t in f.work ==>
      var w := f.work[t];
      && L.Inside(f.lease, t) && P.Sound(cfg, Lens(f, w))
      && w.x.s.task.output == w.seen.output && (w.seen.output.Some? ==> f.db.task.output.Some?)
      && (RawPending(f) ==> w.x.s.artifacts == f.db.artifacts)
  }

  ghost predicate LastOk(f: State, t: nat) {
    t in f.last ==>
      var q := f.last[t];
      && t in f.lease.leases && f.lease.leases[t].Committing?
      && q.s.task.output == q.seen.output && (q.seen.output.Some? ==> f.db.task.output.Some?)
      && (q.s.task.status.TaskCompleted? ==> q.s.task.output.Some?)
      && (q.raw.Some? ==> q.raw.value.kind.RawModelResponse?)
  }

  /** The row names the output if it names anything. */
  ghost predicate Names(arts: seq<M.Artifact>, task: M.Task) {
    task.output.Some? ==> task.output.value < |arts| && arts[task.output.value].kind.MissionOutput?
  }

  ghost predicate ReadOk(f: State, t: nat) {
    t in f.read ==>
      && t in f.lease.leases && f.lease.leases[t].Waiting? && Executable(f.read[t])
      && Names(f.db.artifacts, f.read[t]) && (f.read[t].output.Some? ==> f.db.task.output.Some?)
  }

  ghost predicate Inv(p: L.Params, cfg: M.Config, f: State) {
    && L.Inv(p, f.lease) && P.Sound(cfg, M.State(f.db, None, f.hist))
    && (forall t {:trigger ReadOk(f, t)} :: ReadOk(f, t))
    && (forall t {:trigger WorkOk(cfg, f, t)} :: WorkOk(cfg, f, t))
    && (forall t {:trigger LastOk(f, t)} :: LastOk(f, t))
  }

  /** Whoever executes is the holder of the key, so there is one at most. */
  lemma OnlyTheHolder(p: L.Params, cfg: M.Config, f: State, t: nat, u: nat)
    requires p.Valid() && !L.Unsafe(p) && Inv(p, cfg, f) && t in f.work && u in f.work
    ensures L.Held(f.lease, t) && t == u
  {
    assert WorkOk(cfg, f, t) && WorkOk(cfg, f, u);
    L.InsideIsHeld(p, f.lease, t);
    L.InsideIsHeld(p, f.lease, u);
  }

  // ----- what one step of an executor does to the task row and the artifacts -----

  ghost predicate Owned(s: M.State) {
    s.exec.Some? ==> s.exec.value.s.task.output == s.db.task.output
  }

  lemma OwnedStep(cfg: M.Config, s: M.State, e: M.Event)
    requires P.OutputInv(cfg, s) && s.exec.Some? && Owned(s) && M.IsWork(e) && M.Apply(cfg, s, e).Some?
    ensures Owned(M.Apply(cfg, s, e).value)
  {
  }

  lemma TaskFrame(cfg: M.Config, s: M.State, e: M.Event)
    requires P.OutputInv(cfg, s) && s.exec.Some? && Owned(s) && M.IsWork(e) && M.Apply(cfg, s, e).Some?
    ensures var r := M.Apply(cfg, s, e).value;
            && (r.db.task.output == s.db.task.output || r.db.task.output.Some?)
            && (r.db.task.status == s.db.task.status || r.db.task.status.Running?)
  {
  }

  lemma ArtifactFrame(cfg: M.Config, s: M.State, e: M.Event)
    requires P.OutputInv(cfg, s) && s.exec.Some? && M.IsWork(e) && M.Apply(cfg, s, e).Some?
    ensures s.db.artifacts <= M.Apply(cfg, s, e).value.db.artifacts
  {
  }

  /** The mission and the count of recoveries are nothing to an executor. */
  lemma SoundFrame(cfg: M.Config, s: M.State, mission: M.MissionStatus, requeues: nat)
    requires P.Sound(cfg, s)
    ensures P.Sound(cfg, s.(db := s.db.(mission := mission), hist := s.hist.(requeues := requeues)))
  {
  }

  // ----- a step of an executor -----

  /** Written back column by column, the task row still fits the artifacts. */
  lemma MergedShape(
    cfg: M.Config, row: M.Task, seen: M.Task, mine: M.Task, was: seq<M.Artifact>, arts: seq<M.Artifact>,
    cks0: seq<M.Checkpoint>, cks: seq<M.Checkpoint>)
    requires P.OutputShape(cfg, was, row, cks0) && P.OutputShape(cfg, arts, mine, cks) && was <= arts
    requires seen.output.Some? ==> row.output.Some?
    requires mine.output == seen.output || mine.output.Some?
    requires mine.status.TaskCompleted? && mine.status != seen.status ==> mine.output.Some?
    ensures P.OutputShape(cfg, arts, Merge(row, seen, mine), cks)
    ensures row.output.Some? ==> Merge(row, seen, mine).output.Some?
    ensures mine.output.Some? ==> Merge(row, seen, mine).output.Some?
  {
  }

  lemma WorkBase(p: L.Params, cfg: M.Config, f: State, t: nat, e: M.Event)
    requires p.Valid() && !L.Unsafe(p) && Inv(p, cfg, f) && DoWork(cfg, f, t, e).Some?
    ensures var r := M.Apply(cfg, Lens(f, f.work[t]), e).value; var g := DoWork(cfg, f, t, e).value;
            && P.Sound(cfg, r) && Owned(r) && P.Sound(cfg, M.State(g.db, None, g.hist))
            && (f.db.task.output.Some? ==> g.db.task.output.Some?)
            && (r.db.task.output.Some? ==> g.db.task.output.Some?) && f.db.artifacts <= g.db.artifacts
  {
    assert WorkOk(cfg, f, t);
    var w := f.work[t];
    var s := Lens(f, w);
    P.SoundStep(cfg, s, e);
    OwnedStep(cfg, s, e);
    TaskFrame(cfg, s, e);
    ArtifactFrame(cfg, s, e);
    var r := M.Apply(cfg, s, e).value;
    MergedShape(cfg, f.db.task, w.seen, r.db.task,
                f.db.artifacts, r.db.artifacts, f.db.checkpoints, r.db.checkpoints);
  }

  /** Rows in sessions and on their way stay in order while artifacts are added and the row keeps its output. */
  lemma OthersStay(f: State, g: State, u: nat)
    requires g.lease == f.lease && g.read == f.read && g.last == f.last && f.db.artifacts <= g.db.artifacts
    requires f.db.task.output.Some? ==> g.db.task.output.Some?
    ensures ReadOk(f, u) ==> ReadOk(g, u)
    ensures LastOk(f, u) ==> LastOk(g, u)
  {
  }

  lemma WorkerGoesOn(p: L.Params, cfg: M.Config, f: State, t: nat, e: M.Event, u: nat)
    requires p.Valid() && !L.Unsafe(p) && Inv(p, cfg, f) && DoWork(cfg, f, t, e).Some?
    ensures WorkOk(cfg, DoWork(cfg, f, t, e).value, u)
  {
    var g := DoWork(cfg, f, t, e).value;
    assert WorkOk(cfg, f, t);
    if u in g.work {
      OnlyTheHolder(p, cfg, f, t, u);
      WorkBase(p, cfg, f, t, e);
      assert Lens(g, g.work[t]) == M.Apply(cfg, Lens(f, f.work[t]), e).value;
    }
  }

  lemma WorkKeeps(p: L.Params, cfg: M.Config, f: State, t: nat, e: M.Event)
    requires p.Valid() && !L.Unsafe(p) && Inv(p, cfg, f) && DoWork(cfg, f, t, e).Some?
    ensures Inv(p, cfg, DoWork(cfg, f, t, e).value)
  {
    var g := DoWork(cfg, f, t, e).value;
    WorkBase(p, cfg, f, t, e);
    forall u {:trigger WorkOk(cfg, g, u)} ensures WorkOk(cfg, g, u) { WorkerGoesOn(p, cfg, f, t, e, u); }
    forall u {:trigger LastOk(g, u)} ensures LastOk(g, u) {
      assert LastOk(f, u);
      OthersStay(f, g, u);
    }
    forall u {:trigger ReadOk(g, u)} ensures ReadOk(g, u) {
      assert ReadOk(f, u);
      OthersStay(f, g, u);
    }
  }

  // ----- the protocol's steps -----

  /** A session that starts from an older row is sound, since the output it names is still there. */
  lemma BegunSound(cfg: M.Config, f: State, t: nat)
    requires P.Sound(cfg, M.State(f.db, None, f.hist)) && ReadOk(f, t) && DoStart(f, t).Some?
    ensures P.Sound(cfg, Lens(f, DoStart(f, t).value.work[t]))
  {
    var s := M.State(f.db.(task := f.read[t]), None, f.hist);
    assert P.OutputShape(cfg, s.db.artifacts, s.db.task, s.db.checkpoints);
    P.SoundStep(cfg, s, M.Begin);
    assert M.Apply(cfg, s, M.Begin) == M.DoBegin(s);
  }

  lemma ReadKeeps(p: L.Params, cfg: M.Config, f: State, t: nat)
    requires Inv(p, cfg, f) && DoRead(f, t).Some?
    ensures Inv(p, cfg, DoRead(f, t).value)
  {
    var g := DoRead(f, t).value;
    assert RawPending(g) ==> RawPending(f);
    forall u {:trigger WorkOk(cfg, g, u)} ensures WorkOk(cfg, g, u) {
      assert WorkOk(cfg, f, u);
      SameWorkOk(cfg, f, g, u);
    }
    forall u {:trigger LastOk(g, u)} ensures LastOk(g, u) { assert LastOk(f, u); }
    forall u {:trigger ReadOk(g, u)} ensures ReadOk(g, u) { assert ReadOk(f, u); }
  }

  lemma StartKeeps(p: L.Params, cfg: M.Config, f: State, t: nat)
    requires p.Valid() && !L.Unsafe(p) && Inv(p, cfg, f) && DoProtocol(p, f, L.Start(t)).Some?
    ensures Inv(p, cfg, DoProtocol(p, f, L.Start(t)).value)
  {
    L.InvStep(p, f.lease, L.Start(t));
    var g := DoProtocol(p, f, L.Start(t)).value;
    BegunSound(cfg, f, t);
    forall u {:trigger WorkOk(cfg, g, u)} ensures WorkOk(cfg, g, u) { assert WorkOk(cfg, f, u); }
    forall u {:trigger LastOk(g, u)} ensures LastOk(g, u) { assert LastOk(f, u); }
    forall u {:trigger ReadOk(g, u)} ensures ReadOk(g, u) { assert ReadOk(f, u); }
  }

  lemma FinishKeeps(p: L.Params, cfg: M.Config, f: State, t: nat)
    requires p.Valid() && !L.Unsafe(p) && Inv(p, cfg, f) && DoProtocol(p, f, L.Finish(t)).Some?
    ensures Inv(p, cfg, DoProtocol(p, f, L.Finish(t)).value)
  {
    L.InvStep(p, f.lease, L.Finish(t));
    var g := DoProtocol(p, f, L.Finish(t)).value;
    assert WorkOk(cfg, f, t);
    forall u {:trigger WorkOk(cfg, g, u)} ensures WorkOk(cfg, g, u) {
      assert WorkOk(cfg, f, u);
      if u in g.work { AloneAtWork(p, cfg, f, t, u); }
    }
    assert t in f.work && f.work[t].x.Closing? ==> P.Staged(f.db.artifacts, f.work[t].x.s.artifacts);
    forall u {:trigger LastOk(g, u)} ensures LastOk(g, u) { assert LastOk(f, u); }
    forall u {:trigger ReadOk(g, u)} ensures ReadOk(g, u) { assert ReadOk(f, u); }
  }

  /** Two workers inside, one of them executing, are one. */
  lemma AloneAtWork(p: L.Params, cfg: M.Config, f: State, t: nat, u: nat)
    requires p.Valid() && !L.Unsafe(p) && Inv(p, cfg, f) && L.Inside(f.lease, t) && u in f.work
    ensures t == u
  {
    assert WorkOk(cfg, f, u);
    L.InsideIsHeld(p, f.lease, t);
    L.InsideIsHeld(p, f.lease, u);
  }

  /** A raw response that appears beside a running executor does not disturb it. */
  lemma ShownSound(cfg: M.Config, s: M.State, w: Worker, a: M.Artifact)
    requires s.exec == Some(w.x) && P.Sound(cfg, s) && w.x.s.artifacts == s.db.artifacts
    requires a.kind.RawModelResponse? && M.FindArtifact(s.db.artifacts, a.kind).None?
    ensures P.Sound(cfg, M.State(s.db.(artifacts := s.db.artifacts + [a]), Some(Shown(w, a).x), s.hist))
  {
    P.OutputAppend(cfg, s.db.artifacts, a, s.db.task, s.db.checkpoints);
    if w.x.Closing? { P.OutputAppend(cfg, s.db.artifacts, a, w.x.s.task, s.db.checkpoints); }
  }

  lemma LandBase(p: L.Params, cfg: M.Config, f: State, t: nat)
    requires Inv(p, cfg, f) && t in f.last
    ensures P.Sound(cfg, M.State(Land(f, f.last[t]).db, None, f.hist))
    ensures f.db.task.output.Some? ==> Land(f, f.last[t]).db.task.output.Some?
    ensures f.db.artifacts <= Land(f, f.last[t]).db.artifacts
  {
    assert LastOk(f, t);
    var q := f.last[t];
    var merged := Merge(f.db.task, q.seen, q.s.task);
    assert merged.output == f.db.task.output && (merged.status.TaskCompleted? ==> merged.output.Some?);
    assert P.OutputShape(cfg, f.db.artifacts, merged, f.db.checkpoints);
    if q.raw.Some? && M.FindArtifact(f.db.artifacts, q.raw.value.kind).None? {
      P.OutputAppend(cfg, f.db.artifacts, q.raw.value, merged, f.db.checkpoints);
    }
  }

  lemma LandWork(p: L.Params, cfg: M.Config, f: State, t: nat, u: nat)
    requires Inv(p, cfg, f) && t in f.last && u in f.work
    ensures var g := Land(f, f.last[t]); u in g.work && P.Sound(cfg, Lens(g, g.work[u]))
  {
    assert LastOk(f, t) && WorkOk(cfg, f, u);
    var q, w := f.last[t], f.work[u];
    var g := Land(f, q);
    var s := Lens(f, w);
    if q.raw.Some? && M.FindArtifact(f.db.artifacts, q.raw.value.kind).None? {
      assert RawPending(f);
      ShownSound(cfg, s, w, q.raw.value);
      var s' := M.State(s.db.(artifacts := s.db.artifacts + [q.raw.value]), Some(Shown(w, q.raw.value).x), s.hist);
      SoundFrame(cfg, s', g.db.mission, s.hist.requeues);
    } else {
      SoundFrame(cfg, s, g.db.mission, s.hist.requeues);
    }
  }

  /** What `Landed` makes of a fleet with this commit on its way. */
  function AfterLanding(f: State, t: nat): State
    requires t in f.last
  {
    Land(f, f.last[t]).(lease := f.lease.(leases := f.lease.leases[t := L.Leaving]), last := f.last - {t})
  }

  lemma LandedWorkOk(p: L.Params, cfg: M.Config, f: State, t: nat, u: nat)
    requires Inv(p, cfg, f) && t in f.last
    ensures WorkOk(cfg, AfterLanding(f, t), u)
  {
    assert WorkOk(cfg, f, u) && LastOk(f, t);
    if u in f.work {
      LandBase(p, cfg, f, t);
      LandWork(p, cfg, f, t, u);
      if RawPending(AfterLanding(f, t)) { FewerRaws(f, t); }
    }
  }

  lemma FewerRaws(f: State, t: nat)
    requires t in f.last && RawPending(AfterLanding(f, t))
    ensures RawPending(f)
  {
  }

  lemma LandedOthers(p: L.Params, cfg: M.Config, f: State, t: nat, u: nat)
    requires Inv(p, cfg, f) && t in f.last
    ensures ReadOk(AfterLanding(f, t), u) && LastOk(AfterLanding(f, t), u)
  {
    LandBase(p, cfg, f, t);
    assert LastOk(f, t) && ReadOk(f, u) && LastOk(f, u);
  }

  lemma LandedKeeps(p: L.Params, cfg: M.Config, f: State, t: nat)
    requires Inv(p, cfg, f) && t in f.last && L.Inv(p, AfterLanding(f, t).lease)
    ensures Inv(p, cfg, AfterLanding(f, t))
  {
    LandBase(p, cfg, f, t);
    var g := AfterLanding(f, t);
    forall u {:trigger WorkOk(cfg, g, u)} ensures WorkOk(cfg, g, u) { LandedWorkOk(p, cfg, f, t, u); }
    forall u {:trigger LastOk(g, u)} ensures LastOk(g, u) { LandedOthers(p, cfg, f, t, u); }
    forall u {:trigger ReadOk(g, u)} ensures ReadOk(g, u) { LandedOthers(p, cfg, f, t, u); }
  }

  /** A commit that fails, or that had nothing to write. */
  lemma CommitFailsKeeps(p: L.Params, cfg: M.Config, f: State, t: nat)
    requires p.Valid() && !L.Unsafe(p) && Inv(p, cfg, f) && Apply(p, cfg, f, CommitFails(t)).Some?
    ensures Inv(p, cfg, Apply(p, cfg, f, CommitFails(t)).value)
  {
    L.InvStep(p, f.lease, L.Landed(t));
    var g := Apply(p, cfg, f, CommitFails(t)).value;
    assert RawPending(g) ==> RawPending(f);
    forall u {:trigger WorkOk(cfg, g, u)} ensures WorkOk(cfg, g, u) {
      assert WorkOk(cfg, f, u);
      SameWorkOk(cfg, f, g, u);
    }
    forall u {:trigger LastOk(g, u)} ensures LastOk(g, u) { assert LastOk(f, u); }
    forall u {:trigger ReadOk(g, u)} ensures ReadOk(g, u) { assert ReadOk(f, u); }
  }

  /** A step that leaves the tables alone leaves a worker that stays inside alone. */
  lemma SameWorkOk(cfg: M.Config, f: State, g: State, u: nat)
    requires WorkOk(cfg, f, u) && g.db == f.db && g.hist == f.hist && (RawPending(g) ==> RawPending(f))
    requires u in g.work ==> u in f.work && g.work[u] == f.work[u] && L.Inside(g.lease, u)
    ensures WorkOk(cfg, g, u)
  {
  }

  lemma OtherLastOk(p: L.Params, f: State, e: L.Event, u: nat)
    requires LastOk(f, u) && DoProtocol(p, f, e).Some? && !e.Start? && !e.Finish? && !e.Landed?
    ensures LastOk(DoProtocol(p, f, e).value, u)
  {
  }

  lemma OtherKeeps(p: L.Params, cfg: M.Config, f: State, e: L.Event)
    requires p.Valid() && !L.Unsafe(p) && Inv(p, cfg, f) && DoProtocol(p, f, e).Some?
    requires !e.Start? && !e.Finish? && !e.Landed?
    ensures Inv(p, cfg, DoProtocol(p, f, e).value)
  {
    L.InvStep(p, f.lease, e);
    var g := DoProtocol(p, f, e).value;
    assert g == Surviving(f.(lease := g.lease));
    assert RawPending(g) ==> RawPending(f);
    forall u {:trigger WorkOk(cfg, g, u)} ensures WorkOk(cfg, g, u) {
      assert WorkOk(cfg, f, u);
      SameWorkOk(cfg, f, g, u);
    }
    forall u {:trigger LastOk(g, u)} ensures LastOk(g, u) {
      assert LastOk(f, u);
      OtherLastOk(p, f, e, u);
    }
    forall u {:trigger ReadOk(g, u)} ensures ReadOk(g, u) { assert ReadOk(f, u); }
  }

  lemma OutsideWorkOk(cfg: M.Config, f: State, g: State, u: nat)
    requires WorkOk(cfg, f, u) && g == f.(db := g.db, hist := g.hist)
    requires g.db == f.db.(task := g.db.task, mission := g.db.mission) && g.hist == f.hist.(requeues := g.hist.requeues)
    requires g.db.task.output == f.db.task.output
    ensures WorkOk(cfg, g, u)
  {
    if u in f.work { SoundFrame(cfg, Lens(f, f.work[u]), g.db.mission, g.hist.requeues); }
  }

  lemma OutsideKeeps(p: L.Params, cfg: M.Config, f: State, e: M.Event)
    requires Inv(p, cfg, f) && (e.Sweep? || e.OperatorRetry? || e.MissionMoves?) && DoOutside(cfg, f, e).Some?
    ensures Inv(p, cfg, DoOutside(cfg, f, e).value)
  {
    var g := DoOutside(cfg, f, e).value;
    P.SoundStep(cfg, M.State(f.db, None, f.hist), e);
    forall u {:trigger WorkOk(cfg, g, u)} ensures WorkOk(cfg, g, u) {
      assert WorkOk(cfg, f, u);
      OutsideWorkOk(cfg, f, g, u);
    }
    forall u {:trigger LastOk(g, u)} ensures LastOk(g, u) { assert LastOk(f, u); }
    forall u {:trigger ReadOk(g, u)} ensures ReadOk(g, u) { assert ReadOk(f, u); }
  }

  /** Without a commit on its way, landing is like a commit that fails. */
  lemma NothingLands(p: L.Params, cfg: M.Config, f: State, t: nat)
    requires t !in f.last
    ensures DoProtocol(p, f, L.Landed(t)) == Apply(p, cfg, f, CommitFails(t))
  {
    assert f.last - {t} == f.last;
  }

  lemma SomethingLands(p: L.Params, f: State, t: nat)
    requires t in f.last && DoProtocol(p, f, L.Landed(t)).Some?
    ensures DoProtocol(p, f, L.Landed(t)).value == AfterLanding(f, t)
  {
  }

  lemma LandKeeps(p: L.Params, cfg: M.Config, f: State, t: nat)
    requires p.Valid() && !L.Unsafe(p) && Inv(p, cfg, f) && DoProtocol(p, f, L.Landed(t)).Some?
    ensures Inv(p, cfg, DoProtocol(p, f, L.Landed(t)).value)
  {
    if t in f.last {
      L.InvStep(p, f.lease, L.Landed(t));
      SomethingLands(p, f, t);
      LandedKeeps(p, cfg, f, t);
    } else {
      NothingLands(p, cfg, f, t);
      CommitFailsKeeps(p, cfg, f, t);
    }
  }

  lemma StepKeeps(p: L.Params, cfg: M.Config, f: State, e: Event)
    requires p.Valid() && !L.Unsafe(p) && Inv(p, cfg, f) && Apply(p, cfg, f, e).Some?
    ensures Inv(p, cfg, Apply(p, cfg, f, e).value)
  {
    match e
    case Protocol(l) =>
      if l.Start? { StartKeeps(p, cfg, f, l.t); }
      else if l.Finish? { FinishKeeps(p, cfg, f, l.t); }
      else if l.Landed? { LandKeeps(p, cfg, f, l.t); }
      else { OtherKeeps(p, cfg, f, l); }
    case Read(t) => ReadKeeps(p, cfg, f, t);
    case Work(t, w) => WorkKeeps(p, cfg, f, t, w);
    case CommitFails(t) => CommitFailsKeeps(p, cfg, f, t);
    case SweepOrphan(_) => OutsideKeeps(p, cfg, f, M.Sweep);
    case Operator(o) => OutsideKeeps(p, cfg, f, o);
  }

  // ----- whole runs -----

  lemma {:induction false} RunKeeps(p: L.Params, cfg: M.Config, f: State, es: seq<Event>)
    requires p.Valid() && !L.Unsafe(p) && Inv(p, cfg, f) && Run(p, cfg, f, es).Some?
    ensures Inv(p, cfg, Run(p, cfg, f, es).value) && Run(p, cfg, f, es).value.db.policy == f.db.policy
    decreases |es|
  {
    if es != [] {
      RunKeeps(p, cfg, f, es[..|es| - 1]);
      var g := Run(p, cfg, f, es[..|es| - 1]).value;
      StepKeeps(p, cfg, g, es[|es| - 1]);
      SamePolicy(p, cfg, g, es[|es| - 1]);
    }
  }

  lemma SamePolicy(p: L.Params, cfg: M.Config, f: State, e: Event)
    requires Apply(p, cfg, f, e).Some?
    ensures Apply(p, cfg, f, e).value.db.policy == f.db.policy
  {
  }

  lemma Reachable(p: L.Params, cfg: M.Config, policy: Policy, es: seq<Event>)
    requires p.Valid() && !L.Unsafe(p) && Run(p, cfg, Init(policy), es).Some?
    ensures Inv(p, cfg, Run(p, cfg, Init(policy), es).value)
    ensures Run(p, cfg, Init(policy), es).value.db.policy == policy
  {
    forall t {:trigger WorkOk(cfg, Init(policy), t)} ensures WorkOk(cfg, Init(policy), t) {}
    RunKeeps(p, cfg, Init(policy), es);
  }

  /** Billed <= committed <= the cost ceiling, up to the column's rounding; sent <= rows <= the call
      ceiling; retries <= the retry ceiling. */
  ghost predicate WithinCeilings(cfg: M.Config, policy: Policy, f: State) {
    && M.Sum(f.hist.bills) <= M.SumCost(f.db.rows) + P.Loss(cfg, |f.db.rows|)
    && M.SumCost(f.db.rows) <= P.Max0(policy.maxCost) + P.Gain(cfg, P.Max0(cfg.maxAttempts))
    && f.hist.sent <= |f.db.rows| <= P.Max0(policy.maxCalls)
    && f.hist.retries <= P.Max0(policy.maxRetries)
  }

  /** Spending over whole runs of any number of workers, with crashes, Redis failures and last
      commits that land whenever they do. */
  lemma FleetSpendSafety(p: L.Params, cfg: M.Config, policy: Policy, es: seq<Event>)
    requires p.Valid() && !L.Unsafe(p) && Run(p, cfg, Init(policy), es).Some?
    ensures WithinCeilings(cfg, policy, Run(p, cfg, Init(policy), es).value)
  {
    Reachable(p, cfg, policy, es);
    var f := Run(p, cfg, Init(policy), es).value;
    P.CoveredSum(cfg, f.db.rows, f.hist.bills);
  }

  /** Checkpoints are 1, 2, ..., prompts and answers in turn, and bounded; there is at most one
      output, it is the valid text of the latest answer, and a completed task owns it. */
  ghost predicate LogAndOutput(cfg: M.Config, policy: Policy, db: M.Db) {
    && P.LogShape(policy, db.checkpoints) && |db.checkpoints| <= 2 * P.Max0(policy.maxCalls) + 1
    && (forall i: nat, j: nat :: P.IsOutput(db, i) && P.IsOutput(db, j) ==> i == j)
    && (forall i: nat :: P.IsOutput(db, i) ==>
          P.EndsWith(db.checkpoints, db.artifacts[i].content) && cfg.valid(db.artifacts[i].content))
    && (db.task.status.TaskCompleted? ==> db.task.output.Some? && P.IsOutput(db, db.task.output.value))
  }

  /** The checkpoint log and the output of every such run. */
  lemma FleetOutputOnce(p: L.Params, cfg: M.Config, policy: Policy, es: seq<Event>)
    requires p.Valid() && !L.Unsafe(p) && Run(p, cfg, Init(policy), es).Some?
    ensures LogAndOutput(cfg, policy, Run(p, cfg, Init(policy), es).value.db)
  {
    Reachable(p, cfg, policy, es);
    P.CountBound(Run(p, cfg, Init(policy), es).value.db.rows);
  }

  /** The ledger, the log and the output `id` are as they were. */
  ghost predicate Frozen(f: State, g: State, id: nat) {
    P.Frozen(M.State(f.db, None, f.hist), M.State(g.db, None, g.hist), id)
  }

  lemma FrozenWork(cfg: M.Config, f: State, t: nat, e: M.Event, id: nat)
    requires WorkOk(cfg, f, t) && P.IsOutput(f.db, id) && DoWork(cfg, f, t, e).Some?
    ensures Frozen(f, DoWork(cfg, f, t, e).value, id)
  {
    P.OutputFrozenStep(cfg, Lens(f, f.work[t]), e, id);
  }

  lemma FrozenOutside(cfg: M.Config, f: State, e: M.Event, id: nat)
    requires (e.Sweep? || e.OperatorRetry? || e.MissionMoves?) && P.IsOutput(f.db, id) && DoOutside(cfg, f, e).Some?
    ensures Frozen(f, DoOutside(cfg, f, e).value, id)
  {
  }

  lemma FrozenLand(f: State, q: Pending, id: nat)
    requires P.IsOutput(f.db, id)
    ensures Frozen(f, Land(f, q), id)
  {
  }

  lemma FrozenProtocol(p: L.Params, f: State, e: L.Event, id: nat)
    requires P.IsOutput(f.db, id) && DoProtocol(p, f, e).Some?
    ensures Frozen(f, DoProtocol(p, f, e).value, id)
  {
    if e.Landed? && e.t in f.last {
      var g := f.(lease := L.Apply(p, f.lease, e).value);
      FrozenLand(g, f.last[e.t], id);
    }
  }

  lemma FrozenStep(p: L.Params, cfg: M.Config, f: State, e: Event, id: nat)
    requires p.Valid() && !L.Unsafe(p) && Inv(p, cfg, f) && P.IsOutput(f.db, id) && Apply(p, cfg, f, e).Some?
    ensures Frozen(f, Apply(p, cfg, f, e).value, id)
  {
    match e
    case Protocol(l) => FrozenProtocol(p, f, l, id);
    case Read(_) =>
    case Work(t, w) =>
      assert WorkOk(cfg, f, t);
      FrozenWork(cfg, f, t, w, id);
    case CommitFails(_) =>
    case SweepOrphan(_) => FrozenOutside(cfg, f, M.Sweep, id);
    case Operator(o) => FrozenOutside(cfg, f, o, id);
  }

  /** Once the output is committed, nothing more is sent, charged or checkpointed by anyone. */
  lemma {:induction false} FleetOutputFrozen(p: L.Params, cfg: M.Config, f: State, es: seq<Event>, id: nat)
    requires p.Valid() && !L.Unsafe(p) && Inv(p, cfg, f) && P.IsOutput(f.db, id) && Run(p, cfg, f, es).Some?
    ensures Frozen(f, Run(p, cfg, f, es).value, id)
    decreases |es|
  {
    if es != [] {
      FleetOutputFrozen(p, cfg, f, es[..|es| - 1], id);
      RunKeeps(p, cfg, f, es[..|es| - 1]);
      FrozenStep(p, cfg, Run(p, cfg, f, es[..|es| - 1]).value, es[|es| - 1], id);
    }
  }
}
