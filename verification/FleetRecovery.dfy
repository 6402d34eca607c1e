/**
 What depends on the last commit of every worker landing before its key expires: the bound on
 recoveries, with sweeps whose transaction comes at any time, and that `completed` is final.
 Both hold over all runs if and only if no last commit can land late.
 */
module FleetRecovery {
  import opened Options
  import opened Budget
  import M = Metering
  import P = MeteringProofs
  import R = MeteringRuns
  import L = Lease
  import opened Fleet
  import opened FleetRuns

  // ----- in time: the invariant -----

  /** A session leaves the retry count alone, or adds one to a row that is still queued as it was read. */
  ghost predicate Counted(row: M.Task, seen: M.Task, mine: M.Task) {
    || mine.retryCount == seen.retryCount
    || (mine.retryCount == seen.retryCount + 1 && row.status.Queued? && row.retryCount == seen.retryCount)
  }

  /** Until its last commit a session has the task running. */
  ghost predicate Starting(x: M.Exec) {
    !x.Closing? ==> x.s.task.status.Running?
  }

  ghost predicate WorkCounts(f: State, t: nat) {
    t in f.work ==>
      && L.Inside(f.lease, t) && Counted(f.db.task, f.work[t].seen, f.work[t].x.s.task) && Starting(f.work[t].x)
  }

  ghost predicate LastCounts(f: State, t: nat) {
    t in f.last ==>
      && t in f.lease.leases && f.lease.leases[t].Committing?
      && Counted(f.db.task, f.last[t].seen, f.last[t].s.task)
  }

  ghost predicate ReadCounts(f: State, t: nat) {
    t in f.read ==>
      && t in f.lease.leases && f.lease.leases[t].Waiting? && Executable(f.read[t])
      && (f.read[t].status.Queued? ==> f.db.task.status.Queued? && f.db.task.retryCount == f.read[t].retryCount)
  }

  ghost predicate AllCount(f: State) {
    && (forall t {:trigger WorkCounts(f, t)} :: WorkCounts(f, t))
    && (forall t {:trigger LastCounts(f, t)} :: LastCounts(f, t))
    && (forall t {:trigger ReadCounts(f, t)} :: ReadCounts(f, t))
  }

  /** Recoveries are counted in the row, and nobody is left with a completed task. */
  ghost predicate RowCounts(cfg: M.Config, f: State) {
    && f.hist.requeues <= f.db.task.retryCount && f.hist.requeues <= P.Max0(cfg.maxRequeues)
    && (f.db.task.status.TaskCompleted? ==> f.read == map[] && f.work == map[] && f.last == map[])
  }

  ghost predicate Counts(p: L.Params, cfg: M.Config, f: State) {
    L.AloneInv(p, f.lease) && AllCount(f) && RowCounts(cfg, f)
  }

  predicate Concerned(f: State, t: nat) {
    t in f.read || t in f.work || t in f.last
  }

  /** Only the holder of the key has anything to do with the task. */
  lemma OnlyHolder(p: L.Params, f: State, t: nat, u: nat)
    requires p.Valid() && !L.LandsLate(p) && L.AloneInv(p, f.lease) && AllCount(f)
    requires L.Acting(f.lease, t) || L.Relying(f.lease, t)
    requires Concerned(f, u)
    ensures t == u
  {
    assert WorkCounts(f, u) && LastCounts(f, u) && ReadCounts(f, u);
    L.ActingIsHeld(p, f.lease, t);
    L.ActingIsHeld(p, f.lease, u);
  }

  /** A worker that acts does not wait to start. */
  lemma NotReading(f: State, t: nat)
    requires AllCount(f) && L.Acting(f.lease, t)
    ensures t !in f.read
  {
    assert ReadCounts(f, t);
  }

  // ----- a step of an executor -----

  /** A commit writes the session's count and the task running. */
  lemma WorkTask(cfg: M.Config, s: M.State, e: M.Event)
    requires s.exec.Some? && Starting(s.exec.value) && M.IsWork(e) && M.Apply(cfg, s, e).Some?
    ensures var r := M.Apply(cfg, s, e).value; var mine := s.exec.value.s.task;
            && (r.db.task == s.db.task || (r.db.task.retryCount == mine.retryCount && r.db.task.status.Running?))
            && (r.exec.Some? ==> r.exec.value.s.task.retryCount == mine.retryCount && Starting(r.exec.value))
  {
  }

  /** Column by column, a row with the session's count does not lose recoveries. */
  lemma Merged(row: M.Task, seen: M.Task, mine: M.Task, task: M.Task)
    requires Counted(row, seen, mine) && (task == seen || task.retryCount == mine.retryCount)
    ensures row.retryCount <= Merge(row, seen, task).retryCount
    ensures Counted(Merge(row, seen, task), task, mine)
  {
  }

  lemma WorkCountsOn(p: L.Params, cfg: M.Config, f: State, t: nat, e: M.Event)
    requires p.Valid() && !L.LandsLate(p) && Counts(p, cfg, f) && DoWork(cfg, f, t, e).Some?
    ensures RowCounts(cfg, DoWork(cfg, f, t, e).value) && WorkCounts(DoWork(cfg, f, t, e).value, t)
  {
    assert WorkCounts(f, t);
    var w := f.work[t];
    WorkTask(cfg, Lens(f, w), e);
    var r := M.Apply(cfg, Lens(f, w), e).value;
    Merged(f.db.task, w.seen, w.x.s.task, r.db.task);
    SameHistory(cfg, Lens(f, w), e);
  }

  lemma SameHistory(cfg: M.Config, s: M.State, e: M.Event)
    requires s.exec.Some? && M.IsWork(e) && M.Apply(cfg, s, e).Some?
    ensures M.Apply(cfg, s, e).value.hist.requeues == s.hist.requeues
  {
  }

  lemma WorkKeepsCount(p: L.Params, cfg: M.Config, f: State, t: nat, e: M.Event)
    requires p.Valid() && !L.LandsLate(p) && Counts(p, cfg, f) && DoWork(cfg, f, t, e).Some?
    ensures Counts(p, cfg, DoWork(cfg, f, t, e).value)
  {
    var g := DoWork(cfg, f, t, e).value;
    WorkCountsOn(p, cfg, f, t, e);
    NotReading(f, t);
    forall u {:trigger WorkCounts(g, u)} ensures WorkCounts(g, u) {
      if u in g.work { OnlyHolder(p, f, t, u); }
    }
    forall u {:trigger LastCounts(g, u)} ensures LastCounts(g, u) {
      assert LastCounts(f, u);
      if u in g.last { OnlyHolder(p, f, t, u); }
    }
    forall u {:trigger ReadCounts(g, u)} ensures ReadCounts(g, u) {
      if u in g.read { OnlyHolder(p, f, t, u); }
    }
  }

  // ----- the protocol's steps -----

  /** A step that leaves the tables alone, and everybody who is still there where they were. */
  lemma SameCounts(cfg: M.Config, f: State, g: State)
    requires AllCount(f) && RowCounts(cfg, f) && g.db == f.db && g.hist == f.hist
    requires forall t :: t in g.read ==>
               t in f.read && g.read[t] == f.read[t] && t in g.lease.leases && g.lease.leases[t].Waiting?
    requires forall t :: t in g.work ==> t in f.work && g.work[t] == f.work[t] && L.Inside(g.lease, t)
    requires forall t :: t in g.last ==>
               t in f.last && g.last[t] == f.last[t] && t in g.lease.leases && g.lease.leases[t].Committing?
    ensures AllCount(g) && RowCounts(cfg, g)
  {
    forall u {:trigger WorkCounts(g, u)} ensures WorkCounts(g, u) { assert WorkCounts(f, u); }
    forall u {:trigger LastCounts(g, u)} ensures LastCounts(g, u) { assert LastCounts(f, u); }
    forall u {:trigger ReadCounts(g, u)} ensures ReadCounts(g, u) { assert ReadCounts(f, u); }
    assert f.read == map[] ==> g.read == map[];
    assert f.work == map[] ==> g.work == map[];
    assert f.last == map[] ==> g.last == map[];
  }

  lemma OtherKeepsCount(p: L.Params, cfg: M.Config, f: State, e: L.Event)
    requires p.Valid() && !L.LandsLate(p) && Counts(p, cfg, f) && DoProtocol(p, f, e).Some?
    requires !e.Start? && !e.Finish? && !e.Landed?
    ensures Counts(p, cfg, DoProtocol(p, f, e).value)
  {
    var g := DoProtocol(p, f, e).value;
    L.AloneStep(p, f.lease, e);
    forall u | u in g.last ensures u in g.lease.leases && g.lease.leases[u].Committing? {
      assert LastCounts(f, u);
    }
    SameCounts(cfg, f, g);
  }

  lemma ReadKeepsCount(p: L.Params, cfg: M.Config, f: State, t: nat)
    requires Counts(p, cfg, f) && DoRead(f, t).Some?
    ensures Counts(p, cfg, DoRead(f, t).value)
  {
    var g := DoRead(f, t).value;
    forall u {:trigger WorkCounts(g, u)} ensures WorkCounts(g, u) { assert WorkCounts(f, u); }
    forall u {:trigger LastCounts(g, u)} ensures LastCounts(g, u) { assert LastCounts(f, u); }
    forall u {:trigger ReadCounts(g, u)} ensures ReadCounts(g, u) { assert ReadCounts(f, u); }
  }

  lemma StartKeepsCount(p: L.Params, cfg: M.Config, f: State, t: nat)
    requires p.Valid() && !L.LandsLate(p) && Counts(p, cfg, f) && DoProtocol(p, f, L.Start(t)).Some?
    ensures Counts(p, cfg, DoProtocol(p, f, L.Start(t)).value)
  {
    var g := DoProtocol(p, f, L.Start(t)).value;
    L.AloneStep(p, f.lease, L.Start(t));
    assert ReadCounts(f, t);
    forall u {:trigger WorkCounts(g, u)} ensures WorkCounts(g, u) { assert WorkCounts(f, u); }
    forall u {:trigger LastCounts(g, u)} ensures LastCounts(g, u) { assert LastCounts(f, u); }
    forall u {:trigger ReadCounts(g, u)} ensures ReadCounts(g, u) { assert ReadCounts(f, u); }
  }

  lemma FinishKeepsCount(p: L.Params, cfg: M.Config, f: State, t: nat)
    requires p.Valid() && !L.LandsLate(p) && Counts(p, cfg, f) && DoProtocol(p, f, L.Finish(t)).Some?
    ensures Counts(p, cfg, DoProtocol(p, f, L.Finish(t)).value)
  {
    var g := DoProtocol(p, f, L.Finish(t)).value;
    L.AloneStep(p, f.lease, L.Finish(t));
    assert WorkCounts(f, t);
    forall u {:trigger WorkCounts(g, u)} ensures WorkCounts(g, u) { assert WorkCounts(f, u); }
    forall u {:trigger LastCounts(g, u)} ensures LastCounts(g, u) { assert LastCounts(f, u); }
    forall u {:trigger ReadCounts(g, u)} ensures ReadCounts(g, u) { assert ReadCounts(f, u); }
    assert f.work == map[] ==> f.work - {t} == map[];
  }

  /** Whoever lands is the last one that was concerned with the task. */
  lemma NobodyElse(p: L.Params, f: State, t: nat)
    requires p.Valid() && !L.LandsLate(p) && L.AloneInv(p, f.lease) && AllCount(f)
    requires t in f.lease.leases && f.lease.leases[t].Committing?
    ensures f.read == map[] && f.work == map[] && f.last - {t} == map[]
  {
    assert WorkCounts(f, t) && ReadCounts(f, t);
    forall u | u in f.read ensures false { OnlyHolder(p, f, t, u); }
    forall u | u in f.work ensures false { OnlyHolder(p, f, t, u); }
    forall u | u in f.last ensures u == t { OnlyHolder(p, f, t, u); }
  }

  lemma LandKeepsCount(p: L.Params, cfg: M.Config, f: State, t: nat)
    requires p.Valid() && !L.LandsLate(p) && Counts(p, cfg, f) && DoProtocol(p, f, L.Landed(t)).Some?
    ensures Counts(p, cfg, DoProtocol(p, f, L.Landed(t)).value)
  {
    var g := DoProtocol(p, f, L.Landed(t)).value;
    L.AloneStep(p, f.lease, L.Landed(t));
    NobodyElse(p, f, t);
    if t in f.last {
      assert LastCounts(f, t);
      Merged(f.db.task, f.last[t].seen, f.last[t].s.task, f.last[t].s.task);
    }
    assert g.read == map[] && g.work == map[] && g.last == map[];
    forall u {:trigger WorkCounts(g, u)} ensures WorkCounts(g, u) {}
    forall u {:trigger LastCounts(g, u)} ensures LastCounts(g, u) {}
    forall u {:trigger ReadCounts(g, u)} ensures ReadCounts(g, u) {}
  }

  lemma CommitFailsKeepsCount(p: L.Params, cfg: M.Config, f: State, t: nat)
    requires p.Valid() && !L.LandsLate(p) && Counts(p, cfg, f) && Apply(p, cfg, f, CommitFails(t)).Some?
    ensures Counts(p, cfg, Apply(p, cfg, f, CommitFails(t)).value)
  {
    var g := Apply(p, cfg, f, CommitFails(t)).value;
    L.AloneStep(p, f.lease, L.Landed(t));
    NobodyElse(p, f, t);
    SameCounts(cfg, f, g);
  }

  // ----- steps from outside -----

  /** The sweep counts on a running row, an operator's retry leaves the count alone. */
  lemma OutsideKeepsCount(p: L.Params, cfg: M.Config, f: State, e: M.Event)
    requires Counts(p, cfg, f) && (e.Sweep? || e.OperatorRetry? || e.MissionMoves?) && DoOutside(cfg, f, e).Some?
    ensures Counts(p, cfg, DoOutside(cfg, f, e).value)
  {
    var g := DoOutside(cfg, f, e).value;
    forall u {:trigger WorkCounts(g, u)} ensures WorkCounts(g, u) { assert WorkCounts(f, u); }
    forall u {:trigger LastCounts(g, u)} ensures LastCounts(g, u) { assert LastCounts(f, u); }
    forall u {:trigger ReadCounts(g, u)} ensures ReadCounts(g, u) { assert ReadCounts(f, u); }
  }

  lemma StepCounts(p: L.Params, cfg: M.Config, f: State, e: Event)
    requires p.Valid() && !L.LandsLate(p) && Counts(p, cfg, f) && Apply(p, cfg, f, e).Some?
    ensures Counts(p, cfg, Apply(p, cfg, f, e).value)
  {
    match e
    case Protocol(l) =>
      if l.Start? { StartKeepsCount(p, cfg, f, l.t); }
      else if l.Finish? { FinishKeepsCount(p, cfg, f, l.t); }
      else if l.Landed? { LandKeepsCount(p, cfg, f, l.t); }
      else { OtherKeepsCount(p, cfg, f, l); }
    case Read(t) => ReadKeepsCount(p, cfg, f, t);
    case Work(t, w) => WorkKeepsCount(p, cfg, f, t, w);
    case CommitFails(t) => CommitFailsKeepsCount(p, cfg, f, t);
    case SweepOrphan(_) => OutsideKeepsCount(p, cfg, f, M.Sweep);
    case Operator(o) => OutsideKeepsCount(p, cfg, f, o);
  }

  lemma {:induction false} RunCounts(p: L.Params, cfg: M.Config, f: State, es: seq<Event>)
    requires p.Valid() && !L.LandsLate(p) && Counts(p, cfg, f) && Run(p, cfg, f, es).Some?
    ensures Counts(p, cfg, Run(p, cfg, f, es).value)
    decreases |es|
  {
    if es != [] {
      RunCounts(p, cfg, f, es[..|es| - 1]);
      StepCounts(p, cfg, Run(p, cfg, f, es[..|es| - 1]).value, es[|es| - 1]);
    }
  }

  lemma InitCounts(p: L.Params, cfg: M.Config, policy: Policy)
    ensures Counts(p, cfg, Init(policy))
  {
    var f := Init(policy);
    forall u {:trigger WorkCounts(f, u)} ensures WorkCounts(f, u) {}
    forall u {:trigger LastCounts(f, u)} ensures LastCounts(f, u) {}
    forall u {:trigger ReadCounts(f, u)} ensures ReadCounts(f, u) {}
  }

  /** If no last commit can land late, a task is requeued at most `maxRequeues` times over its whole
      life, in every run: also when a sweep's transaction comes long after its look at the key. */
  lemma FleetRequeuesBounded(p: L.Params, cfg: M.Config, policy: Policy, es: seq<Event>)
    requires p.Valid() && !L.LandsLate(p) && Run(p, cfg, Init(policy), es).Some?
    ensures Run(p, cfg, Init(policy), es).value.hist.requeues <= P.Max0(cfg.maxRequeues)
  {
    InitCounts(p, cfg, policy);
    RunCounts(p, cfg, Init(policy), es);
  }

  // ----- completed is final -----

  lemma CompletedStep(p: L.Params, cfg: M.Config, f: State, e: Event)
    requires Counts(p, cfg, f) && f.db.task.status.TaskCompleted? && Apply(p, cfg, f, e).Some?
    ensures Apply(p, cfg, f, e).value.db.task == f.db.task
    ensures Moves(e) || Apply(p, cfg, f, e).value.db.mission == f.db.mission
  {
  }

  /** An operator moves the mission. */
  predicate Moves(e: Event) {
    e.Operator? && e.o.MissionMoves?
  }

  predicate NoMoves(es: seq<Event>) {
    forall i :: 0 <= i < |es| ==> !Moves(es[i])
  }

  lemma {:induction false} CompletedStays(p: L.Params, cfg: M.Config, f: State, es: seq<Event>)
    requires p.Valid() && !L.LandsLate(p) && Counts(p, cfg, f) && f.db.task.status.TaskCompleted?
    requires Run(p, cfg, f, es).Some?
    ensures Run(p, cfg, f, es).value.db.task == f.db.task
    ensures NoMoves(es) ==> Run(p, cfg, f, es).value.db.mission == f.db.mission
    decreases |es|
  {
    if es != [] {
      var rest := es[..|es| - 1];
      CompletedStays(p, cfg, f, rest);
      RunCounts(p, cfg, f, rest);
      CompletedStep(p, cfg, Run(p, cfg, f, rest).value, es[|es| - 1]);
    }
  }

  // ----- late: more recoveries than the cap -----

  function Row(status: M.TaskStatus, retries: nat): M.Task {
    M.Task(status, retries, None)
  }

  /** The session of a later execution. */
  function Again(retries: nat): M.Session {
    M.Session(Row(M.Running, retries), None, [])
  }

  /** The first prompt is saved and nothing was ever sent. */
  function Unsent(lease: L.State, policy: Policy, r: Request, task: M.Task, work: map<nat, Worker>): State {
    State(lease, R.Tables(policy, r, task, M.MissionFailed, []), M.Init(policy).hist, map[], work, map[])
  }

  /** Worker 0 fails the task in no time and releases the key. */
  lemma FirstGone(p: L.Params, cfg: M.Config, policy: Policy, r: Request)
    requires p.Valid() && r.maxOutputTokens == policy.maxOutputTokens
    ensures Reaches(p, cfg, policy, Unsent(L.State(0.0, None, map[], 1), policy, r, Row(M.TaskFailed, 0), map[]))
  {
    Initially(p, cfg, policy);
    FirstLoads(policy);
    Joins(p, cfg, policy, Init(policy), R.FRESH);
    var f := WithWorker(Init(policy).(lease := Taken(p, L.Init)), 0, M.Loaded(R.FRESH));
    R.Prompting(cfg, policy, r);
    var begin := Lens(f, f.work[0]);
    assert begin == M.Init(policy).(exec := Some(M.Loaded(R.FRESH)));
    R.WorksOn(cfg, begin, R.AtPrompt(policy, r), M.NoProvider);
    Works(p, cfg, policy, f, 0, Doomed(policy, r));
    var g := Progress(f, 0, Doomed(policy, r));
    FirstLands(p, cfg, policy, r, g);
  }

  lemma FirstLands(p: L.Params, cfg: M.Config, policy: Policy, r: Request, f: State)
    requires p.Valid() && Reaches(p, cfg, policy, f) && f.lease == Taken(p, L.Init)
    requires f.read == map[] && f.last == map[]
    requires f.db == Doomed(policy, r).db && f.hist == M.Init(policy).hist
    requires f.work == map[0 := Worker(M.Closing(M.Fail(R.FRESH)), R.FRESH.task)]
    ensures Reaches(p, cfg, policy, Unsent(L.State(0.0, None, map[], 1), policy, r, Row(M.TaskFailed, 0), map[]))
  {
    Finishes(p, cfg, policy, f, 0);
    var l := f.lease.(leases := f.lease.leases[0 := L.Committing(0.0, 0.0)]);
    var g := f.(lease := l, work := f.work - {0}, last := f.last[0 := Pending(M.Fail(R.FRESH), R.FRESH.task, None)]);
    Lands(p, cfg, policy, g, 0);
    var h := AfterLanding(g, 0);
    assert h.work == map[] && h.last == map[] && h.lease.leases - {0} == map[];
    Releases(p, cfg, policy, h, 0);
  }

  /** An operator retries the task, and worker 1 is to fail it again, without ever having committed. */
  lemma SecondFails(p: L.Params, cfg: M.Config, policy: Policy, r: Request)
    requires p.Valid() && r.maxOutputTokens == policy.maxOutputTokens
    ensures Reaches(p, cfg, policy,
              Unsent(L.Failing(p, 1, 0.0), policy, r, Row(M.Queued, 0),
                     map[1 := Worker(M.Closing(M.Fail(Again(1))), Row(M.Queued, 0))]))
  {
    FirstGone(p, cfg, policy, r);
    var l := L.State(0.0, None, map[], 1);
    Retries(p, cfg, policy, Unsent(l, policy, r, Row(M.TaskFailed, 0), map[]));
    var f := Unsent(l, policy, r, Row(M.Queued, 0), map[]);
    assert Loads(f.db, Again(1));
    StartsLagging(p, cfg, policy, f, 1, Again(1));
    var g := WithWorker(f.(lease := L.Failing(p, 1, 0.0)), 1, M.Loaded(Again(1)));
    var s := Lens(g, g.work[1]);
    R.Resuming(cfg, policy, r, s, Again(1));
    R.WorksOn(cfg, s, s.(exec := Some(M.Calling(Again(1), 1, r, policy, false))), M.NoProvider);
    Works(p, cfg, policy, g, 1, s.(exec := Some(M.Closing(M.Fail(Again(1))))));
    assert Progress(g, 1, s.(exec := Some(M.Closing(M.Fail(Again(1)))))).work
        == map[1 := Worker(M.Closing(M.Fail(Again(1))), Row(M.Queued, 0))];
  }

  /** What worker 1 will commit, late. */
  const OLD := Pending(M.Fail(Again(1)), Row(M.Queued, 0), None)

  /** The first call has been answered, `requeues` recoveries have been counted. */
  function AnsweredAt(
    lease: L.State, policy: Policy, r: Request, text: string, task: M.Task, requeues: nat,
    work: map<nat, Worker>, last: map<nat, Pending>): State
  {
    State(lease, R.Answer1(policy, r, Again(1), M.MissionFailed, [], text).(task := task),
          M.History(1, [0], 0, requeues), map[], work, last)
  }

  function Third(p: L.Params, policy: Policy, r: Request, text: string, gap: real): State {
    AnsweredAt(Behind(p, 1, gap), policy, r, text, Row(M.Running, 1), 0,
               map[2 := Worker(M.Judging(Again(1), text, false), Row(M.Running, 1))], map[1 := OLD])
  }

  /** Worker 2 has its call answered while the commit of worker 1 is on its way. */
  lemma ThirdAnswers(p: L.Params, cfg: M.Config, policy: Policy, r: Request, reply: M.Reply, gap: real)
    requires p.Valid() && L.CanLandLate(p, gap) && r.maxOutputTokens == policy.maxOutputTokens
    requires R.Affords(cfg, policy, r, []) && R.ForFree(r, reply)
    ensures Reaches(p, cfg, policy, Third(p, policy, r, reply.text, gap))
  {
    SecondFails(p, cfg, policy, r);
    var w := Worker(M.Closing(M.Fail(Again(1))), Row(M.Queued, 0));
    var f := Unsent(L.Failing(p, 1, 0.0), policy, r, Row(M.Queued, 0), map[1 := w]);
    assert Loads(f.db, Again(1));
    CommitsLate(p, cfg, policy, f, 1, gap, w, Again(1));
    var g := Late(p, f, 1, gap, w, Again(1));
    var s := Lens(g, g.work[2]);
    AnswerAgain(cfg, policy, r, reply, s);
    var t := M.State(R.Answer1(policy, r, Again(1), M.MissionFailed, [], reply.text),
                     Some(M.Judging(Again(1), reply.text, false)), M.History(1, [0], 0, 0));
    Works(p, cfg, policy, g, 2, t);
    assert Progress(g, 2, t).work == map[2 := Worker(M.Judging(Again(1), reply.text, false), Row(M.Running, 1))];
  }

  lemma AnswerAgain(cfg: M.Config, policy: Policy, r: Request, reply: M.Reply, s: M.State)
    requires R.Affords(cfg, policy, r, []) && R.ForFree(r, reply)
    requires s == M.State(R.Tables(policy, r, Row(M.Queued, 0), M.MissionFailed, []),
                          Some(M.Loaded(Again(1))), M.Init(policy).hist)
    ensures R.Works(cfg, s, M.State(R.Answer1(policy, r, Again(1), M.MissionFailed, [], reply.text),
                                    Some(M.Judging(Again(1), reply.text, false)), M.History(1, [0], 0, 0)))
  {
    R.Resuming(cfg, policy, r, s, Again(1));
    R.Entering(cfg, policy, r, s, s.(exec := Some(M.Calling(Again(1), 1, r, policy, false))), Again(1));
    var t := s.(exec := Some(M.Ready(Again(1), R.FirstCall(policy, r, []))));
    R.Answering(cfg, policy, r, t, Again(1), reply);
    assert R.OneMore(t, 1) == M.History(1, [0], 0, 0);
    R.WorksBoth(cfg, s, t, M.State(R.Answer1(policy, r, Again(1), M.MissionFailed, [], reply.text),
                                   Some(M.Judging(Again(1), reply.text, false)), M.History(1, [0], 0, 0)));
  }

  /** Worker 1 alone is left, at its last commit, with the key free. */
  function OnlyOld(p: L.Params, gap: real): L.State {
    var at := Expiry(p, L.Ended(p, 1, gap).now);
    L.State(at, None, map[1 := L.Committing(0.0, L.Ended(p, 1, gap).now)], 3)
  }

  lemma ThirdErrs(p: L.Params, cfg: M.Config, policy: Policy, r: Request, text: string, gap: real)
    requires p.Valid() && Reaches(p, cfg, policy, Third(p, policy, r, text, gap))
    ensures Reaches(p, cfg, policy,
              AnsweredAt(OnlyOld(p, gap), policy, r, text, Row(M.Running, 1), 0, map[], map[1 := OLD]))
  {
    var f := Third(p, policy, r, text, gap);
    Errs(p, cfg, policy, f, 2);
    assert f.lease.leases - {2} == OnlyOld(p, gap).leases;
  }

  /** Sweeps bring the count from `count` to `to`. */
  lemma Swept(
    p: L.Params, cfg: M.Config, policy: Policy, r: Request, text: string, l: L.State,
    count: nat, requeues: nat, last: map<nat, Pending>, to: nat, total: nat)
    requires !L.Leased(l) && count <= to <= cfg.maxRequeues && total - requeues == to - count
    requires Reaches(p, cfg, policy, AnsweredAt(l, policy, r, text, Row(M.Running, count), requeues, map[], last))
    ensures Reaches(p, cfg, policy, AnsweredAt(l, policy, r, text, Row(M.Running, to), total, map[], last))
  {
    var f := AnsweredAt(l, policy, r, text, Row(M.Running, count), requeues, map[], last);
    Sweeps(p, cfg, policy, f, to - count);
    assert Requeued(f, to - count) == AnsweredAt(l, policy, r, text, Row(M.Running, to), total, map[], last);
  }

  /** The old commit resets the count. */
  lemma OldLands(
    p: L.Params, cfg: M.Config, policy: Policy, r: Request, text: string, gap: real, count: nat, requeues: nat)
    requires Reaches(p, cfg, policy,
               AnsweredAt(OnlyOld(p, gap), policy, r, text, Row(M.Running, count), requeues, map[], map[1 := OLD]))
    ensures Reaches(p, cfg, policy,
              AnsweredAt(Free(p, gap), policy, r, text, Row(M.TaskFailed, 1), requeues, map[], map[]))
  {
    var f := AnsweredAt(OnlyOld(p, gap), policy, r, text, Row(M.Running, count), requeues, map[], map[1 := OLD]);
    Lands(p, cfg, policy, f, 1);
    assert f.lease.leases[1 := L.Leaving] == map[1 := L.Leaving] && f.last - {1} == map[];
  }

  /** Worker 1 is done, and the key is free. */
  function Free(p: L.Params, gap: real): L.State {
    OnlyOld(p, gap).(leases := map[1 := L.Leaving])
  }

  /** Worker 2 errs, sweeps bring the count to the cap, and then the old commit resets it. */
  lemma CountIsReset(p: L.Params, cfg: M.Config, policy: Policy, r: Request, text: string, gap: real)
    requires p.Valid() && cfg.maxRequeues >= 1 && Reaches(p, cfg, policy, Third(p, policy, r, text, gap))
    ensures Reaches(p, cfg, policy,
              AnsweredAt(Free(p, gap), policy, r, text, Row(M.TaskFailed, 1), cfg.maxRequeues - 1, map[], map[]))
  {
    ThirdErrs(p, cfg, policy, r, text, gap);
    Swept(p, cfg, policy, r, text, OnlyOld(p, gap), 1, 0, map[1 := OLD], cfg.maxRequeues, cfg.maxRequeues - 1);
    OldLands(p, cfg, policy, r, text, gap, cfg.maxRequeues, cfg.maxRequeues - 1);
  }

  /** The operator retries once more, and worker 3 starts from the answer. */
  lemma FourthStarts(p: L.Params, cfg: M.Config, policy: Policy, r: Request, text: string, l: L.State, requeues: nat)
    requires p.Valid() && l.key.None? && l.next == 3 && 3 !in l.leases
    requires Reaches(p, cfg, policy, AnsweredAt(l, policy, r, text, Row(M.TaskFailed, 1), requeues, map[], map[]))
    ensures Reaches(p, cfg, policy,
              AnsweredAt(Taken(p, l), policy, r, text, Row(M.Queued, 1), requeues,
                         map[3 := Worker(M.Loaded(Again(2)), Row(M.Queued, 1))], map[]))
  {
    Retries(p, cfg, policy, AnsweredAt(l, policy, r, text, Row(M.TaskFailed, 1), requeues, map[], map[]));
    var g := AnsweredAt(l, policy, r, text, Row(M.Queued, 1), requeues, map[], map[]);
    assert Loads(g.db, Again(2));
    Joins(p, cfg, policy, g, Again(2));
  }

  /** It commits its start and errs. */
  lemma FourthErrs(p: L.Params, cfg: M.Config, policy: Policy, r: Request, text: string, l: L.State, requeues: nat)
    requires p.Valid() && l.key.None? && l.next == 3 && 3 !in l.leases
    requires Reaches(p, cfg, policy, AnsweredAt(l, policy, r, text, Row(M.TaskFailed, 1), requeues, map[], map[]))
    ensures Reaches(p, cfg, policy,
              AnsweredAt(l.(next := 4), policy, r, text, Row(M.Running, 2), requeues, map[], map[]))
  {
    FourthStarts(p, cfg, policy, r, text, l, requeues);
    FourthJudges(p, cfg, policy, r, text, Taken(p, l), requeues);
    var h := AnsweredAt(Taken(p, l), policy, r, text, Row(M.Running, 2), requeues,
                        map[3 := Worker(Verdict(cfg, text), Row(M.Running, 2))], map[]);
    Errs(p, cfg, policy, h, 3);
    assert h.lease.leases - {3} == l.leases;
  }

  /** So the sweeps go on. */
  lemma SweepsGoOn(p: L.Params, cfg: M.Config, policy: Policy, r: Request, text: string, l: L.State, k: nat, total: nat)
    requires p.Valid() && l.key.None? && l.next == 3 && 3 !in l.leases && 2 <= cfg.maxRequeues
    requires total - k == cfg.maxRequeues - 2
    requires Reaches(p, cfg, policy, AnsweredAt(l, policy, r, text, Row(M.TaskFailed, 1), k, map[], map[]))
    ensures Reaches(p, cfg, policy,
              AnsweredAt(l.(next := 4), policy, r, text, Row(M.Running, cfg.maxRequeues), total, map[], map[]))
  {
    FourthErrs(p, cfg, policy, r, text, l, k);
    Swept(p, cfg, policy, r, text, l.(next := 4), 2, k, map[], cfg.maxRequeues, total);
  }

  /** Twice the cap, less three. */
  lemma ManyRequeues(p: L.Params, cfg: M.Config, policy: Policy, r: Request, text: string, gap: real) returns (f: State)
    requires p.Valid() && cfg.maxRequeues >= 2 && Reaches(p, cfg, policy, Third(p, policy, r, text, gap))
    ensures Reaches(p, cfg, policy, f) && f.hist.requeues == 2 * cfg.maxRequeues - 3
  {
    var l, cap: nat, total: nat := Free(p, gap), cfg.maxRequeues, 2 * cfg.maxRequeues - 3;
    CountIsReset(p, cfg, policy, r, text, gap);
    SweepsGoOn(p, cfg, policy, r, text, l, cap - 1, total);
    f := AnsweredAt(l.(next := 4), policy, r, text, Row(M.Running, cap), total, map[], map[]);
  }

  function Verdict(cfg: M.Config, text: string): M.Exec {
    if cfg.valid(text) then M.Storing(Again(2), text) else M.Repairing(Again(2), text)
  }

  lemma FourthJudges(p: L.Params, cfg: M.Config, policy: Policy, r: Request, text: string, l: L.State, requeues: nat)
    requires L.Inside(l, 3)
    requires Reaches(p, cfg, policy,
               AnsweredAt(l, policy, r, text, Row(M.Queued, 1), requeues,
                          map[3 := Worker(M.Loaded(Again(2)), Row(M.Queued, 1))], map[]))
    ensures Reaches(p, cfg, policy,
              AnsweredAt(l, policy, r, text, Row(M.Running, 2), requeues,
                         map[3 := Worker(Verdict(cfg, text), Row(M.Running, 2))], map[]))
  {
    var f := AnsweredAt(l, policy, r, text, Row(M.Queued, 1), requeues,
                        map[3 := Worker(M.Loaded(Again(2)), Row(M.Queued, 1))], map[]);
    var s := Lens(f, f.work[3]);
    R.Replaying(cfg, s, Again(2), text);
    R.Judged(cfg, s, s.(exec := Some(M.Judging(Again(2), text, false))), Again(2), text);
    var t := s.(db := M.Commit(s.db, Again(2)), exec := Some(Verdict(cfg, text)));
    Works(p, cfg, policy, f, 3, t);
    assert Progress(f, 3, t).work == map[3 := Worker(Verdict(cfg, text), Row(M.Running, 2))];
  }

  /** Over all runs. */
  ghost predicate RequeuesKept(p: L.Params, cfg: M.Config, policy: Policy) {
    forall es {:trigger Run(p, cfg, Init(policy), es)} :: Run(p, cfg, Init(policy), es).Some? ==>
      Run(p, cfg, Init(policy), es).value.hist.requeues <= P.Max0(cfg.maxRequeues)
  }

  /** Over the runs in which no sweep is overtaken by a worker. */
  ghost predicate PromptRequeuesKept(p: L.Params, cfg: M.Config, policy: Policy) {
    forall es {:trigger Run(p, cfg, Init(policy), es)} :: Prompt(es) && Run(p, cfg, Init(policy), es).Some? ==>
      Run(p, cfg, Init(policy), es).value.hist.requeues <= P.Max0(cfg.maxRequeues)
  }

  /** The policy lets some call in. */
  ghost predicate Admits(cfg: M.Config, policy: Policy) {
    exists r :: Lets(cfg, policy, r)
  }

  ghost predicate Lets(cfg: M.Config, policy: Policy, r: Request) {
    R.Affords(cfg, policy, r, []) && r.maxOutputTokens == policy.maxOutputTokens
  }

  lemma PricedWhenAfforded(cfg: M.Config, policy: Policy, r: Request)
    requires R.Affords(cfg, policy, r, [])
    ensures PriceFor(r.provider, r.model).Some?
  {
  }

  /** For a cap of at least 4 and a policy that lets calls in: the sweep keeps to its cap over all runs
      if and only if no last commit can land late.  Overtaken sweeps make no difference. */
  lemma FleetRequeuesIff(p: L.Params, cfg: M.Config, policy: Policy)
    requires p.Valid() && cfg.maxRequeues >= 4 && Admits(cfg, policy)
    ensures RequeuesKept(p, cfg, policy) <==> !L.LandsLate(p)
    ensures PromptRequeuesKept(p, cfg, policy) <==> !L.LandsLate(p)
  {
    if L.LandsLate(p) {
      var gap: real :| L.CanLandLate(p, gap);
      var r :| Lets(cfg, policy, r);
      PricedWhenAfforded(cfg, policy, r);
      var reply := R.FreeAnswer(r, "");
      ThirdAnswers(p, cfg, policy, r, reply, gap);
      var f := ManyRequeues(p, cfg, policy, r, reply.text, gap);
      var es: seq<Event> :| Prompt(es) && Run(p, cfg, Init(policy), es) == Some(f);
    } else {
      forall es {:trigger Run(p, cfg, Init(policy), es)} | Run(p, cfg, Init(policy), es).Some?
        ensures Run(p, cfg, Init(policy), es).value.hist.requeues <= P.Max0(cfg.maxRequeues)
      {
        FleetRequeuesBounded(p, cfg, policy, es);
      }
    }
  }

  // ----- late: a completed task fails -----

  /** Over all runs a completed task's row stays as it is, and its mission's too unless an operator
      moves it. */
  ghost predicate CompletedIsFinal(p: L.Params) {
    forall cfg, policy, es, fs {:trigger Run(p, cfg, Run(p, cfg, Init(policy), es).value, fs)} ::
      Run(p, cfg, Init(policy), es).Some? ==>
        var f := Run(p, cfg, Init(policy), es).value;
        f.db.task.status.TaskCompleted? && Run(p, cfg, f, fs).Some? ==> Stays(f.db, fs, Run(p, cfg, f, fs).value.db)
  }

  ghost predicate Stays(db: M.Db, es: seq<Event>, db': M.Db) {
    db'.task == db.task && (NoMoves(es) ==> db'.mission == db.mission)
  }

  /** Worker 1 completes the task while worker 0's commit, which fails it, is on its way. */
  lemma CompletesFirst(p: L.Params, cfg: M.Config, policy: Policy, r: Request, reply: M.Reply, gap: real)
    returns (f: State)
    requires p.Valid() && L.CanLandLate(p, gap) && r.maxOutputTokens == policy.maxOutputTokens
    requires R.Affords(cfg, policy, r, []) && R.ForFree(r, reply) && cfg.valid(reply.text)
    ensures Reaches(p, cfg, policy, f) && f.db.task.status.TaskCompleted?
    ensures 0 in f.last && f.last[0] == Pending(M.Fail(R.FRESH), R.FRESH.task, None)
    ensures 0 in f.lease.leases && f.lease.leases[0].Committing?
  {
    FirstFailsLate(p, cfg, policy, r, gap);
    var g := FailingLate(p, policy, r, gap);
    assert Lens(g, g.work[1]) == R.Ledger(policy, r, [], M.Loaded(R.FRESH));
    R.Stores(cfg, policy, r, [], reply);
    var s := R.Output(policy, r, [], reply.text);
    Works(p, cfg, policy, g, 1, s);
    var h := Progress(g, 1, s);
    Finishes(p, cfg, policy, h, 1);
    var h1 := h.(lease := h.lease.(leases := h.lease.leases[1 := L.Committing(h.lease.leases[1].effect, h.lease.now)]),
                 work := h.work - {1}, last := h.last[1 := Pending(s.exec.value.s, s.db.task, None)]);
    Lands(p, cfg, policy, h1, 1);
    f := AfterLanding(h1, 1);
  }

  lemma FailsAfterwards(p: L.Params, cfg: M.Config, f: State)
    requires f.db.task.status.TaskCompleted? && 0 in f.last && f.last[0] == Pending(M.Fail(R.FRESH), R.FRESH.task, None)
    requires 0 in f.lease.leases && f.lease.leases[0].Committing?
    ensures Run(p, cfg, f, [Protocol(L.Landed(0))]).Some?
    ensures var g := Run(p, cfg, f, [Protocol(L.Landed(0))]).value;
            g.db.task.status.TaskFailed? && g.db.mission.MissionFailed?
  {
    assert [Protocol(L.Landed(0))][..0] == [];
    assert Run(p, cfg, f, []) == Some(f);
    assert Run(p, cfg, f, [Protocol(L.Landed(0))]) == Apply(p, cfg, f, Protocol(L.Landed(0)));
  }

  const ANY := M.Config(1, 0, _ => true, _ => true)

  lemma CompletedFails(p: L.Params, r: Request)
    requires p.Valid() && L.LandsLate(p) && PriceFor(r.provider, r.model).Some?
    ensures !CompletedIsFinal(p)
  {
    var gap: real :| L.CanLandLate(p, gap);
    var policy := Policy(WorstCase(r).value + 1, 1, 1, 0, r.maxOutputTokens);
    assert R.Affords(ANY, policy, r, []);
    var reply := R.FreeAnswer(r, "");
    var f := CompletesFirst(p, ANY, policy, r, reply, gap);
    FailsAfterwards(p, ANY, f);
    var es: seq<Event> :| Prompt(es) && Run(p, ANY, Init(policy), es) == Some(f);
    assert Run(p, ANY, f, [Protocol(L.Landed(0))]).value.db.task != f.db.task;
  }

  lemma Mock() returns (r: Request)
    ensures PriceFor(r.provider, r.model).Some?
  {
    var provider, model := "mock", "any";
    assert PriceFor(provider, model) == Some(Price(0, 0));
    r := Request(provider, model, 0, 0);
  }

  /** A completed task and its mission stay as they are over all runs if and only if no last commit can land late:
      otherwise a worker that failed can turn another's completed task and mission into failed ones. */
  lemma FleetCompletedIff(p: L.Params)
    requires p.Valid()
    ensures CompletedIsFinal(p) <==> !L.LandsLate(p)
  {
    if L.LandsLate(p) {
      var r := Mock();
      CompletedFails(p, r);
    } else {
      forall cfg, policy, es, fs
        | Run(p, cfg, Init(policy), es).Some? && Run(p, cfg, Init(policy), es).value.db.task.status.TaskCompleted?
          && Run(p, cfg, Run(p, cfg, Init(policy), es).value, fs).Some?
        ensures var f := Run(p, cfg, Init(policy), es).value; Stays(f.db, fs, Run(p, cfg, f, fs).value.db)
      {
        InitCounts(p, cfg, policy);
        RunCounts(p, cfg, Init(policy), es);
        CompletedStays(p, cfg, Run(p, cfg, Init(policy), es).value, fs);
      }
    }
  }

  /** With the shipped constants both hold exactly when stamps and last commits take no time. */
  lemma DefaultFleetRecovers(lag: real, commit: real, cfg: M.Config, policy: Policy)
    requires lag >= 0.0 && commit >= 0.0 && cfg.maxRequeues == 10 && Admits(cfg, policy)
    ensures RequeuesKept(L.Defaults(lag, commit), cfg, policy) <==> lag == 0.0 && commit == 0.0
    ensures CompletedIsFinal(L.Defaults(lag, commit)) <==> lag == 0.0 && commit == 0.0
  {
    var p := L.Defaults(lag, commit);
    L.DefaultsNeedInstantCommit(lag, commit);
    L.AloneIff(p);
    FleetRequeuesIff(p, cfg, policy);
    FleetCompletedIff(p);
  }
}
