/**
 What becomes of a task's mission in the fleet, whatever the timing: every last commit that lands
 completes the task together with its mission or fails it together with its mission, and apart from
 that only a sweep at the cap and an operator touch the mission.
 */
module FleetMissions {
  import opened Options
  import opened Budget
  import M = Metering
  import P = MeteringProofs
  import L = Lease
  import opened Fleet

  /** A session that has not ended its work leaves the mission alone. */
  ghost predicate SessionOk(x: M.Exec) {
    P.MissionAt(x) && (!x.Closing? ==> x.s.task.status.Running? && x.s.mission.None?)
  }

  ghost predicate WorkerOk(f: State, t: nat) {
    t in f.work ==> Executable(f.work[t].seen) && SessionOk(f.work[t].x)
  }

  ghost predicate PendingOk(f: State, t: nat) {
    t in f.last ==> Executable(f.last[t].seen) && SessionOk(M.Closing(f.last[t].s))
  }

  ghost predicate ReaderOk(f: State, t: nat) {
    t in f.read ==> Executable(f.read[t])
  }

  ghost predicate SessionsOk(f: State) {
    && (forall t {:trigger WorkerOk(f, t)} :: WorkerOk(f, t))
    && (forall t {:trigger PendingOk(f, t)} :: PendingOk(f, t))
    && (forall t {:trigger ReaderOk(f, t)} :: ReaderOk(f, t))
  }

  // ----- one step -----

  lemma WorkMission(cfg: M.Config, s: M.State, e: M.Event)
    requires s.exec.Some? && SessionOk(s.exec.value) && M.IsWork(e) && M.Apply(cfg, s, e).Some?
    ensures var r := M.Apply(cfg, s, e).value;
            && r.db.mission == s.db.mission && (r.db.task == s.db.task || r.db.task.status.Running?)
            && (r.exec.Some? ==> SessionOk(r.exec.value))
  {
  }

  lemma WorkKeepsSessions(cfg: M.Config, f: State, t: nat, e: M.Event)
    requires SessionsOk(f) && DoWork(cfg, f, t, e).Some?
    ensures var g := DoWork(cfg, f, t, e).value; SessionsOk(g) && P.Followed(f.db, false, g.db)
  {
    var g := DoWork(cfg, f, t, e).value;
    assert WorkerOk(f, t);
    WorkMission(cfg, Lens(f, f.work[t]), e);
    forall u {:trigger WorkerOk(g, u)} ensures WorkerOk(g, u) { assert WorkerOk(f, u); }
    forall u {:trigger PendingOk(g, u)} ensures PendingOk(g, u) { assert PendingOk(f, u); }
    forall u {:trigger ReaderOk(g, u)} ensures ReaderOk(g, u) { assert ReaderOk(f, u); }
  }

  lemma ProtocolKeepsSessions(p: L.Params, f: State, e: L.Event)
    requires SessionsOk(f) && DoProtocol(p, f, e).Some?
    ensures SessionsOk(DoProtocol(p, f, e).value)
  {
    var g := DoProtocol(p, f, e).value;
    forall u {:trigger WorkerOk(g, u)} ensures WorkerOk(g, u) { assert WorkerOk(f, u) && ReaderOk(f, u); }
    forall u {:trigger PendingOk(g, u)} ensures PendingOk(g, u) { assert WorkerOk(f, u) && PendingOk(f, u); }
    forall u {:trigger ReaderOk(g, u)} ensures ReaderOk(g, u) { assert ReaderOk(f, u); }
  }

  lemma OtherKeepsSessions(p: L.Params, cfg: M.Config, f: State, e: Event)
    requires SessionsOk(f) && Apply(p, cfg, f, e).Some? && !e.Protocol? && !e.Work?
    ensures SessionsOk(Apply(p, cfg, f, e).value)
  {
    var g := Apply(p, cfg, f, e).value;
    forall u {:trigger WorkerOk(g, u)} ensures WorkerOk(g, u) { assert WorkerOk(f, u); }
    forall u {:trigger PendingOk(g, u)} ensures PendingOk(g, u) { assert PendingOk(f, u); }
    forall u {:trigger ReaderOk(g, u)} ensures ReaderOk(g, u) { assert ReaderOk(f, u); }
  }

  lemma StepKeepsSessions(p: L.Params, cfg: M.Config, f: State, e: Event)
    requires SessionsOk(f) && Apply(p, cfg, f, e).Some?
    ensures SessionsOk(Apply(p, cfg, f, e).value)
  {
    match e
    case Protocol(l) => ProtocolKeepsSessions(p, f, l);
    case Work(t, w) => WorkKeepsSessions(cfg, f, t, w);
    case _ => OtherKeepsSessions(p, cfg, f, e);
  }

  lemma {:induction false} RunKeepsSessions(p: L.Params, cfg: M.Config, f: State, es: seq<Event>)
    requires SessionsOk(f) && Run(p, cfg, f, es).Some?
    ensures SessionsOk(Run(p, cfg, f, es).value)
    decreases |es|
  {
    if es != [] {
      RunKeepsSessions(p, cfg, f, es[..|es| - 1]);
      StepKeepsSessions(p, cfg, Run(p, cfg, f, es[..|es| - 1]).value, es[|es| - 1]);
    }
  }

  // ----- the mission -----

  /** Task and mission end together. */
  ghost predicate EndTogether(db: M.Db) {
    || (db.task.status.TaskCompleted? && db.mission.MissionCompleted?)
    || (db.task.status.TaskFailed? && db.mission.MissionFailed?)
  }

  lemma LandedTogether(f: State, t: nat)
    requires SessionsOk(f) && t in f.last
    ensures EndTogether(AfterLanding(f, t).db)
  {
    assert PendingOk(f, t);
  }

  lemma ProtocolFollows(p: L.Params, f: State, e: L.Event)
    requires SessionsOk(f) && DoProtocol(p, f, e).Some?
    ensures e.Landed? && e.t in f.last ==> EndTogether(DoProtocol(p, f, e).value.db)
    ensures !(e.Landed? && e.t in f.last) ==> DoProtocol(p, f, e).value.db == f.db
  {
    if e.Landed? && e.t in f.last {
      SomethingLands(p, f, e.t);
      LandedTogether(f, e.t);
    }
  }

  lemma OutsideFollows(cfg: M.Config, f: State, e: M.Event)
    requires (e.Sweep? || e.OperatorRetry? || e.MissionMoves?) && DoOutside(cfg, f, e).Some?
    ensures P.Followed(f.db, e.MissionMoves?, DoOutside(cfg, f, e).value.db)
  {
  }

  lemma NoSessions(policy: Policy)
    ensures SessionsOk(Init(policy))
  {
    var f := Init(policy);
    forall u {:trigger WorkerOk(f, u)} ensures WorkerOk(f, u) {}
    forall u {:trigger PendingOk(f, u)} ensures PendingOk(f, u) {}
    forall u {:trigger ReaderOk(f, u)} ensures ReaderOk(f, u) {}
  }

  /** At every step of every run of any number of workers, with any timing: a last commit that lands
      leaves task and mission completed together or failed together; any other step that fails the
      task fails the mission, none completes the task, and only an operator's move changes the
      mission otherwise. */
  lemma FleetMissionFollows(p: L.Params, cfg: M.Config, policy: Policy, es: seq<Event>, e: Event)
    requires Run(p, cfg, Init(policy), es).Some? && Apply(p, cfg, Run(p, cfg, Init(policy), es).value, e).Some?
    ensures var f := Run(p, cfg, Init(policy), es).value; var g := Apply(p, cfg, f, e).value;
            if e.Protocol? && e.l.Landed? && e.l.t in f.last then EndTogether(g.db)
            else
              && P.Followed(f.db, e.Operator? && e.o.MissionMoves?, g.db)
              && (g.db.task.status.TaskCompleted? ==> f.db.task.status.TaskCompleted?)
  {
    NoSessions(policy);
    RunKeepsSessions(p, cfg, Init(policy), es);
    var f := Run(p, cfg, Init(policy), es).value;
    match e
    case Protocol(l) => ProtocolFollows(p, f, l);
    case Work(t, w) =>
      WorkKeepsSessions(cfg, f, t, w);
      assert WorkerOk(f, t);
      WorkMission(cfg, Lens(f, f.work[t]), w);
    case SweepOrphan(_) => OutsideFollows(cfg, f, M.Sweep);
    case Operator(o) => OutsideFollows(cfg, f, o);
    case _ =>
  }
}
