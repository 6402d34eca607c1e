/**
 When exactly the fleet is one executor: after every run of any number of workers the tables and
 the executor of the key's holder are in a state that `Metering` can reach, if and only if no last
 commit can land after its key has expired.
 */
module FleetRefinement {
  import opened Options
  import opened Budget
  import M = Metering
  import P = MeteringProofs
  import L = Lease
  import R = MeteringRuns
  import opened Fleet
  import opened FleetRuns

  /** The executor that the key's holder is. */
  function Solo(f: State): Option<M.Exec> {
    if f.lease.key.None? then None
    else
      var t := f.lease.key.value.token;
      if t in f.work then Some(f.work[t].x) else if t in f.last then Some(M.Closing(f.last[t].s)) else None
  }

  function Single(f: State): M.State {
    M.State(f.db, Solo(f), f.hist)
  }

  predicate Busy(f: State, t: nat) {
    t in f.work || t in f.last
  }

  /** One executor can reach these tables, with the holder's session beside them. */
  ghost predicate Refined(cfg: M.Config, policy: Policy, f: State) {
    P.Reaches(cfg, M.Init(policy), Single(f))
  }

  ghost predicate OneBusy(f: State) {
    forall t, u {:trigger Busy(f, t), Busy(f, u)} :: Busy(f, t) && Busy(f, u) ==> t == u
  }

  /** Over all runs in which no sweep is overtaken by a worker. */
  ghost predicate AlwaysRefined(p: L.Params, cfg: M.Config, policy: Policy) {
    forall es: seq<Event> ::
      Prompt(es) && Run(p, cfg, Init(policy), es).Some? ==> Refined(cfg, policy, Run(p, cfg, Init(policy), es).value)
  }

  // ----- in time: the simulation -----

  ghost predicate WorkFits(f: State, t: nat) {
    t in f.work ==> L.Inside(f.lease, t) && f.work[t].seen == f.db.task && t !in f.last
  }

  /** The row is as the worker has seen it, and the artifacts are what the commit starts from. */
  ghost predicate LastFits(f: State, t: nat) {
    t in f.last ==>
      && t in f.lease.leases && f.lease.leases[t].Committing? && f.last[t].seen == f.db.task
      && f.last[t].s.artifacts == f.db.artifacts + if f.last[t].raw.Some? then [f.last[t].raw.value] else []
  }

  ghost predicate ReadFits(f: State, t: nat) {
    t in f.read ==> t in f.lease.leases && f.lease.leases[t].Waiting? && f.read[t] == f.db.task && Executable(f.read[t])
  }

  ghost predicate Fits(p: L.Params, f: State) {
    && L.AloneInv(p, f.lease)
    && (forall t {:trigger WorkFits(f, t)} :: WorkFits(f, t)) && (forall t {:trigger LastFits(f, t)} :: LastFits(f, t))
    && (forall t {:trigger ReadFits(f, t)} :: ReadFits(f, t))
  }

  lemma BusyIsHeld(p: L.Params, f: State, t: nat)
    requires p.Valid() && !L.LandsLate(p) && Fits(p, f) && Busy(f, t)
    ensures L.Held(f.lease, t)
  {
    assert WorkFits(f, t) && LastFits(f, t);
    L.ActingIsHeld(p, f.lease, t);
  }

  lemma HolderOnly(p: L.Params, f: State, t: nat, u: nat)
    requires p.Valid() && !L.LandsLate(p) && Fits(p, f) && (L.Acting(f.lease, t) || L.Relying(f.lease, t)) && Busy(f, u)
    ensures t == u
  {
    L.ActingIsHeld(p, f.lease, t);
    BusyIsHeld(p, f, u);
  }

  /** Whoever acts is not about to start, and nobody else is. */
  lemma NobodyReads(p: L.Params, f: State, t: nat, u: nat)
    requires p.Valid() && !L.LandsLate(p) && Fits(p, f) && L.Acting(f.lease, t)
    ensures u !in f.read
  {
    assert ReadFits(f, u);
    if u in f.read {
      L.ActingIsHeld(p, f.lease, t);
      L.ActingIsHeld(p, f.lease, u);
    }
  }

  /** One step of the fleet is one step of the executor, or none. */
  ghost predicate Simulates(cfg: M.Config, a: M.State, b: M.State) {
    a == b || exists e :: M.Apply(cfg, a, e) == Some(b)
  }

  lemma WorkStaysFit(p: L.Params, cfg: M.Config, f: State, t: nat, e: M.Event)
    requires p.Valid() && !L.LandsLate(p) && Fits(p, f) && DoWork(cfg, f, t, e).Some?
    ensures Fits(p, DoWork(cfg, f, t, e).value)
  {
    var g := DoWork(cfg, f, t, e).value;
    assert WorkFits(f, t);
    forall u {:trigger WorkFits(g, u)} ensures WorkFits(g, u) {
      assert WorkFits(f, u);
      if u in g.work { HolderOnly(p, f, t, u); }
    }
    forall u {:trigger LastFits(g, u)} ensures LastFits(g, u) {
      assert LastFits(f, u);
      if u in g.last { HolderOnly(p, f, t, u); }
    }
    forall u {:trigger ReadFits(g, u)} ensures ReadFits(g, u) { NobodyReads(p, f, t, u); }
  }

  lemma WorkSimulates(p: L.Params, cfg: M.Config, f: State, t: nat, e: M.Event)
    requires p.Valid() && !L.LandsLate(p) && Fits(p, f) && DoWork(cfg, f, t, e).Some?
    ensures Simulates(cfg, Single(f), Single(DoWork(cfg, f, t, e).value))
  {
    var g := DoWork(cfg, f, t, e).value;
    assert WorkFits(f, t);
    BusyIsHeld(p, f, t);
    assert Lens(f, f.work[t]) == Single(f);
    assert t !in f.last;
    assert M.Apply(cfg, Single(f), e) == Some(Single(g));
  }

  lemma ReadSimulates(p: L.Params, cfg: M.Config, f: State, t: nat)
    requires p.Valid() && !L.LandsLate(p) && Fits(p, f) && DoRead(f, t).Some?
    ensures Fits(p, DoRead(f, t).value) && Single(DoRead(f, t).value) == Single(f)
  {
    var g := DoRead(f, t).value;
    forall u {:trigger WorkFits(g, u)} ensures WorkFits(g, u) { assert WorkFits(f, u); }
    forall u {:trigger LastFits(g, u)} ensures LastFits(g, u) { assert LastFits(f, u); }
    forall u {:trigger ReadFits(g, u)} ensures ReadFits(g, u) { assert ReadFits(f, u); }
  }

  lemma StartSimulates(p: L.Params, cfg: M.Config, f: State, t: nat)
    requires p.Valid() && !L.LandsLate(p) && Fits(p, f) && DoProtocol(p, f, L.Start(t)).Some?
    ensures var g := DoProtocol(p, f, L.Start(t)).value; Fits(p, g) && Simulates(cfg, Single(f), Single(g))
  {
    var g := DoProtocol(p, f, L.Start(t)).value;
    L.AloneStep(p, f.lease, L.Start(t));
    L.ActingIsHeld(p, f.lease, t);
    assert WorkFits(f, t) && LastFits(f, t) && ReadFits(f, t);
    forall u {:trigger WorkFits(g, u)} ensures WorkFits(g, u) {
      assert WorkFits(f, u);
      if u in f.work { HolderOnly(p, f, t, u); }
    }
    forall u {:trigger LastFits(g, u)} ensures LastFits(g, u) {
      assert LastFits(f, u);
      if u in f.last { HolderOnly(p, f, t, u); }
    }
    forall u {:trigger ReadFits(g, u)} ensures ReadFits(g, u) { assert ReadFits(f, u); }
    assert f.db.(task := f.read[t]) == f.db;
    assert M.Apply(cfg, Single(f), M.Begin) == Some(Single(g));
  }

  lemma FinishSimulates(p: L.Params, cfg: M.Config, f: State, t: nat)
    requires p.Valid() && !L.LandsLate(p) && Fits(p, f) && DoProtocol(p, f, L.Finish(t)).Some? && P.Inv(cfg, Single(f))
    ensures var g := DoProtocol(p, f, L.Finish(t)).value; Fits(p, g) && Simulates(cfg, Single(f), Single(g))
  {
    var g := DoProtocol(p, f, L.Finish(t)).value;
    L.AloneStep(p, f.lease, L.Finish(t));
    L.ActingIsHeld(p, f.lease, t);
    assert WorkFits(f, t) && LastFits(f, t);
    forall u {:trigger WorkFits(g, u)} ensures WorkFits(g, u) {
      assert WorkFits(f, u);
      if u in f.work { HolderOnly(p, f, t, u); }
    }
    if t in f.work && f.work[t].x.Closing? {
      assert Solo(f) == Some(f.work[t].x) && P.Staged(f.db.artifacts, f.work[t].x.s.artifacts);
    }
    forall u {:trigger LastFits(g, u)} ensures LastFits(g, u) {
      assert LastFits(f, u);
      if u in f.last { HolderOnly(p, f, t, u); }
    }
    forall u {:trigger ReadFits(g, u)} ensures ReadFits(g, u) { NobodyReads(p, f, t, u); }
    if Single(f) != Single(g) { assert M.Apply(cfg, Single(f), M.Crash) == Some(Single(g)); }
  }

  /** The last commit writes what the executor's final commit writes. */
  lemma LandIsFinal(cfg: M.Config, f: State, q: Pending)
    requires q.seen == f.db.task && q.s.artifacts == f.db.artifacts + if q.raw.Some? then [q.raw.value] else []
    requires P.OutputShape(cfg, q.s.artifacts, q.s.task, f.db.checkpoints)
    ensures Land(f, q).db == M.Commit(f.db, q.s)
  {
    if q.raw.Some? {
      var n := |f.db.artifacts|;
      assert q.s.artifacts[n] == q.raw.value;
      assert forall i :: 0 <= i < n ==> f.db.artifacts[i] == q.s.artifacts[i];
      assert forall i :: 0 <= i < n ==> f.db.artifacts[i].kind != q.raw.value.kind;
    }
  }

  /** Nobody executes while a worker commits. */
  lemma NobodyWorks(p: L.Params, f: State, t: nat)
    requires p.Valid() && !L.LandsLate(p) && Fits(p, f) && L.Acting(f.lease, t) && t !in f.work
    ensures f.work == map[]
  {
    forall u | u in f.work ensures false { HolderOnly(p, f, t, u); }
  }

  lemma LandStaysFit(p: L.Params, f: State, t: nat)
    requires p.Valid() && !L.LandsLate(p) && Fits(p, f) && DoProtocol(p, f, L.Landed(t)).Some?
    ensures Fits(p, DoProtocol(p, f, L.Landed(t)).value)
  {
    var g := DoProtocol(p, f, L.Landed(t)).value;
    L.AloneStep(p, f.lease, L.Landed(t));
    assert WorkFits(f, t);
    NobodyWorks(p, f, t);
    forall u {:trigger WorkFits(g, u)} ensures WorkFits(g, u) {}
    forall u {:trigger LastFits(g, u)} ensures LastFits(g, u) {
      assert LastFits(f, u);
      if u in f.last { HolderOnly(p, f, t, u); }
    }
    forall u {:trigger ReadFits(g, u)} ensures ReadFits(g, u) { NobodyReads(p, f, t, u); }
  }

  lemma FinalCommits(p: L.Params, cfg: M.Config, f: State, t: nat)
    requires p.Valid() && !L.LandsLate(p) && Fits(p, f) && P.Inv(cfg, Single(f)) && t in f.last
    requires f.lease.key.Some? && f.lease.key.value.token == t && f.work == map[]
    ensures M.Apply(cfg, Single(f), M.FinalCommit) == Some(Single(AfterLanding(f, t)))
  {
    assert LastFits(f, t);
    LandIsFinal(cfg, f, f.last[t]);
  }

  lemma LandSimulates(p: L.Params, cfg: M.Config, f: State, t: nat)
    requires p.Valid() && !L.LandsLate(p) && Fits(p, f) && DoProtocol(p, f, L.Landed(t)).Some? && P.Inv(cfg, Single(f))
    ensures Simulates(cfg, Single(f), Single(DoProtocol(p, f, L.Landed(t)).value))
  {
    L.ActingIsHeld(p, f.lease, t);
    assert WorkFits(f, t);
    NobodyWorks(p, f, t);
    if t in f.last {
      SomethingLands(p, f, t);
      FinalCommits(p, cfg, f, t);
    }
  }

  lemma CommitFailsSimulates(p: L.Params, cfg: M.Config, f: State, t: nat)
    requires p.Valid() && !L.LandsLate(p) && Fits(p, f) && Apply(p, cfg, f, CommitFails(t)).Some?
    ensures var g := Apply(p, cfg, f, CommitFails(t)).value; Fits(p, g) && Simulates(cfg, Single(f), Single(g))
  {
    var g := Apply(p, cfg, f, CommitFails(t)).value;
    L.AloneStep(p, f.lease, L.Landed(t));
    L.ActingIsHeld(p, f.lease, t);
    forall u {:trigger WorkFits(g, u)} ensures WorkFits(g, u) { assert WorkFits(f, u); }
    forall u {:trigger LastFits(g, u)} ensures LastFits(g, u) { assert LastFits(f, u); }
    forall u {:trigger ReadFits(g, u)} ensures ReadFits(g, u) { assert ReadFits(f, u); }
    assert WorkFits(f, t);
    if Single(f) != Single(g) { assert M.Apply(cfg, Single(f), M.Crash) == Some(Single(g)); }
  }

  lemma OtherStaysFit(p: L.Params, f: State, e: L.Event)
    requires p.Valid() && !L.LandsLate(p) && Fits(p, f) && DoProtocol(p, f, e).Some?
    requires !e.Start? && !e.Finish? && !e.Landed?
    ensures Fits(p, DoProtocol(p, f, e).value)
  {
    var g := DoProtocol(p, f, e).value;
    L.AloneStep(p, f.lease, e);
    forall u {:trigger WorkFits(g, u)} ensures WorkFits(g, u) { assert WorkFits(f, u); }
    forall u {:trigger LastFits(g, u)} ensures LastFits(g, u) { assert LastFits(f, u); }
    forall u {:trigger ReadFits(g, u)} ensures ReadFits(g, u) { assert ReadFits(f, u); }
  }

  lemma OtherSimulates(p: L.Params, cfg: M.Config, f: State, e: L.Event)
    requires p.Valid() && !L.LandsLate(p) && Fits(p, f) && DoProtocol(p, f, e).Some?
    requires !e.Start? && !e.Finish? && !e.Landed?
    ensures Simulates(cfg, Single(f), Single(DoProtocol(p, f, e).value))
  {
    var g := DoProtocol(p, f, e).value;
    SoloSurvives(p, f, e);
    if Single(f) != Single(g) { assert M.Apply(cfg, Single(f), M.Crash) == Some(Single(g)); }
  }

  lemma SameHolder(p: L.Params, l: L.State, e: L.Event, t: nat, u: nat)
    requires L.Held(l, t) && L.Apply(p, l, e).Some?
    requires L.Apply(p, l, e).value.key.Some? && L.Apply(p, l, e).value.key.value.token == u
    ensures t == u
  {
  }

  /** The key passes to nobody else while its holder is busy. */
  lemma SoloSurvives(p: L.Params, f: State, e: L.Event)
    requires p.Valid() && !L.LandsLate(p) && Fits(p, f) && DoProtocol(p, f, e).Some?
    requires !e.Start? && !e.Finish? && !e.Landed?
    ensures var g := DoProtocol(p, f, e).value; Solo(g) == Solo(f) || (Solo(f).Some? && Solo(g).None?)
  {
    var g := DoProtocol(p, f, e).value;
    if Solo(f).Some? {
      var t := f.lease.key.value.token;
      BusyIsHeld(p, f, t);
      assert WorkFits(f, t);
      if Solo(g).Some? { SameHolder(p, f.lease, e, t, g.lease.key.value.token); }
    } else if Solo(g).Some? {
      BusyIsHeld(p, f, g.lease.key.value.token);
    }
  }

  lemma OutsideSimulates(p: L.Params, cfg: M.Config, f: State, e: M.Event)
    requires p.Valid() && !L.LandsLate(p) && Fits(p, f) && DoOutside(cfg, f, e).Some? && P.Inv(cfg, Single(f))
    requires e.OperatorRetry? || e.MissionMoves? || (e.Sweep? && !L.Leased(f.lease))
    ensures Fits(p, DoOutside(cfg, f, e).value) && Simulates(cfg, Single(f), Single(DoOutside(cfg, f, e).value))
  {
    var g := DoOutside(cfg, f, e).value;
    if Solo(f).Some? { BusyIsHeld(p, f, f.lease.key.value.token); }
    forall u {:trigger WorkFits(g, u)} ensures WorkFits(g, u) {
      assert WorkFits(f, u);
      if u in f.work { BusyIsHeld(p, f, u); }
    }
    forall u {:trigger LastFits(g, u)} ensures LastFits(g, u) {
      assert LastFits(f, u);
      if u in f.last { BusyIsHeld(p, f, u); }
    }
    forall u {:trigger ReadFits(g, u)} ensures ReadFits(g, u) {
      assert ReadFits(f, u);
      if u in f.read { L.ActingIsHeld(p, f.lease, u); }
    }
    assert M.Apply(cfg, Single(f), e) == Some(Single(g));
  }

  lemma StepSimulates(p: L.Params, cfg: M.Config, f: State, e: Event)
    requires p.Valid() && !L.LandsLate(p) && Fits(p, f) && Apply(p, cfg, f, e).Some? && P.Inv(cfg, Single(f))
    requires e.SweepOrphan? ==> e.prompt
    ensures Fits(p, Apply(p, cfg, f, e).value) && Simulates(cfg, Single(f), Single(Apply(p, cfg, f, e).value))
  {
    match e
    case Protocol(l) =>
      if l.Start? { StartSimulates(p, cfg, f, l.t); }
      else if l.Finish? { FinishSimulates(p, cfg, f, l.t); }
      else if l.Landed? {
        LandStaysFit(p, f, l.t);
        LandSimulates(p, cfg, f, l.t);
      }
      else {
        OtherStaysFit(p, f, l);
        OtherSimulates(p, cfg, f, l);
      }
    case Read(t) => ReadSimulates(p, cfg, f, t);
    case Work(t, w) =>
      WorkStaysFit(p, cfg, f, t, w);
      WorkSimulates(p, cfg, f, t, w);
    case CommitFails(t) => CommitFailsSimulates(p, cfg, f, t);
    case SweepOrphan(_) => OutsideSimulates(p, cfg, f, M.Sweep);
    case Operator(o) => OutsideSimulates(p, cfg, f, o);
  }

  lemma ReachedInv(cfg: M.Config, policy: Policy, s: M.State)
    requires P.Reaches(cfg, M.Init(policy), s)
    ensures P.Inv(cfg, s)
  {
    var es: seq<M.Event> :| M.Run(cfg, M.Init(policy), es) == Some(s);
    P.Reachable(cfg, policy, es);
  }

  lemma {:induction false} RunSimulates(p: L.Params, cfg: M.Config, policy: Policy, es: seq<Event>)
    requires p.Valid() && !L.LandsLate(p) && Prompt(es) && Run(p, cfg, Init(policy), es).Some?
    ensures var f := Run(p, cfg, Init(policy), es).value; Fits(p, f) && P.Reaches(cfg, M.Init(policy), Single(f))
    decreases |es|
  {
    if es == [] {
      assert Single(Init(policy)) == M.Init(policy);
      P.ReachesBy(cfg, M.Init(policy), [], M.Init(policy));
    } else {
      var rest, e := es[..|es| - 1], es[|es| - 1];
      RunSimulates(p, cfg, policy, rest);
      var f := Run(p, cfg, Init(policy), rest).value;
      ReachedInv(cfg, policy, Single(f));
      StepSimulates(p, cfg, f, e);
      var g := Apply(p, cfg, f, e).value;
      if Single(f) != Single(g) {
        var m :| M.Apply(cfg, Single(f), m) == Some(Single(g));
        P.Then(cfg, M.Init(policy), Single(f), m);
      }
    }
  }

  lemma InTime(p: L.Params, cfg: M.Config, policy: Policy, es: seq<Event>)
    requires p.Valid() && !L.LandsLate(p) && Prompt(es) && Run(p, cfg, Init(policy), es).Some?
    ensures Refined(cfg, policy, Run(p, cfg, Init(policy), es).value) && OneBusy(Run(p, cfg, Init(policy), es).value)
  {
    RunSimulates(p, cfg, policy, es);
    var f := Run(p, cfg, Init(policy), es).value;
    forall t, u {:trigger Busy(f, t), Busy(f, u)} | Busy(f, t) && Busy(f, u) ensures t == u {
      BusyIsHeld(p, f, t);
      BusyIsHeld(p, f, u);
    }
  }

  // ----- late: a run after which a worker executes a failed task -----

  /** One executor never has a failed task while it executes. */
  lemma NotReached(cfg: M.Config, policy: Policy, f: State)
    requires Solo(f).Some? && f.db.task.status.TaskFailed?
    ensures !Refined(cfg, policy, f)
  {
    if Refined(cfg, policy, f) { ReachedInv(cfg, policy, Single(f)); }
  }

  lemma NotRefined(p: L.Params, cfg: M.Config, policy: Policy, f: State)
    requires Reaches(p, cfg, policy, f) && !Refined(cfg, policy, f)
    ensures !AlwaysRefined(p, cfg, policy)
  {
    var es: seq<Event> :| Prompt(es) && Run(p, cfg, Init(policy), es) == Some(f);
  }

  /** Worker 0 is to fail the task; its key expires, worker 1 starts, and then the commit lands. */
  lemma LateIsNotRefined(p: L.Params, cfg: M.Config, policy: Policy, r: Request)
    requires p.Valid() && L.LandsLate(p) && r.maxOutputTokens == policy.maxOutputTokens
    ensures !AlwaysRefined(p, cfg, policy)
  {
    var gap: real :| L.CanLandLate(p, gap);
    FirstFailsLate(p, cfg, policy, r, gap);
    var f := FailingLate(p, policy, r, gap);
    Lands(p, cfg, policy, f, 0);
    var g := AfterLanding(f, 0);
    assert Solo(g) == Some(M.Loaded(R.FRESH)) && g.db.task.status.TaskFailed?;
    NotReached(cfg, policy, g);
    NotRefined(p, cfg, policy, g);
  }

  /** All runs of the fleet refine the single executor if and only if no last commit can land late. */
  lemma FleetRefinesIff(p: L.Params, cfg: M.Config, policy: Policy)
    requires p.Valid()
    ensures AlwaysRefined(p, cfg, policy) <==> !L.LandsLate(p)
  {
    if L.LandsLate(p) {
      LateIsNotRefined(p, cfg, policy, Request("", "", 0, policy.maxOutputTokens));
    } else {
      forall es: seq<Event> | Prompt(es) && Run(p, cfg, Init(policy), es).Some?
        ensures Refined(cfg, policy, Run(p, cfg, Init(policy), es).value)
      {
        InTime(p, cfg, policy, es);
      }
    }
  }
}
