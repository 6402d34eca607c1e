/**
 Runs of the fleet, in pieces: a worker that starts, one whose refreshes fail, one that takes an
 expired key, one whose last commit is late.  `FleetLimits` and `FleetRefinement` put them together.
 */
module FleetRuns {
  import opened Options
  import opened Budget
  import M = Metering
  import P = MeteringProofs
  import R = MeteringRuns
  import L = Lease
  import opened Fleet

  /** Every sweep finds the key free when its transaction commits. */
  ghost predicate Prompt(es: seq<Event>) {
    forall i :: 0 <= i < |es| && es[i].SweepOrphan? ==> es[i].prompt
  }

  ghost predicate Reaches(p: L.Params, cfg: M.Config, policy: Policy, f: State) {
    exists es: seq<Event> :: Prompt(es) && Run(p, cfg, Init(policy), es) == Some(f)
  }

  lemma Initially(p: L.Params, cfg: M.Config, policy: Policy)
    ensures Reaches(p, cfg, policy, Init(policy))
  {
    assert Prompt([]) && Run(p, cfg, Init(policy), []) == Some(Init(policy));
  }

  lemma Then(p: L.Params, cfg: M.Config, policy: Policy, f: State, e: Event, g: State)
    requires Reaches(p, cfg, policy, f) && Apply(p, cfg, f, e) == Some(g) && (e.SweepOrphan? ==> e.prompt)
    ensures Reaches(p, cfg, policy, g)
  {
    var es: seq<Event> :| Prompt(es) && Run(p, cfg, Init(policy), es) == Some(f);
    var fs := es + [e];
    assert fs[..|fs| - 1] == es && Prompt(fs);
    assert Run(p, cfg, Init(policy), fs) == Some(g);
  }

  /** Nobody has lost a lease that it still relies on. */
  ghost predicate Orderly(f: State) {
    && f.read == map[]
    && (forall t :: t in f.work ==> L.Inside(f.lease, t)) && (forall t :: t in f.last ==> L.Acting(f.lease, t))
  }

  lemma AllSurvive(f: State)
    requires Orderly(f)
    ensures Surviving(f) == f
  {
  }

  /** A protocol event that nobody's session notices. */
  lemma Passes(p: L.Params, cfg: M.Config, policy: Policy, f: State, e: L.Event, l: L.State)
    requires Reaches(p, cfg, policy, f) && L.Apply(p, f.lease, e) == Some(l) && !e.Start? && !e.Finish? && !e.Landed?
    requires Orderly(f.(lease := l))
    ensures Reaches(p, cfg, policy, f.(lease := l))
  {
    AllSurvive(f.(lease := l));
    Then(p, cfg, policy, f, Protocol(e), f.(lease := l));
  }

  // ----- a worker starts -----

  /** `x` is the session that starts from the current row. */
  ghost predicate Loads(db: M.Db, x: M.Session) {
    && Executable(db.task)
    && forall hist :: M.DoBegin(M.State(db, None, hist)) == Some(M.State(db, Some(M.Loaded(x)), hist))
  }

  function WithWorker(f: State, t: nat, x: M.Exec): State {
    f.(work := f.work[t := Worker(x, f.db.task)])
  }

  lemma Starts(p: L.Params, cfg: M.Config, policy: Policy, f: State, t: nat, x: M.Session, l: L.State)
    requires Reaches(p, cfg, policy, f) && f.read == map[] && Loads(f.db, x)
    requires t in f.lease.leases && f.lease.leases[t].Waiting? && L.Apply(p, f.lease, L.Start(t)) == Some(l)
    ensures Reaches(p, cfg, policy, WithWorker(f.(lease := l), t, M.Loaded(x)))
  {
    var g := f.(read := map[t := f.db.task]);
    assert f.read[t := f.db.task] == g.read;
    Then(p, cfg, policy, f, Read(t), g);
    var h := WithWorker(f.(lease := l), t, M.Loaded(x));
    assert g.read - {t} == map[];
    assert f.db.(task := g.read[t]) == f.db;
    assert DoStart(g.(lease := l), t) == Some(h);
    Then(p, cfg, policy, g, Protocol(L.Start(t)), h);
  }

  /** The lease state after somebody has taken a free key and started at once. */
  function Taken(p: L.Params, l: L.State): L.State {
    L.State(l.now, Some(L.Key(l.next, l.now + p.ttl)),
            l.leases[l.next := L.Working(l.now, l.now, l.now)], l.next + 1)
  }

  lemma Joins(p: L.Params, cfg: M.Config, policy: Policy, f: State, x: M.Session)
    requires p.Valid() && Reaches(p, cfg, policy, f) && Orderly(f) && !L.Leased(f.lease) && Loads(f.db, x)
    requires f.lease.next !in f.lease.leases
    ensures Reaches(p, cfg, policy, WithWorker(f.(lease := Taken(p, f.lease)), f.lease.next, M.Loaded(x)))
  {
    var l, n := f.lease, f.lease.next;
    var l1 := L.State(l.now, Some(L.Key(n, l.now + p.ttl)), l.leases[n := L.Waiting(l.now)], n + 1);
    Passes(p, cfg, policy, f, L.Acquire, l1);
    assert l1.leases[n := L.Working(l.now, l.now, l.now)] == Taken(p, l).leases;
    Starts(p, cfg, policy, f.(lease := l1), n, x, Taken(p, l));
  }

  /** Nobody is at work at time 0 and the key is free. */
  ghost predicate Idle(f: State, t: nat) {
    f.lease == L.State(0.0, None, map[], t) && f.read == map[] && f.work == map[] && f.last == map[]
  }

  /** A worker takes the key at time 0 and starts when the reply arrives. */
  lemma StartsLagging(p: L.Params, cfg: M.Config, policy: Policy, f: State, t: nat, x: M.Session)
    requires p.Valid() && Reaches(p, cfg, policy, f) && Idle(f, t) && Loads(f.db, x)
    ensures Reaches(p, cfg, policy, WithWorker(f.(lease := L.Failing(p, t, 0.0)), t, M.Loaded(x)))
  {
    var l1 := L.State(0.0, Some(L.Key(t, p.ttl)), map[t := L.Waiting(0.0)], t + 1);
    Passes(p, cfg, policy, f, L.Acquire, l1);
    var l2 := l1.(now := p.lag);
    Passes(p, cfg, policy, f.(lease := l1), L.Tick(p.lag), l2);
    assert l2.leases[t := L.Working(0.0, p.lag, p.lag)] == L.Failing(p, t, 0.0).leases;
    Starts(p, cfg, policy, f.(lease := l2), t, x, L.Failing(p, t, 0.0));
  }

  // ----- a worker works -----

  function Progress(f: State, t: nat, s: M.State): State
    requires s.exec.Some?
  {
    f.(db := s.db, hist := s.hist, work := f.work[t := Worker(s.exec.value, s.db.task)])
  }

  /** One worker is inside, and the row is as it has seen it. */
  ghost predicate InStep(f: State, t: nat) {
    t in f.work && L.Inside(f.lease, t) && f.work[t].seen == f.db.task && !RawPending(f)
  }

  lemma WorkStep(p: L.Params, cfg: M.Config, policy: Policy, f: State, t: nat, e: M.Event, s: M.State)
    requires Reaches(p, cfg, policy, f) && InStep(f, t) && M.IsWork(e) && s.exec.Some?
    requires M.Apply(cfg, Lens(f, f.work[t]), e) == Some(s)
    ensures Reaches(p, cfg, policy, Progress(f, t, s)) && InStep(Progress(f, t, s), t)
  {
    Then(p, cfg, policy, f, Work(t, e), Progress(f, t, s));
  }

  lemma ProgressTwice(f: State, t: nat, r: M.State, s: M.State)
    requires r.exec.Some? && s.exec.Some?
    ensures var g := Progress(f, t, r); Lens(g, g.work[t]) == r && Progress(g, t, s) == Progress(f, t, s)
  {
  }

  lemma {:induction false} WorkRun(
    p: L.Params, cfg: M.Config, policy: Policy, f: State, t: nat, es: seq<M.Event>, s: M.State)
    requires Reaches(p, cfg, policy, f) && InStep(f, t)
    requires R.OnlyWork(es) && s.exec.Some? && M.Run(cfg, Lens(f, f.work[t]), es) == Some(s)
    ensures Reaches(p, cfg, policy, Progress(f, t, s)) && InStep(Progress(f, t, s), t)
    decreases |es|
  {
    if es == [] {
      assert Progress(f, t, s) == f;
    } else {
      var r := M.Apply(cfg, Lens(f, f.work[t]), es[0]).value;
      R.StillThere(cfg, r, es[1..], s);
      WorkStep(p, cfg, policy, f, t, es[0], r);
      ProgressTwice(f, t, r, s);
      WorkRun(p, cfg, policy, Progress(f, t, r), t, es[1..], s);
    }
  }

  /** What an executor can do, a worker of the fleet can do. */
  lemma Works(p: L.Params, cfg: M.Config, policy: Policy, f: State, t: nat, s: M.State)
    requires Reaches(p, cfg, policy, f) && InStep(f, t) && s.exec.Some? && R.Works(cfg, Lens(f, f.work[t]), s)
    ensures Reaches(p, cfg, policy, Progress(f, t, s)) && InStep(Progress(f, t, s), t)
  {
    var es: seq<M.Event> :| R.OnlyWork(es) && M.Run(cfg, Lens(f, f.work[t]), es) == Some(s);
    WorkRun(p, cfg, policy, f, t, es, s);
  }

  // ----- its refreshes fail -----

  /** Time and failing refreshes pass a worker by that is still inside afterwards. */
  lemma {:induction false} Lifted(
    p: L.Params, cfg: M.Config, policy: Policy, f: State, es: seq<L.Event>, l: L.State)
    requires Reaches(p, cfg, policy, f) && f.read == map[] && f.last == map[] && L.Run(p, f.lease, es) == Some(l)
    requires forall i :: 0 <= i < |es| ==> es[i].Tick? || es[i].RefreshFails?
    requires forall t :: t in f.work ==> L.Inside(l, t)
    ensures Reaches(p, cfg, policy, f.(lease := l))
    decreases |es|
  {
    if es != [] {
      var m := L.Apply(p, f.lease, es[0]).value;
      forall t | t in f.work ensures L.Inside(m, t) { StaysInside(p, m, es[1..], l, t); }
      Passes(p, cfg, policy, f, es[0], m);
      Lifted(p, cfg, policy, f.(lease := m), es[1..], l);
    }
  }

  lemma {:induction false} StaysInside(p: L.Params, m: L.State, es: seq<L.Event>, l: L.State, t: nat)
    requires L.Run(p, m, es) == Some(l) && L.Inside(l, t)
    requires forall i :: 0 <= i < |es| ==> es[i].Tick? || es[i].RefreshFails?
    ensures L.Inside(m, t)
    decreases |es|
  {
    if es != [] { StaysInside(p, L.Apply(p, m, es[0]).value, es[1..], l, t); }
  }

  /** Worker `t` alone has started, and the key is its own. */
  ghost predicate Alone(f: State, t: nat) {
    f.read == map[] && f.last == map[] && f.work.Keys == {t}
  }

  lemma FailsFor(p: L.Params, cfg: M.Config, policy: Policy, f: State, t: nat, gap: real)
    requires p.Valid() && L.Schedulable(p, gap) && (gap == 0.0 || gap + p.Cycle() < p.ttl)
    requires Reaches(p, cfg, policy, f) && Alone(f, t) && f.lease == L.Failing(p, t, 0.0)
    ensures gap >= 0.0 && Reaches(p, cfg, policy, f.(lease := L.Failing(p, t, gap)))
  {
    var es := L.CanFailFor(p, t, gap);
    Lifted(p, cfg, policy, f, es, L.Failing(p, t, gap));
  }

  /** The first moment from `now` on at which the key set at time 0 has expired. */
  function Expiry(p: L.Params, now: real): real {
    if p.ttl > now then p.ttl else now
  }

  /** The key expires while worker `t` is inside. */
  lemma Outlives(p: L.Params, cfg: M.Config, policy: Policy, f: State, t: nat, gap: real)
    requires p.Valid() && L.CanOutlive(p, gap) && gap >= 0.0
    requires Reaches(p, cfg, policy, f) && Alone(f, t) && f.lease == L.Failing(p, t, gap)
    ensures Reaches(p, cfg, policy, f.(lease := f.lease.(now := Expiry(p, f.lease.now))))
  {
    Passes(p, cfg, policy, f, L.Tick(Expiry(p, f.lease.now)), f.lease.(now := Expiry(p, f.lease.now)));
  }

  // ----- its work ends -----

  /** The work of worker `t` ends at the end of its last cycle; nothing but the row is staged. */
  lemma Ends(p: L.Params, cfg: M.Config, policy: Policy, f: State, t: nat, gap: real, w: Worker)
    requires p.Valid() && gap >= 0.0 && Reaches(p, cfg, policy, f) && f.lease == L.Failing(p, t, gap)
    requires f.read == map[] && f.last == map[] && f.work == map[t := w]
    requires w.x.Closing? && w.x.s.artifacts == f.db.artifacts
    ensures Reaches(p, cfg, policy,
              f.(lease := L.Ended(p, t, gap), work := map[], last := map[t := Pending(w.x.s, w.seen, None)]))
  {
    var end := p.lag + gap + p.Cycle();
    var f1 := f.(lease := f.lease.(now := end));
    Passes(p, cfg, policy, f, L.Tick(end), f1.lease);
    Finishes(p, cfg, policy, f1, t);
    assert f1.lease.leases[t := L.Committing(0.0, end)] == L.Ended(p, t, gap).leases && f1.work - {t} == map[];
    assert f1.last[t := Pending(w.x.s, w.seen, None)] == map[t := Pending(w.x.s, w.seen, None)];
  }

  /** The key expires before the last commit of worker `t`. */
  lemma Lingers(p: L.Params, cfg: M.Config, policy: Policy, f: State, t: nat, gap: real)
    requires p.Valid() && L.CanLandLate(p, gap) && gap >= 0.0
    requires Reaches(p, cfg, policy, f) && f.lease == L.Ended(p, t, gap)
    requires f.read == map[] && f.work == map[] && f.last.Keys == {t}
    ensures Reaches(p, cfg, policy, f.(lease := f.lease.(now := Expiry(p, f.lease.now))))
  {
    Passes(p, cfg, policy, f, L.Tick(Expiry(p, f.lease.now)), f.lease.(now := Expiry(p, f.lease.now)));
  }

  /** The last commit of worker `t` lands. */
  lemma Lands(p: L.Params, cfg: M.Config, policy: Policy, f: State, t: nat)
    requires Reaches(p, cfg, policy, f) && t in f.last && t in f.lease.leases && f.lease.leases[t].Committing?
    ensures Reaches(p, cfg, policy, AfterLanding(f, t))
  {
    Then(p, cfg, policy, f, Protocol(L.Landed(t)), AfterLanding(f, t));
  }

  /** A worker finishes, with nothing but the row staged, and its last commit is next. */
  lemma Finishes(p: L.Params, cfg: M.Config, policy: Policy, f: State, t: nat)
    requires Reaches(p, cfg, policy, f) && t in f.work && L.Inside(f.lease, t) && f.work[t].x.Closing?
    requires f.work[t].x.s.artifacts == f.db.artifacts
    ensures Reaches(p, cfg, policy,
              f.(lease := f.lease.(leases := f.lease.leases[t := L.Committing(f.lease.leases[t].effect, f.lease.now)]),
                 work := f.work - {t}, last := f.last[t := Pending(f.work[t].x.s, f.work[t].seen, None)]))
  {
    var g := f.(lease := f.lease.(leases := f.lease.leases[t := L.Committing(f.lease.leases[t].effect, f.lease.now)]),
                work := f.work - {t}, last := f.last[t := Pending(f.work[t].x.s, f.work[t].seen, None)]);
    Then(p, cfg, policy, f, Protocol(L.Finish(t)), g);
  }

  /** The holder has nothing more to do and releases the key. */
  lemma Releases(p: L.Params, cfg: M.Config, policy: Policy, f: State, t: nat)
    requires Reaches(p, cfg, policy, f) && t in f.lease.leases && f.lease.leases[t].Leaving? && L.Held(f.lease, t)
    requires Orderly(f.(lease := f.lease.(key := None, leases := f.lease.leases - {t})))
    ensures Reaches(p, cfg, policy, f.(lease := f.lease.(key := None, leases := f.lease.leases - {t})))
  {
    Passes(p, cfg, policy, f, L.Release(t), f.lease.(key := None, leases := f.lease.leases - {t}));
  }

  /** An uncaught error ends the work of the holder, whose session is rolled back, and it releases the key. */
  lemma Errs(p: L.Params, cfg: M.Config, policy: Policy, f: State, t: nat)
    requires Reaches(p, cfg, policy, f) && Orderly(f) && L.Held(f.lease, t)
    requires f.work.Keys == {t} && !f.work[t].x.Closing? && t !in f.last
    ensures Reaches(p, cfg, policy,
              f.(lease := f.lease.(key := None, leases := f.lease.leases - {t}), work := map[]))
  {
    var l := f.lease;
    var l1 := l.(leases := l.leases[t := L.Committing(l.leases[t].effect, l.now)]);
    var f1 := f.(lease := l1, work := map[]);
    assert f.work - {t} == map[];
    Then(p, cfg, policy, f, Protocol(L.Finish(t)), f1);
    var l2 := l.(leases := l.leases[t := L.Leaving]);
    var f2 := f1.(lease := l2);
    assert l1.leases[t := L.Leaving] == l2.leases;
    Then(p, cfg, policy, f1, Protocol(L.Landed(t)), f2);
    assert l2.leases - {t} == l.leases - {t};
    Releases(p, cfg, policy, f2, t);
  }

  // ----- outside -----

  function Requeued(f: State, n: nat): State {
    f.(db := f.db.(task := f.db.task.(retryCount := f.db.task.retryCount + n)),
       hist := f.hist.(requeues := f.hist.requeues + n))
  }

  /** Below the cap `n` sweeps count `n` recoveries. */
  lemma {:induction false} Sweeps(p: L.Params, cfg: M.Config, policy: Policy, f: State, n: nat)
    requires Reaches(p, cfg, policy, f) && !L.Leased(f.lease) && f.db.task.status.Running?
    requires f.db.task.retryCount + n <= cfg.maxRequeues
    ensures Reaches(p, cfg, policy, Requeued(f, n))
    decreases n
  {
    if n > 0 {
      Sweeps(p, cfg, policy, f, n - 1);
      Then(p, cfg, policy, Requeued(f, n - 1), SweepOrphan(true), Requeued(f, n));
    }
  }

  lemma Retries(p: L.Params, cfg: M.Config, policy: Policy, f: State)
    requires Reaches(p, cfg, policy, f) && f.db.task.status.TaskFailed?
    ensures Reaches(p, cfg, policy, f.(db := f.db.(task := f.db.task.(status := M.Queued))))
  {
    Then(p, cfg, policy, f, Operator(M.OperatorRetry), f.(db := f.db.(task := f.db.task.(status := M.Queued))));
  }

  // ----- two workers at once -----

  /** The lease when worker `t + 1` has taken the key from a worker inside. */
  function Doubled(p: L.Params, t: nat, gap: real): L.State {
    Taken(p, L.Failing(p, t, gap).(now := Expiry(p, p.lag + gap)))
  }

  /** Worker `t` fails to refresh for `gap`, its key expires, and worker `t + 1` starts beside it. */
  lemma Overtakes(p: L.Params, cfg: M.Config, policy: Policy, f: State, t: nat, gap: real, x: M.Session)
    requires p.Valid() && L.CanOutlive(p, gap) && Loads(f.db, x)
    requires Reaches(p, cfg, policy, f) && Alone(f, t) && f.lease == L.Failing(p, t, 0.0)
    ensures Reaches(p, cfg, policy, WithWorker(f.(lease := Doubled(p, t, gap)), t + 1, M.Loaded(x)))
    ensures L.Inside(Doubled(p, t, gap), t) && L.Inside(Doubled(p, t, gap), t + 1)
  {
    FailsFor(p, cfg, policy, f, t, gap);
    var g := f.(lease := L.Failing(p, t, gap));
    Outlives(p, cfg, policy, g, t, gap);
    Joins(p, cfg, policy, g.(lease := g.lease.(now := Expiry(p, g.lease.now))), x);
  }

  /** The lease when worker `t + 1` has taken the key before the last commit of worker `t`. */
  function Behind(p: L.Params, t: nat, gap: real): L.State {
    var l := L.Ended(p, t, gap);
    Taken(p, l.(now := Expiry(p, l.now)))
  }

  /** The same with worker `t` at its last commit. */
  lemma CommitsLate(p: L.Params, cfg: M.Config, policy: Policy, f: State, t: nat, gap: real, w: Worker, x: M.Session)
    requires p.Valid() && L.CanLandLate(p, gap) && Loads(f.db, x)
    requires Reaches(p, cfg, policy, f) && f.lease == L.Failing(p, t, 0.0)
    requires f.read == map[] && f.last == map[] && f.work == map[t := w]
    requires w.x.Closing? && w.x.s.artifacts == f.db.artifacts
    ensures Reaches(p, cfg, policy, Late(p, f, t, gap, w, x))
  {
    FailsFor(p, cfg, policy, f, t, gap);
    Ends(p, cfg, policy, f.(lease := L.Failing(p, t, gap)), t, gap, w);
    var g := f.(lease := L.Ended(p, t, gap), work := map[], last := map[t := Pending(w.x.s, w.seen, None)]);
    Lingers(p, cfg, policy, g, t, gap);
    var h := g.(lease := g.lease.(now := Expiry(p, g.lease.now)));
    Joins(p, cfg, policy, h, x);
    assert WithWorker(h.(lease := Taken(p, h.lease)), t + 1, M.Loaded(x)).work == Late(p, f, t, gap, w, x).work;
  }

  function Late(p: L.Params, f: State, t: nat, gap: real, w: Worker, x: M.Session): State {
    f.(lease := Behind(p, t, gap), work := map[t + 1 := Worker(M.Loaded(x), f.db.task)],
       last := map[t := Pending(w.x.s, w.seen, None)])
  }

  // ----- the first worker -----

  /** The first session starts from a new task. */
  lemma FirstLoads(policy: Policy)
    ensures Loads(M.Init(policy).db, R.FRESH)
  {
  }

  /** Worker 0 has done what leads an executor from its start to `s`. */
  function First(p: L.Params, s: M.State): State
    requires s.exec.Some?
  {
    State(L.Failing(p, 0, 0.0), s.db, s.hist, map[], map[0 := Worker(s.exec.value, s.db.task)], map[])
  }

  lemma FirstWorks(p: L.Params, cfg: M.Config, policy: Policy, s: M.State)
    requires p.Valid() && s.exec.Some? && R.Works(cfg, M.Init(policy).(exec := Some(M.Loaded(R.FRESH))), s)
    ensures Reaches(p, cfg, policy, First(p, s)) && InStep(First(p, s), 0)
  {
    Initially(p, cfg, policy);
    FirstLoads(policy);
    StartsLagging(p, cfg, policy, Init(policy), 0, R.FRESH);
    var f := WithWorker(Init(policy).(lease := L.Failing(p, 0, 0.0)), 0, M.Loaded(R.FRESH));
    assert Lens(f, f.work[0]) == M.Init(policy).(exec := Some(M.Loaded(R.FRESH)));
    Works(p, cfg, policy, f, 0, s);
    assert Progress(f, 0, s).work == map[0 := Worker(s.exec.value, s.db.task)];
  }

  /** It has saved its prompt, found no provider, and is to fail the task. */
  function Doomed(policy: Policy, r: Request): M.State {
    R.AtPrompt(policy, r).(exec := Some(M.Closing(M.Fail(R.FRESH))))
  }

  lemma FirstFails(p: L.Params, cfg: M.Config, policy: Policy, r: Request)
    requires p.Valid() && r.maxOutputTokens == policy.maxOutputTokens
    ensures Reaches(p, cfg, policy, First(p, Doomed(policy, r)))
  {
    R.Prompting(cfg, policy, r);
    R.WorksOn(cfg, M.Init(policy).(exec := Some(M.Loaded(R.FRESH))), R.AtPrompt(policy, r), M.NoProvider);
    FirstWorks(p, cfg, policy, Doomed(policy, r));
  }

  /** A session that starts while the row is running changes nothing in it. */
  lemma RunningLoads(db: M.Db)
    requires db.task.status.Running?
    ensures Loads(db, M.Session(db.task, None, db.artifacts))
  {
  }

  /** Worker 0 is to fail the task, late, and worker 1 has started. */
  function FailingLate(p: L.Params, policy: Policy, r: Request, gap: real): State {
    Late(p, First(p, Doomed(policy, r)), 0, gap, Worker(M.Closing(M.Fail(R.FRESH)), R.FRESH.task), R.FRESH)
  }

  lemma FirstFailsLate(p: L.Params, cfg: M.Config, policy: Policy, r: Request, gap: real)
    requires p.Valid() && L.CanLandLate(p, gap) && r.maxOutputTokens == policy.maxOutputTokens
    ensures Reaches(p, cfg, policy, FailingLate(p, policy, r, gap))
  {
    FirstFails(p, cfg, policy, r);
    var f := First(p, Doomed(policy, r));
    RunningLoads(f.db);
    CommitsLate(p, cfg, policy, f, 0, gap, Worker(M.Closing(M.Fail(R.FRESH)), R.FRESH.task), R.FRESH);
  }
}
