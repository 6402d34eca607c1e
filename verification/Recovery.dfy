/**
 Orphan recovery (mission_engine/engine/recovery.py and the sweep of services/worker/main.py) on
 the step system of `Metering`: how often the sweep requeues a task, when it fails one, and the
 runs in which it can do neither.
 */
module Recovery {
  import opened Options
  import opened Budget
  import opened Metering
  import opened MeteringProofs
  import opened MeteringRuns

  /** Over its whole life a task is requeued by the sweep at most `maxRequeues` times. */
  lemma RequeuesBounded(cfg: Config, policy: Policy, es: seq<Event>)
    requires Run(cfg, Init(policy), es).Some?
    ensures Run(cfg, Init(policy), es).value.hist.requeues <= Max0(cfg.maxRequeues)
  {
    Reachable(cfg, policy, es);
  }

  /** A running task nobody executes, which has used up its recoveries. */
  ghost predicate AtCap(cfg: Config, s: State) {
    s.exec.None? && s.db.task.status.Running? && s.db.task.retryCount >= cfg.maxRequeues
  }

  /** At the cap one sweep fails the task exactly when its mission is still running; otherwise
      the refused mission transition leaves everything as it was. */
  lemma SweepAtCap(cfg: Config, s: State)
    requires AtCap(cfg, s)
    ensures Apply(cfg, s, Sweep).Some?
    ensures var s' := Apply(cfg, s, Sweep).value;
            && s'.hist == s.hist
            && (s'.db.task.status.TaskFailed? <==> s.db.mission.MissionRunning?)
            && (s'.db.task.status.TaskFailed? ==> s'.db.mission.MissionFailed?)
            && (!s'.db.task.status.TaskFailed? ==> s' == s)
  {
  }

  function Sweeps(n: nat): seq<Event> {
    seq(n, i => Sweep)
  }

  /** Nobody executes the task and its mission is not set running again. */
  predicate Unattended(es: seq<Event>) {
    forall i :: 0 <= i < |es| ==> !es[i].Begin? && es[i] != MissionMoves(MissionRunning)
  }

  /** So at the cap under a mission that is not running the task stays running for good: over every
      run, with any number of sweeps, retry requests and other moves of the mission, until a worker
      executes it or somebody sets the mission running. */
  lemma {:induction false} StuckForever(cfg: Config, s: State, es: seq<Event>)
    requires AtCap(cfg, s) && !s.db.mission.MissionRunning? && Unattended(es) && Run(cfg, s, es).Some?
    ensures AtCap(cfg, Run(cfg, s, es).value) && !Run(cfg, s, es).value.db.mission.MissionRunning?
    decreases |es|
  {
    if es != [] { StuckForever(cfg, Apply(cfg, s, es[0]).value, es[1..]); }
  }

  /** Below the cap `n` sweeps count `n` recoveries and change nothing else. */
  lemma {:induction false} SweepsCount(cfg: Config, s: State, n: nat)
    requires s.exec.None? && s.db.task.status.Running? && s.db.task.retryCount + n <= cfg.maxRequeues
    ensures Run(cfg, s, Sweeps(n)) ==
            Some(s.(db := s.db.(task := s.db.task.(retryCount := s.db.task.retryCount + n)),
                    hist := s.hist.(requeues := s.hist.requeues + n)))
    decreases n
  {
    if n > 0 {
      assert Sweeps(n)[1..] == Sweeps(n - 1);
      SweepsCount(cfg, Apply(cfg, s, Sweep).value, n - 1);
    }
  }

  // A run that ends in a stuck task, for the default budget and any request to a free model.

  const P := Policy(200_000_000, 6, 10, 2, 8000)
  const H := History(0, [], 0, 0)

  ghost predicate Free(r: Request) {
    WorstCase(r) == Some(0) && PriceFor(r.provider, r.model) == Some(Price(0, 0)) && r.maxOutputTokens == 8000
  }

  lemma FreeIsAfforded(cfg: Config, r: Request)
    requires Free(r) && AtPrice(cfg, r) && cfg.maxAttempts >= 1
    ensures Affords(cfg, P, r, [])
  {
  }

  /** The circuit is open, so the first execution fails the task and its mission. */
  lemma FirstExecutionFails(cfg: Config, r: Request)
    requires Free(r) && AtPrice(cfg, r) && cfg.maxAttempts >= 1
    ensures Reaches(cfg, Init(P), State(Tables(P, r, Task(TaskFailed, 0, None), MissionFailed, []), None, H))
  {
    var s := AtPrompt(P, r);
    Prompted(cfg, P, r);
    FreeIsAfforded(cfg, r);
    Admitting(cfg, P, r, s, FRESH);
    Then(cfg, Init(P), s, Admit(0.0));
    Then(cfg, Init(P), s.(exec := Some(Ready(FRESH, FirstCall(P, r, [])))), CircuitOpen);
    Then(cfg, Init(P), s.(exec := Some(Closing(Fail(FRESH)))), FinalCommit);
  }

  /** The operator retries; the mission stays failed. */
  lemma OperatorRequeues(cfg: Config, r: Request)
    requires Free(r) && AtPrice(cfg, r) && cfg.maxAttempts >= 1
    ensures Reaches(cfg, Init(P), State(Tables(P, r, Task(Queued, 0, None), MissionFailed, []), None, H))
  {
    FirstExecutionFails(cfg, r);
    Then(cfg, Init(P), State(Tables(P, r, Task(TaskFailed, 0, None), MissionFailed, []), None, H), OperatorRetry);
  }

  lemma OperatorRetries(cfg: Config, r: Request, x: Session)
    requires Free(r) && AtPrice(cfg, r) && cfg.maxAttempts >= 1 && x == Session(Task(Running, 1, None), None, [])
    ensures Reaches(cfg, Init(P),
              State(Tables(P, r, Task(Queued, 0, None), MissionFailed, []), Some(Calling(x, 1, r, P, false)), H))
  {
    OperatorRequeues(cfg, r);
    var s := State(Tables(P, r, Task(Queued, 0, None), MissionFailed, []), None, H);
    assert Apply(cfg, s, Begin) == Some(s.(exec := Some(Loaded(x))));
    Then(cfg, Init(P), s, Begin);
    Resuming(cfg, P, r, s.(exec := Some(Loaded(x))), x);
    WorksReach(cfg, Init(P), s.(exec := Some(Loaded(x))), s.(exec := Some(Calling(x, 1, r, P, false))));
  }

  lemma FreeRow(r: Request)
    requires WorstCase(r) == Some(0)
    ensures Requesting(r) == Row(0, Requested)
  {
    assert Stored(0) == 0;
  }

  lemma FreeWrite(cfg: Config, r: Request, s: State, x: Session, c: Call)
    requires WorstCase(r) == Some(0) && c == FirstCall(P, r, []) && s.exec == Some(Ready(x, c)) && s.hist == H
    requires s.db == Tables(P, r, Task(Queued, 0, None), MissionFailed, []) && x.mission.None? && x.artifacts == []
    ensures Apply(cfg, s, WriteAhead) ==
            Some(State(Tables(P, r, x.task, MissionFailed, [Row(0, Requested)]), Some(Ahead(x, c, 0)),
                       H.(bills := [0])))
  {
    WritingAhead(cfg, s, x, c);
    FreeRow(r);
    assert [] + [Row(0, Requested)] == [Row(0, Requested)] && H.bills + [0] == [0];
  }

  /** The second executor commits its write-ahead row and dies. */
  lemma SecondExecutionDies(cfg: Config, r: Request)
    requires Free(r) && AtPrice(cfg, r) && cfg.maxAttempts >= 1
    ensures Reaches(cfg, Init(P),
              State(Tables(P, r, Task(Running, 1, None), MissionFailed, [Row(0, Requested)]), None, H.(bills := [0])))
  {
    var x := Session(Task(Running, 1, None), None, []);
    OperatorRetries(cfg, r, x);
    var s1 := State(Tables(P, r, Task(Queued, 0, None), MissionFailed, []), Some(Calling(x, 1, r, P, false)), H);
    FreeIsAfforded(cfg, r);
    Admitting(cfg, P, r, s1, x);
    Then(cfg, Init(P), s1, Admit(0.0));
    var c := FirstCall(P, r, []);
    var s2 := s1.(exec := Some(Ready(x, c)));
    FreeWrite(cfg, r, s2, x, c);
    Then(cfg, Init(P), s2, WriteAhead);
    var s3 := State(Tables(P, r, x.task, MissionFailed, [Row(0, Requested)]), Some(Ahead(x, c, 0)), H.(bills := [0]));
    Then(cfg, Init(P), s3, Crash);
  }

  /** Each requeue is counted until the cap is reached. */
  lemma RunsIntoCap(cfg: Config, r: Request) returns (t: State)
    requires Free(r) && AtPrice(cfg, r) && cfg.maxAttempts >= 1 && cfg.maxRequeues >= 1
    ensures Reaches(cfg, Init(P), t) && AtCap(cfg, t) && t.db.mission.MissionFailed?
  {
    SecondExecutionDies(cfg, r);
    var s := State(Tables(P, r, Task(Running, 1, None), MissionFailed, [Row(0, Requested)]), None, H.(bills := [0]));
    SweepsCount(cfg, s, cfg.maxRequeues - 1);
    t := Run(cfg, s, Sweeps(cfg.maxRequeues - 1)).value;
    var es: seq<Event> :| Run(cfg, Init(P), es) == Some(s);
    RunAppend(cfg, Init(P), es, Sweeps(cfg.maxRequeues - 1));
    ReachesBy(cfg, Init(P), es + Sweeps(cfg.maxRequeues - 1), t);
  }

  lemma FreePrice(r: Request)
    requires PriceFor(r.provider, r.model) == Some(Price(0, 0)) && r.maxOutputTokens == 8000
    ensures Free(r)
  {
  }

  /** The mock provider's models are free. */
  lemma FreeModel() returns (r: Request)
    ensures Free(r)
  {
    var provider, model := "mock", "any";
    assert PriceFor(provider, model) == Some(Price(0, 0));
    r := Request(provider, model, 0, 8000);
    FreePrice(r);
  }

  /** A failed mission stays failed when the operator retries its task, so a worker that dies in
      the retried execution leaves a task the sweep requeues up to the cap and then never ends
      (`StuckForever`). */
  lemma RetriedTaskGetsStuck(cfg: Config)
    requires cfg.priced(Price(0, 0)) && cfg.maxAttempts >= 1 && cfg.maxRequeues >= 1
    ensures exists t: State :: Reaches(cfg, Init(P), t) && AtCap(cfg, t) && t.db.mission.MissionFailed?
  {
    var r := FreeModel();
    var t := RunsIntoCap(cfg, r);
  }
}
