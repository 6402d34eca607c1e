/**
 What the fleet keeps exactly when its heartbeat race excludes: the ceilings, the checkpoint log and
 the finality of the output.  One direction is `Fleet`; here are the runs that break each of them
 for every other choice of parameters, each with two workers inside at once.
 */
module FleetLimits {
  import opened Options
  import opened Budget
  import M = Metering
  import P = MeteringProofs
  import R = MeteringRuns
  import L = Lease
  import opened Fleet
  import opened FleetRuns

  // ----- two workers inside -----

  /** Worker 0 did what leads an executor to `s`; then worker 1 started beside it. */
  function Pair(p: L.Params, s: M.State, gap: real, x: M.Exec): State
    requires s.exec.Some?
  {
    WithWorker(First(p, s).(lease := Doubled(p, 0, gap)), 1, x)
  }

  lemma Paired(p: L.Params, cfg: M.Config, policy: Policy, s: M.State, gap: real)
    requires p.Valid() && L.CanOutlive(p, gap) && s.exec.Some? && s.db.task == R.FRESH.task && s.db.artifacts == []
    requires R.Works(cfg, M.Init(policy).(exec := Some(M.Loaded(R.FRESH))), s)
    ensures Reaches(p, cfg, policy, Pair(p, s, gap, M.Loaded(R.FRESH)))
    ensures InStep(Pair(p, s, gap, M.Loaded(R.FRESH)), 0) && InStep(Pair(p, s, gap, M.Loaded(R.FRESH)), 1)
  {
    FirstWorks(p, cfg, policy, s);
    RunningLoads(s.db);
    Overtakes(p, cfg, policy, First(p, s), 0, gap, R.FRESH);
  }

  // ----- both write ahead -----

  /** Both workers are admitted on the same ledger. */
  lemma BothAdmitted(p: L.Params, cfg: M.Config, policy: Policy, r: Request, gap: real)
    requires p.Valid() && L.CanOutlive(p, gap)
    requires R.Affords(cfg, policy, r, []) && r.maxOutputTokens == policy.maxOutputTokens
    ensures var s := R.AtPrompt(policy, r).(exec := Some(M.Ready(R.FRESH, R.FirstCall(policy, r, []))));
            Reaches(p, cfg, policy, Pair(p, s, gap, s.exec.value))
  {
    var begin := M.Init(policy).(exec := Some(M.Loaded(R.FRESH)));
    var s := R.AtPrompt(policy, r).(exec := Some(M.Ready(R.FRESH, R.FirstCall(policy, r, []))));
    R.Prompting(cfg, policy, r);
    R.Entering(cfg, policy, r, begin, R.AtPrompt(policy, r), R.FRESH);
    Paired(p, cfg, policy, s, gap);
    var f := Pair(p, s, gap, M.Loaded(R.FRESH));
    var t := Lens(f, f.work[1]);
    R.Resuming(cfg, policy, r, t, R.FRESH);
    R.Entering(cfg, policy, r, t, t.(exec := Some(M.Calling(R.FRESH, 1, r, policy, false))), R.FRESH);
    Works(p, cfg, policy, f, 1, s);
    assert Progress(f, 1, s).work == Pair(p, s, gap, s.exec.value).work;
  }

  /** And each then commits its write-ahead row. */
  lemma BothWrite(p: L.Params, cfg: M.Config, policy: Policy, r: Request, gap: real) returns (f: State)
    requires p.Valid() && L.CanOutlive(p, gap)
    requires R.Affords(cfg, policy, r, []) && r.maxOutputTokens == policy.maxOutputTokens
    ensures Reaches(p, cfg, policy, f) && f.db.rows == [R.Requesting(r), R.Requesting(r)]
  {
    var c, row := R.FirstCall(policy, r, []), R.Requesting(r);
    var s := R.AtPrompt(policy, r).(exec := Some(M.Ready(R.FRESH, c)));
    BothAdmitted(p, cfg, policy, r, gap);
    var g := Pair(p, s, gap, s.exec.value);
    assert Lens(g, g.work[1]) == R.Ledger(policy, r, [], M.Ready(R.FRESH, c));
    R.WriteRow(cfg, policy, r, c, []);
    assert [] + [row] == [row];
    var s1 := R.Ledger(policy, r, [row], M.Ahead(R.FRESH, c, 0));
    Works(p, cfg, policy, g, 1, s1);
    var h := Progress(g, 1, s1);
    assert Lens(h, h.work[0]) == R.Ledger(policy, r, [row], M.Ready(R.FRESH, c));
    R.WriteRow(cfg, policy, r, c, [row]);
    assert [row] + [row] == [row, row];
    var s2 := R.Ledger(policy, r, [row, row], M.Ahead(R.FRESH, c, 1));
    Works(p, cfg, policy, h, 0, s2);
    f := Progress(h, 0, s2);
  }

  // ----- the ceilings -----

  /** Over all runs, whatever the configuration and the policy. */
  ghost predicate CostCeilingKept(p: L.Params) {
    forall cfg, policy, es {:trigger Run(p, cfg, Init(policy), es)} :: Run(p, cfg, Init(policy), es).Some? ==>
      M.SumCost(Run(p, cfg, Init(policy), es).value.db.rows)
        <= P.Max0(policy.maxCost) + P.Gain(cfg, P.Max0(cfg.maxAttempts))
  }

  ghost predicate CallCeilingKept(p: L.Params) {
    forall cfg, policy, es {:trigger Run(p, cfg, Init(policy), es)} :: Run(p, cfg, Init(policy), es).Some? ==>
      |Run(p, cfg, Init(policy), es).value.db.rows| <= P.Max0(policy.maxCalls)
  }

  /** At whole prices: billed <= committed <= the ceiling. */
  ghost predicate SpendsSafely(p: L.Params) {
    forall cfg, policy, es {:trigger Run(p, cfg, Init(policy), es)} ::
      P.AllWhole(cfg) && Run(p, cfg, Init(policy), es).Some? ==>
        var f := Run(p, cfg, Init(policy), es).value;
        M.Sum(f.hist.bills) <= M.SumCost(f.db.rows) <= P.Max0(policy.maxCost)
  }

  /** Whole prices only, and one attempt per call. */
  const WHOLE := M.Config(1, 0, _ => true, price => WholePrice(price))

  /** A request whose call costs 100 units at most. */
  ghost predicate IsHaiku(r: Request) {
    PriceFor(r.provider, r.model) == Some(Price(100, 500)) && WorstCase(r) == Some(100) && r.maxOutputTokens == 0
  }

  lemma Haiku() returns (r: Request)
    ensures IsHaiku(r)
  {
    var provider, model := "anthropic", "claude-haiku-4-5-20251001";
    assert PriceFor(provider, model) == Some(Price(100, 500));
    r := Request(provider, model, 3, 0);
    HaikuCost(r);
  }

  lemma HaikuCost(r: Request)
    requires PriceFor(r.provider, r.model) == Some(Price(100, 500)) && r.promptBytes == 3 && r.maxOutputTokens == 0
    ensures WorstCase(r) == Some(100)
  {
    assert EstimateInputTokens(3) == 1;
  }

  lemma HaikuAfforded(cfg: M.Config, policy: Policy, r: Request, rows: seq<M.Row>)
    requires IsHaiku(r) && cfg.priced(Price(100, 500)) && cfg.maxAttempts >= 1 && policy.maxMinutes > 0
    requires |rows| < policy.maxCalls && M.SumCost(rows) + 100 <= policy.maxCost
    ensures R.Affords(cfg, policy, r, rows)
  {
  }

  /** A run with one call and 100 units allowed, and two calls and 200 units committed. */
  lemma Overspends(p: L.Params) returns (policy: Policy, es: seq<Event>)
    requires p.Valid() && L.Unsafe(p)
    ensures policy.maxCost == 100 && policy.maxCalls == 1 && Run(p, WHOLE, Init(policy), es).Some?
    ensures var rows := Run(p, WHOLE, Init(policy), es).value.db.rows; |rows| == 2 && M.SumCost(rows) == 200
  {
    var gap: real :| L.CanOutlive(p, gap);
    var r := Haiku();
    policy := Policy(100, 1, 1, 0, 0);
    HaikuAfforded(WHOLE, policy, r, []);
    var f := BothWrite(p, WHOLE, policy, r, gap);
    HaikuRows(r, f.db.rows);
    es :| Prompt(es) && Run(p, WHOLE, Init(policy), es) == Some(f);
  }

  lemma HaikuRows(r: Request, rows: seq<M.Row>)
    requires WorstCase(r) == Some(100) && rows == [R.Requesting(r), R.Requesting(r)]
    ensures M.SumCost(rows) == 200
  {
    var row := R.Requesting(r);
    assert Stored(100) == 100;
    assert rows[..1] == [row] && rows[..1][..0] == [];
    assert M.SumCost(rows[..1]) == 100;
  }

  lemma WholeIsWhole()
    ensures P.AllWhole(WHOLE)
  {
  }

  lemma KeptWhenExclusive(p: L.Params)
    requires p.Valid() && !L.Unsafe(p)
    ensures CostCeilingKept(p) && CallCeilingKept(p) && SpendsSafely(p)
  {
    forall cfg, policy, es {:trigger Run(p, cfg, Init(policy), es)} | Run(p, cfg, Init(policy), es).Some?
      ensures WithinCeilings(cfg, policy, Run(p, cfg, Init(policy), es).value)
    {
      FleetSpendSafety(p, cfg, policy, es);
    }
    forall cfg | P.AllWhole(cfg) ensures P.AllHalf(cfg) { WholeIsHalf(cfg); }
  }

  lemma WholeIsHalf(cfg: M.Config)
    requires P.AllWhole(cfg)
    ensures P.AllHalf(cfg)
  {
    forall price {:trigger cfg.priced(price)} | cfg.priced(price) ensures HalfPrice(price) {
      assert WholePrice(price);
      WholeHalves(price.input);
      WholeHalves(price.output);
    }
  }

  lemma WholeHalves(a: nat)
    requires a % 100 == 0
    ensures a % 50 == 0
  {
    var q := a / 100;
    assert a == 50 * (2 * q);
  }

  /** The cost ceiling holds over all runs, the call ceiling does, and billed <= committed <= ceiling
      does at whole prices: each if and only if the heartbeat race excludes. */
  lemma FleetCeilingsIff(p: L.Params)
    requires p.Valid()
    ensures CostCeilingKept(p) <==> !L.Unsafe(p)
    ensures CallCeilingKept(p) <==> !L.Unsafe(p)
    ensures SpendsSafely(p) <==> !L.Unsafe(p)
  {
    if L.Unsafe(p) {
      var policy, es := Overspends(p);
      WholeIsWhole();
    } else {
      KeptWhenExclusive(p);
    }
  }

  /** With the shipped constants: if and only if a lease command is stamped the instant it takes effect. */
  lemma DefaultFleetIsSafe(lag: real, commit: real)
    requires lag >= 0.0 && commit >= 0.0
    ensures CostCeilingKept(L.Defaults(lag, commit)) <==> lag == 0.0
    ensures CallCeilingKept(L.Defaults(lag, commit)) <==> lag == 0.0
    ensures SpendsSafely(L.Defaults(lag, commit)) <==> lag == 0.0
  {
    L.DefaultsNeedNoLag(lag, commit);
    L.ExclusionIff(L.Defaults(lag, commit));
    FleetCeilingsIff(L.Defaults(lag, commit));
  }

  // ----- both repair -----

  /** An answered first call, nothing else. */
  function Answered(policy: Policy, r: Request, text: string, x: M.Exec): M.State {
    M.State(R.Answer1(policy, r, R.FRESH, M.MissionRunning, [], text), Some(x), M.History(1, [0], 0, 0))
  }

  /** Worker 0's answer breaks the contract and is to be repaired. */
  lemma ToRepair(cfg: M.Config, policy: Policy, r: Request, reply: M.Reply)
    requires R.Affords(cfg, policy, r, []) && r.maxOutputTokens == policy.maxOutputTokens
    requires R.ForFree(r, reply) && !cfg.valid(reply.text)
    ensures R.Works(cfg, M.Init(policy).(exec := Some(M.Loaded(R.FRESH))),
                    Answered(policy, r, reply.text, M.Repairing(R.FRESH, reply.text)))
  {
    var begin, text := M.Init(policy).(exec := Some(M.Loaded(R.FRESH))), reply.text;
    R.Prompting(cfg, policy, r);
    R.Entering(cfg, policy, r, begin, R.AtPrompt(policy, r), R.FRESH);
    var s := R.AtPrompt(policy, r).(exec := Some(M.Ready(R.FRESH, R.FirstCall(policy, r, []))));
    R.Answering(cfg, policy, r, s, R.FRESH, reply);
    var t := Answered(policy, r, text, M.Judging(R.FRESH, text, false));
    assert s.hist.bills + [0] == [0];
    R.WorksBoth(cfg, begin, s, t);
    R.Judged(cfg, begin, t, R.FRESH, text);
    assert M.Commit(t.db, R.FRESH) == t.db;
  }

  /** The log with one more prompt, whose call is next. */
  function Repaired(policy: Policy, r: Request, s: M.State): M.State {
    var n := |s.db.checkpoints| + 1;
    s.(db := M.Commit(s.db, R.FRESH).(checkpoints := s.db.checkpoints + [Prompted(n, r, policy)]),
       exec := Some(M.Calling(R.FRESH, n, r, policy, true)))
  }

  /** The repair prompt takes the next sequence. */
  lemma Repairs(cfg: M.Config, policy: Policy, r: Request, s: M.State, text: string)
    requires s.exec == Some(M.Repairing(R.FRESH, text)) && s.db.policy == policy && P.LogShape(policy, s.db.checkpoints)
    requires s.db.checkpoints != [] && r.maxOutputTokens == policy.maxOutputTokens
    ensures R.Works(cfg, s, Repaired(policy, r, s))
  {
    P.LatestIsLast(policy, s.db.checkpoints);
    R.NoWork(cfg, s);
    R.WorksOn(cfg, s, s, M.Assemble(r));
  }

  lemma WorkerRepairs(p: L.Params, cfg: M.Config, policy: Policy, r: Request, f: State, t: nat, text: string)
    requires Reaches(p, cfg, policy, f) && InStep(f, t) && f.work[t].x == M.Repairing(R.FRESH, text)
    requires f.db.policy == policy && P.LogShape(policy, f.db.checkpoints)
    requires f.db.checkpoints != [] && r.maxOutputTokens == policy.maxOutputTokens
    ensures Reaches(p, cfg, policy, Progress(f, t, Repaired(policy, r, M.State(f.db, Some(f.work[t].x), f.hist))))
  {
    var s := Lens(f, f.work[t]);
    assert s == M.State(f.db, Some(f.work[t].x), f.hist);
    Repairs(cfg, policy, r, s, text);
    Works(p, cfg, policy, f, t, Repaired(policy, r, s));
  }

  function Prompted(n: int, r: Request, policy: Policy): M.Checkpoint {
    M.Checkpoint(n, M.PromptAssembled(r, policy))
  }

  /** Worker 1 finds the same answer and is to repair it as well. */
  lemma BothToRepair(p: L.Params, cfg: M.Config, policy: Policy, r: Request, reply: M.Reply, gap: real)
    requires p.Valid() && L.CanOutlive(p, gap) && R.Affords(cfg, policy, r, [])
    requires r.maxOutputTokens == policy.maxOutputTokens && R.ForFree(r, reply) && !cfg.valid(reply.text)
    ensures var s := Answered(policy, r, reply.text, M.Repairing(R.FRESH, reply.text));
            Reaches(p, cfg, policy, Pair(p, s, gap, s.exec.value))
  {
    var text := reply.text;
    var s := Answered(policy, r, text, M.Repairing(R.FRESH, text));
    ToRepair(cfg, policy, r, reply);
    Paired(p, cfg, policy, s, gap);
    var f := Pair(p, s, gap, M.Loaded(R.FRESH));
    var t := Lens(f, f.work[1]);
    R.Replaying(cfg, t, R.FRESH, text);
    R.Judged(cfg, t, t.(exec := Some(M.Judging(R.FRESH, text, false))), R.FRESH, text);
    assert M.Commit(t.db, R.FRESH) == t.db;
    Works(p, cfg, policy, f, 1, s);
    assert Progress(f, 1, s).work == Pair(p, s, gap, s.exec.value).work;
  }

  /** Both save their repair prompts, one after the other. */
  lemma BothRepair(p: L.Params, cfg: M.Config, policy: Policy, r: Request, reply: M.Reply, gap: real) returns (f: State)
    requires p.Valid() && L.CanOutlive(p, gap) && R.Affords(cfg, policy, r, [])
    requires r.maxOutputTokens == policy.maxOutputTokens && R.ForFree(r, reply) && !cfg.valid(reply.text)
    ensures Reaches(p, cfg, policy, f) && |f.db.checkpoints| == 4 && f.db.checkpoints[3] == Prompted(4, r, policy)
  {
    var text := reply.text;
    var s := Answered(policy, r, text, M.Repairing(R.FRESH, text));
    BothToRepair(p, cfg, policy, r, reply, gap);
    var g := Pair(p, s, gap, s.exec.value);
    WorkerRepairs(p, cfg, policy, r, g, 0, text);
    var h := Progress(g, 0, Repaired(policy, r, s));
    WorkerRepairs(p, cfg, policy, r, h, 1, text);
    f := Progress(h, 1, Repaired(policy, r, M.State(h.db, Some(h.work[1].x), h.hist)));
  }

  ghost predicate AlwaysLogAndOutput(p: L.Params) {
    forall cfg, policy, es {:trigger Run(p, cfg, Init(policy), es)} :: Run(p, cfg, Init(policy), es).Some? ==>
      LogAndOutput(cfg, policy, Run(p, cfg, Init(policy), es).value.db)
  }

  lemma LogBreaks(p: L.Params)
    requires p.Valid() && L.Unsafe(p)
    ensures !AlwaysLogAndOutput(p)
  {
    var gap: real :| L.CanOutlive(p, gap);
    var r := Haiku();
    var cfg := WHOLE.(valid := _ => false);
    var policy := Policy(100, 1, 1, 0, 0);
    HaikuAfforded(cfg, policy, r, []);
    var reply := R.FreeAnswer(r, "");
    var f := BothRepair(p, cfg, policy, r, reply, gap);
    assert !P.LogShape(policy, f.db.checkpoints);
    var es: seq<Event> :| Prompt(es) && Run(p, cfg, Init(policy), es) == Some(f);
  }

  /** The shape of the log and the output hold over all runs if and only if the heartbeat race excludes:
      otherwise two workers can repair one answer, and the log has two prompts in a row. */
  lemma FleetOutputIff(p: L.Params)
    requires p.Valid()
    ensures AlwaysLogAndOutput(p) <==> !L.Unsafe(p)
  {
    if L.Unsafe(p) {
      LogBreaks(p);
    } else {
      forall cfg, policy, es {:trigger Run(p, cfg, Init(policy), es)} | Run(p, cfg, Init(policy), es).Some?
        ensures LogAndOutput(cfg, policy, Run(p, cfg, Init(policy), es).value.db)
      {
        FleetOutputOnce(p, cfg, policy, es);
      }
    }
  }

  // ----- one sends after the other has stored the output -----

  /** Worker 0 has written its row ahead. */
  lemma FirstAhead(cfg: M.Config, policy: Policy, r: Request)
    requires R.Affords(cfg, policy, r, []) && r.maxOutputTokens == policy.maxOutputTokens
    ensures R.Works(cfg, M.Init(policy).(exec := Some(M.Loaded(R.FRESH))),
                    R.Ledger(policy, r, [R.Requesting(r)], M.Ahead(R.FRESH, R.FirstCall(policy, r, []), 0)))
  {
    var begin, c := M.Init(policy).(exec := Some(M.Loaded(R.FRESH))), R.FirstCall(policy, r, []);
    R.Prompting(cfg, policy, r);
    R.Entering(cfg, policy, r, begin, R.AtPrompt(policy, r), R.FRESH);
    R.WriteRow(cfg, policy, r, c, []);
    assert [] + [R.Requesting(r)] == [R.Requesting(r)];
    assert R.Ledger(policy, r, [], M.Ready(R.FRESH, c)) == R.AtPrompt(policy, r).(exec := Some(M.Ready(R.FRESH, c)));
    R.WorksBoth(cfg, begin, R.Ledger(policy, r, [], M.Ready(R.FRESH, c)),
                R.Ledger(policy, r, [R.Requesting(r)], M.Ahead(R.FRESH, c, 0)));
  }

  /** Worker 1 has stored the output; worker 0 has a row and has not sent its request yet. */
  lemma OutputBeside(p: L.Params, cfg: M.Config, policy: Policy, r: Request, reply: M.Reply, gap: real)
    returns (f: State)
    requires p.Valid() && L.CanOutlive(p, gap) && r.maxOutputTokens == policy.maxOutputTokens
    requires R.Affords(cfg, policy, r, []) && R.Affords(cfg, policy, r, [R.Requesting(r)])
    requires R.ForFree(r, reply) && cfg.valid(reply.text)
    ensures Reaches(p, cfg, policy, f) && P.IsOutput(f.db, 0) && 0 in f.work && L.Inside(f.lease, 0) && f.last == map[]
    ensures f.work[0] == Worker(M.Ahead(R.FRESH, R.FirstCall(policy, r, []), 0), R.FRESH.task) && f.hist.bills == [0, 0]
  {
    var s := R.Ledger(policy, r, [R.Requesting(r)], M.Ahead(R.FRESH, R.FirstCall(policy, r, []), 0));
    FirstAhead(cfg, policy, r);
    Paired(p, cfg, policy, s, gap);
    var g := Pair(p, s, gap, M.Loaded(R.FRESH));
    assert Lens(g, g.work[1]) == R.Ledger(policy, r, [R.Requesting(r)], M.Loaded(R.FRESH));
    R.Stores(cfg, policy, r, [R.Requesting(r)], reply);
    Works(p, cfg, policy, g, 1, R.Output(policy, r, [R.Requesting(r)], reply.text));
    f := Progress(g, 1, R.Output(policy, r, [R.Requesting(r)], reply.text));
  }

  /** And sends it after all. */
  lemma SendsAfter(p: L.Params, cfg: M.Config, policy: Policy, r: Request, f: State)
    requires WorstCase(r).Some? && 0 in f.work && L.Inside(f.lease, 0) && f.last == map[] && |f.hist.bills| > 0
    requires f.work[0] == Worker(M.Ahead(R.FRESH, R.FirstCall(policy, r, []), 0), R.FRESH.task)
    requires f.hist.bills[0] == 0
    ensures Run(p, cfg, f, [Work(0, M.Send(0))]).Some?
    ensures Run(p, cfg, f, [Work(0, M.Send(0))]).value.hist.sent == f.hist.sent + 1
  {
    var w := f.work[0];
    R.CallSent(cfg, Lens(f, w), w.x.s, w.x.c, 0);
    assert [Work(0, M.Send(0))][..0] == [];
    assert Run(p, cfg, f, []) == Some(f);
    assert Run(p, cfg, f, [Work(0, M.Send(0))]) == Apply(p, cfg, f, Work(0, M.Send(0)));
  }

  /** Over all runs: once an output is committed the ledger, the log and the output stay as they are. */
  ghost predicate AlwaysFrozen(p: L.Params) {
    forall cfg, policy, es, fs, id: nat
      {:trigger Run(p, cfg, Run(p, cfg, Init(policy), es).value, fs),
                P.IsOutput(Run(p, cfg, Init(policy), es).value.db, id)} ::
      Run(p, cfg, Init(policy), es).Some? ==>
        var f := Run(p, cfg, Init(policy), es).value;
        P.IsOutput(f.db, id) && Run(p, cfg, f, fs).Some? ==> Frozen(f, Run(p, cfg, f, fs).value, id)
  }

  lemma FrozenBreaks(p: L.Params)
    requires p.Valid() && L.Unsafe(p)
    ensures !AlwaysFrozen(p)
  {
    var gap: real :| L.CanOutlive(p, gap);
    var r := Haiku();
    var policy := Policy(200, 2, 1, 0, 0);
    HaikuAfforded(WHOLE, policy, r, []);
    assert M.SumCost([R.Requesting(r)]) == 100 by { HaikuRow(r); }
    HaikuAfforded(WHOLE, policy, r, [R.Requesting(r)]);
    var reply := R.FreeAnswer(r, "");
    var f := OutputBeside(p, WHOLE, policy, r, reply, gap);
    SendsAfter(p, WHOLE, policy, r, f);
    var es: seq<Event> :| Prompt(es) && Run(p, WHOLE, Init(policy), es) == Some(f);
    assert !Frozen(f, Run(p, WHOLE, f, [Work(0, M.Send(0))]).value, 0);
  }

  lemma HaikuRow(r: Request)
    requires WorstCase(r) == Some(100)
    ensures M.SumCost([R.Requesting(r)]) == 100
  {
    assert Stored(100) == 100;
    assert [R.Requesting(r)][..0] == [];
  }

  /** Nothing is sent, charged or checkpointed after the output is committed, over all runs, if and only
      if the heartbeat race excludes: otherwise a worker can send its request after another's output. */
  lemma FleetFrozenIff(p: L.Params)
    requires p.Valid()
    ensures AlwaysFrozen(p) <==> !L.Unsafe(p)
  {
    if L.Unsafe(p) {
      FrozenBreaks(p);
    } else {
      forall cfg, policy, es, fs, id: nat
        | Run(p, cfg, Init(policy), es).Some? && P.IsOutput(Run(p, cfg, Init(policy), es).value.db, id)
          && Run(p, cfg, Run(p, cfg, Init(policy), es).value, fs).Some?
        ensures var f := Run(p, cfg, Init(policy), es).value; Frozen(f, Run(p, cfg, f, fs).value, id)
      {
        Reachable(p, cfg, policy, es);
        FleetOutputFrozen(p, cfg, Run(p, cfg, Init(policy), es).value, fs, id);
      }
    }
  }
}
