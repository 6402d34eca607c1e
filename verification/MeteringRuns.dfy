/**
 Runs of one executor, in pieces: the first prompt, an admission, a write-ahead row, an answered
 call, a stored output.  `Recovery`, `Rounding` and `FleetRuns` put them together.
 */
module MeteringRuns {
  import opened Options
  import opened Budget
  import opened Metering
  import opened MeteringProofs

  /** The session of a task's first execution. */
  const FRESH := Session(Task(Running, 0, None), None, [])

  function Prompt(q: Policy, r: Request): Checkpoint {
    Checkpoint(1, PromptAssembled(r, q))
  }

  /** A database whose log is the first prompt. */
  function Tables(q: Policy, r: Request, task: Task, mission: MissionStatus, rows: seq<Row>): Db {
    Db(q, task, mission, rows, [Prompt(q, r)], [])
  }

  /** The first attempt of the first prompt's call, admitted on these rows. */
  function FirstCall(q: Policy, r: Request, rows: seq<Row>): Call {
    Call(1, r, q, false, UsageForTask(rows, 0.0), [], 1)
  }

  predicate OnlyWork(es: seq<Event>) {
    forall i :: 0 <= i < |es| ==> IsWork(es[i])
  }

  /** An executor that is there after some more work was there before it. */
  lemma StillThere(cfg: Config, s: State, es: seq<Event>, t: State)
    requires OnlyWork(es) && Run(cfg, s, es) == Some(t) && t.exec.Some?
    ensures s.exec.Some?
  {
    if es != [] { assert IsWork(es[0]) && Apply(cfg, s, es[0]).Some?; }
  }

  /** Some executor's work leads from `s` to `t`, short of its last commit. */
  ghost predicate Works(cfg: Config, s: State, t: State) {
    exists es: seq<Event> :: OnlyWork(es) && Run(cfg, s, es) == Some(t)
  }

  lemma NoWork(cfg: Config, s: State)
    ensures Works(cfg, s, s)
  {
    assert Run(cfg, s, []) == Some(s);
  }

  lemma WorksOn(cfg: Config, s: State, t: State, e: Event)
    requires Works(cfg, s, t) && IsWork(e) && Apply(cfg, t, e).Some?
    ensures Works(cfg, s, Apply(cfg, t, e).value)
  {
    var es: seq<Event> :| OnlyWork(es) && Run(cfg, s, es) == Some(t);
    RunAppend(cfg, s, es, [e]);
    assert [e][0] == e && [e][1..] == [];
    assert Run(cfg, t, [e]) == Run(cfg, Apply(cfg, t, e).value, []);
    assert OnlyWork(es + [e]);
  }

  lemma WorksReach(cfg: Config, s: State, t: State, u: State)
    requires Reaches(cfg, s, t) && Works(cfg, t, u)
    ensures Reaches(cfg, s, u)
  {
    var es: seq<Event> :| Run(cfg, s, es) == Some(t);
    var fs: seq<Event> :| OnlyWork(fs) && Run(cfg, t, fs) == Some(u);
    RunAppend(cfg, s, es, fs);
    ReachesBy(cfg, s, es + fs, u);
  }

  lemma WorksBoth(cfg: Config, s: State, t: State, u: State)
    requires Works(cfg, s, t) && Works(cfg, t, u)
    ensures Works(cfg, s, u)
  {
    var es: seq<Event> :| OnlyWork(es) && Run(cfg, s, es) == Some(t);
    var fs: seq<Event> :| OnlyWork(fs) && Run(cfg, t, fs) == Some(u);
    RunAppend(cfg, s, es, fs);
    assert OnlyWork(es + fs);
  }

  // ----- the first prompt -----

  lemma Begun(cfg: Config, q: Policy)
    ensures Reaches(cfg, Init(q), Init(q).(exec := Some(Loaded(FRESH))))
  {
    assert Run(cfg, Init(q), []) == Some(Init(q));
    ReachesBy(cfg, Init(q), [], Init(q));
    Then(cfg, Init(q), Init(q), Begin);
  }

  /** The first prompt is saved and its call is next. */
  function AtPrompt(q: Policy, r: Request): State {
    State(Tables(q, r, FRESH.task, MissionRunning, []), Some(Calling(FRESH, 1, r, q, false)), Init(q).hist)
  }

  lemma Prompting(cfg: Config, q: Policy, r: Request)
    requires r.maxOutputTokens == q.maxOutputTokens
    ensures Works(cfg, Init(q).(exec := Some(Loaded(FRESH))), AtPrompt(q, r))
  {
    var s := Init(q).(exec := Some(Loaded(FRESH)));
    NoWork(cfg, s);
    assert s.db.checkpoints + [Prompt(q, r)] == [Prompt(q, r)];
    WorksOn(cfg, s, s, Assemble(r));
  }

  lemma Prompted(cfg: Config, q: Policy, r: Request)
    requires r.maxOutputTokens == q.maxOutputTokens
    ensures Reaches(cfg, Init(q), AtPrompt(q, r))
  {
    Begun(cfg, q);
    Prompting(cfg, q, r);
    WorksReach(cfg, Init(q), Init(q).(exec := Some(Loaded(FRESH))), AtPrompt(q, r));
  }

  /** A later execution finds the first prompt and calls again. */
  lemma Resuming(cfg: Config, q: Policy, r: Request, s: State, x: Session)
    requires s.db.checkpoints == [Prompt(q, r)] && s.exec == Some(Loaded(x))
    ensures Works(cfg, s, s.(exec := Some(Calling(x, 1, r, q, false))))
  {
    assert s.db.checkpoints[..0] == [];
    assert Latest(s.db.checkpoints) == Some(Prompt(q, r));
    NoWork(cfg, s);
    WorksOn(cfg, s, s, Resume);
  }

  // ----- a call -----

  /** The policy lets the prompt's call in on these rows. */
  ghost predicate Affords(cfg: Config, q: Policy, r: Request, rows: seq<Row>) {
    && WorstCase(r).Some? && AtPrice(cfg, r) && cfg.maxAttempts >= 1
    && Evaluate(q, UsageForTask(rows, 0.0), r.maxOutputTokens, false, WorstCase(r).value) == Allowed
  }

  lemma Admitting(cfg: Config, q: Policy, r: Request, s: State, x: Session)
    requires Affords(cfg, q, r, s.db.rows) && s.exec == Some(Calling(x, 1, r, q, false))
    ensures Apply(cfg, s, Admit(0.0)) == Some(s.(exec := Some(Ready(x, FirstCall(q, r, s.db.rows)))))
  {
  }

  /** From a prompt's call to its admission. */
  lemma Entering(cfg: Config, q: Policy, r: Request, s: State, t: State, x: Session)
    requires Works(cfg, s, t) && Affords(cfg, q, r, t.db.rows) && t.exec == Some(Calling(x, 1, r, q, false))
    ensures Works(cfg, s, t.(exec := Some(Ready(x, FirstCall(q, r, t.db.rows)))))
  {
    Admitting(cfg, q, r, t, x);
    WorksOn(cfg, s, t, Admit(0.0));
  }

  function Requesting(r: Request): Row
    requires WorstCase(r).Some?
  {
    Row(Stored(WorstCase(r).value), Requested)
  }

  /** The write-ahead row is committed with everything staged. */
  lemma WritingAhead(cfg: Config, s: State, x: Session, c: Call)
    requires s.exec == Some(Ready(x, c)) && WorstCase(c.req).Some?
    ensures Apply(cfg, s, WriteAhead) ==
            Some(State(Commit(s.db, x).(rows := s.db.rows + [Requesting(c.req)]), Some(Ahead(x, c, |s.db.rows|)),
                       s.hist.(bills := s.hist.bills + [0],
                               retries := s.hist.retries + if c.attempt > 1 then 1 else 0)))
  {
    assert Apply(cfg, s, WriteAhead) == DoWriteAhead(s, s.exec.value);
  }

  // ----- an answer that costs nothing -----

  /** The session's start is committed and `row` is the next row of the ledger. */
  function WithRow(s: State, x: Session, row: Row): Db {
    Commit(s.db, x).(rows := s.db.rows + [row])
  }

  function OneMore(s: State, sent: nat): History {
    s.hist.(sent := s.hist.sent + sent, bills := s.hist.bills + [0])
  }

  /** The first attempt of a call is about to be written ahead, in a session that only starts the task. */
  ghost predicate AtCall(s: State, x: Session, c: Call) {
    && s.exec == Some(Ready(x, c)) && WorstCase(c.req).Some?
    && c.attempt == 1 && x.mission.None? && |s.hist.bills| == |s.db.rows|
  }

  lemma CallWritten(cfg: Config, s: State, x: Session, c: Call)
    requires AtCall(s, x, c)
    ensures Works(cfg, s, State(WithRow(s, x, Requesting(c.req)), Some(Ahead(x, c, |s.db.rows|)), OneMore(s, 0)))
  {
    NoWork(cfg, s);
    WritingAhead(cfg, s, x, c);
    WorksOn(cfg, s, s, WriteAhead);
  }

  lemma CallSent(cfg: Config, s: State, x: Session, c: Call, n: nat)
    requires s.exec == Some(Ahead(x, c, n)) && WorstCase(c.req).Some? && n < |s.hist.bills| && s.hist.bills[n] == 0
    ensures Apply(cfg, s, Send(0)) ==
            Some(s.(exec := Some(InFlight(x, c, n)), hist := s.hist.(sent := s.hist.sent + 1)))
  {
    assert s.hist.bills[n := 0] == s.hist.bills;
    assert Apply(cfg, s, Send(0)) == DoSend(s, s.exec.value, 0);
  }

  lemma CallReceived(cfg: Config, s: State, x: Session, c: Call, n: nat, reply: Reply)
    requires s.exec == Some(InFlight(x, c, n)) && n < |s.hist.bills| && Honest(c.req, s.hist.bills[n], reply)
    ensures Apply(cfg, s, Receive(reply)) == Some(s.(exec := Some(Ending(x, c, n, reply))))
  {
    assert Apply(cfg, s, Receive(reply)) == DoReceive(s, s.exec.value, reply);
  }

  lemma CallFinished(cfg: Config, s: State, x: Session, c: Call, n: nat, reply: Reply, row: Row)
    requires s.exec == Some(Ending(x, c, n, reply)) && n < |s.db.rows|
    requires reply.Answer? && FinishedRow(c.req, reply) == row
    ensures Apply(cfg, s, Finish(0.0)) ==
            Some(s.(db := Commit(s.db, x).(rows := s.db.rows[n := row]),
                    exec := Some(Answered(x, c.sequence, reply.text, c.repair))))
  {
    assert Apply(cfg, s, Finish(0.0)) == DoFinish(cfg, s, s.exec.value, 0.0);
  }

  lemma NothingUsed(price: Price)
    ensures Cost(price, 0, 0) == 0
  {
  }

  /** No tokens were used, so nothing is billed or charged. */
  ghost predicate ForFree(r: Request, reply: Reply) {
    reply.Answer? && Honest(r, 0, reply) && FinishedRow(r, reply) == Row(0, Completed)
  }

  lemma FreeHonest(r: Request, price: Price, text: string)
    requires PriceFor(r.provider, r.model) == Some(price)
    ensures Honest(r, 0, Answer(text, 0, 0))
  {
  }

  lemma FreeCharge(r: Request, price: Price, text: string)
    requires PriceFor(r.provider, r.model) == Some(price)
    ensures Charge(r, Answer(text, 0, 0)) == 0
  {
    NothingUsed(price);
  }

  lemma FreeRow(r: Request, reply: Reply)
    requires reply.Answer? && Charge(r, reply) == 0
    ensures FinishedRow(r, reply) == Row(0, Completed)
  {
    assert Stored(0) == 0;
  }

  lemma FreeAnswer(r: Request, text: string) returns (reply: Reply)
    requires PriceFor(r.provider, r.model).Some?
    ensures reply.Answer? && reply.text == text && ForFree(r, reply)
  {
    reply := Answer(text, 0, 0);
    FreeHonest(r, PriceFor(r.provider, r.model).value, text);
    FreeCharge(r, PriceFor(r.provider, r.model).value, text);
    FreeRow(r, reply);
  }

  lemma CallSaved(cfg: Config, s: State, x: Session, n: int, text: string)
    requires s.exec == Some(Answered(x, n, text, false)) && !SequenceTaken(s.db.checkpoints, n + 1)
    ensures Apply(cfg, s, SaveResponse) ==
            Some(s.(db := Commit(s.db, x).(checkpoints := s.db.checkpoints + [Checkpoint(n + 1, ModelResponded(text))]),
                    exec := Some(Judging(x, text, false))))
  {
    assert Apply(cfg, s, SaveResponse) == DoSaveResponse(s, s.exec.value);
  }

  lemma CallGoesOut(cfg: Config, s: State, t: State, x: Session, c: Call, n: nat, u: State)
    requires Works(cfg, s, t) && t.exec == Some(Ahead(x, c, n)) && WorstCase(c.req).Some?
    requires n < |t.hist.bills| && t.hist.bills[n] == 0
    requires u == t.(exec := Some(InFlight(x, c, n)), hist := t.hist.(sent := t.hist.sent + 1))
    ensures Works(cfg, s, u)
  {
    CallSent(cfg, t, x, c, n);
    WorksOn(cfg, s, t, Send(0));
  }

  lemma CallOut(cfg: Config, s: State, x: Session, c: Call)
    requires AtCall(s, x, c)
    ensures Works(cfg, s, State(WithRow(s, x, Requesting(c.req)), Some(InFlight(x, c, |s.db.rows|)), OneMore(s, 1)))
  {
    CallWritten(cfg, s, x, c);
    var db, n := WithRow(s, x, Requesting(c.req)), |s.db.rows|;
    CallGoesOut(cfg, s, State(db, Some(Ahead(x, c, n)), OneMore(s, 0)), x, c, n,
                State(db, Some(InFlight(x, c, n)), OneMore(s, 1)));
  }

  lemma CallReplied(cfg: Config, s: State, x: Session, c: Call, reply: Reply)
    requires AtCall(s, x, c) && ForFree(c.req, reply)
    ensures Works(cfg, s, State(WithRow(s, x, Requesting(c.req)),
                                Some(Ending(x, c, |s.db.rows|, reply)), OneMore(s, 1)))
  {
    var n := |s.db.rows|;
    CallOut(cfg, s, x, c);
    var t := State(WithRow(s, x, Requesting(c.req)), Some(InFlight(x, c, n)), OneMore(s, 1));
    CallReceived(cfg, t, x, c, n, reply);
    WorksOn(cfg, s, t, Receive(reply));
  }

  /** The answer's row is complete. */
  lemma CallAnswered(cfg: Config, s: State, x: Session, c: Call, reply: Reply)
    requires AtCall(s, x, c) && ForFree(c.req, reply)
    ensures Works(cfg, s, State(WithRow(s, x, Row(0, Completed)),
                                Some(Answered(x, c.sequence, reply.text, c.repair)), OneMore(s, 1)))
  {
    var n := |s.db.rows|;
    CallReplied(cfg, s, x, c, reply);
    var t := State(WithRow(s, x, Requesting(c.req)), Some(Ending(x, c, n, reply)), OneMore(s, 1));
    CallFinished(cfg, t, x, c, n, reply, Row(0, Completed));
    assert t.db.rows[n := Row(0, Completed)] == s.db.rows + [Row(0, Completed)];
    WorksOn(cfg, s, t, Finish(0.0));
  }

  /** The database after an answered first call. */
  function Answer1(q: Policy, r: Request, x: Session, mission: MissionStatus, rows: seq<Row>, text: string): Db {
    Db(q, x.task, mission, rows + [Row(0, Completed)], [Prompt(q, r), Checkpoint(2, ModelResponded(text))], x.artifacts)
  }

  /** From the admission of the first prompt's call to its saved answer. */
  lemma Answering(cfg: Config, q: Policy, r: Request, s: State, x: Session, reply: Reply)
    requires AtCall(s, x, FirstCall(q, r, s.db.rows)) && s.db.checkpoints == [Prompt(q, r)] && s.db.policy == q
    requires ForFree(r, reply)
    ensures Works(cfg, s, State(Answer1(q, r, x, s.db.mission, s.db.rows, reply.text),
                                Some(Judging(x, reply.text, false)), OneMore(s, 1)))
  {
    var c, text := FirstCall(q, r, s.db.rows), reply.text;
    CallAnswered(cfg, s, x, c, reply);
    var s1 := State(WithRow(s, x, Row(0, Completed)), Some(Answered(x, 1, text, false)), OneMore(s, 1));
    CallSaved(cfg, s1, x, 1, text);
    var answer := Checkpoint(2, ModelResponded(text));
    assert s1.db.checkpoints + [answer] == [Prompt(q, r), answer];
    WorksOn(cfg, s, s1, SaveResponse);
  }

  /** A later execution finds the answer. */
  lemma Replaying(cfg: Config, s: State, x: Session, text: string)
    requires |s.db.checkpoints| == 2 && s.db.checkpoints[0].sequence == 1
    requires s.db.checkpoints[1] == Checkpoint(2, ModelResponded(text)) && s.exec == Some(Loaded(x))
    ensures Works(cfg, s, s.(exec := Some(Judging(x, text, false))))
  {
    var cks := s.db.checkpoints;
    assert cks[..1] == [cks[0]] && cks[..1][..0] == [];
    assert Latest(cks[..1]) == Some(cks[0]);
    assert Latest(cks) == Some(cks[1]);
    NoWork(cfg, s);
    WorksOn(cfg, s, s, Resume);
  }

  /** A bad answer is to be repaired, a good one to be stored. */
  lemma Judged(cfg: Config, s: State, t: State, x: Session, text: string)
    requires Works(cfg, s, t) && t.exec == Some(Judging(x, text, false))
    ensures Works(cfg, s, t.(db := Commit(t.db, x),
                             exec := Some(if cfg.valid(text) then Storing(x, text) else Repairing(x, text))))
  {
    WorksOn(cfg, s, t, Judge);
  }

  lemma Kept(cfg: Config, s: State, t: State, x: Session, text: string)
    requires Works(cfg, s, t) && t.exec == Some(Storing(x, text))
    ensures Works(cfg, s, t.(db := Commit(t.db, WithOutput(x, text)),
                             exec := Some(Closing(Complete(WithOutput(x, text))))))
  {
    WorksOn(cfg, s, t, Store);
  }

  /** The output of a session without artifacts. */
  lemma FirstOutput(x: Session, text: string)
    requires x.artifacts == []
    ensures WithOutput(x, text) == x.(task := x.task.(output := Some(0)), artifacts := [Artifact(MissionOutput, text)])
  {
    var arts := [Artifact(MissionOutput, text)];
    assert [] + arts == arts && arts[..0] == [];
    assert FindArtifact(arts[..0], MissionOutput).None?;
  }

  // ----- whole calls on a ledger of free rows -----

  /** The tables with these rows, and as many bills of nothing. */
  function Ledger(policy: Policy, r: Request, rows: seq<Row>, x: Exec): State {
    State(Tables(policy, r, FRESH.task, MissionRunning, rows), Some(x), History(0, seq(|rows|, i => 0), 0, 0))
  }

  lemma WriteRow(cfg: Config, policy: Policy, r: Request, c: Call, rows: seq<Row>)
    requires WorstCase(r).Some? && c.req == r && c.attempt == 1
    ensures Works(cfg, Ledger(policy, r, rows, Ready(FRESH, c)),
                    Ledger(policy, r, rows + [Requesting(r)], Ahead(FRESH, c, |rows|)))
  {
    var s := Ledger(policy, r, rows, Ready(FRESH, c));
    CallWritten(cfg, s, FRESH, c);
    assert s.hist.bills + [0] == seq(|rows| + 1, i => 0);
  }

  /** The same after the first call was answered and its output stored. */
  function Output(policy: Policy, r: Request, rows: seq<Row>, text: string): State {
    var z := Session(FRESH.task.(output := Some(0)), None, [Artifact(MissionOutput, text)]);
    State(Answer1(policy, r, z, MissionRunning, rows, text), Some(Closing(Complete(z))), AfterAnswer(rows))
  }

  function AfterAnswer(rows: seq<Row>): History {
    History(1, seq(|rows| + 1, i => 0), 0, 0)
  }

  lemma Stores(cfg: Config, policy: Policy, r: Request, rows: seq<Row>, reply: Reply)
    requires Affords(cfg, policy, r, rows) && ForFree(r, reply) && cfg.valid(reply.text)
    ensures Works(cfg, Ledger(policy, r, rows, Loaded(FRESH)), Output(policy, r, rows, reply.text))
  {
    var s := Ledger(policy, r, rows, Loaded(FRESH));
    Resuming(cfg, policy, r, s, FRESH);
    Entering(cfg, policy, r, s, s.(exec := Some(Calling(FRESH, 1, r, policy, false))), FRESH);
    var s1 := s.(exec := Some(Ready(FRESH, FirstCall(policy, r, rows))));
    Answering(cfg, policy, r, s1, FRESH, reply);
    assert OneMore(s1, 1) == AfterAnswer(rows);
    var s2 := State(Answer1(policy, r, FRESH, MissionRunning, rows, reply.text),
                    Some(Judging(FRESH, reply.text, false)), AfterAnswer(rows));
    WorksBoth(cfg, s, s1, s2);
    KeepsOutput(cfg, policy, r, rows, reply.text, s, s2);
  }

  lemma KeepsOutput(cfg: Config, policy: Policy, r: Request, rows: seq<Row>, text: string, s: State, t: State)
    requires Works(cfg, s, t) && cfg.valid(text) && t.hist == AfterAnswer(rows)
    requires t.exec == Some(Judging(FRESH, text, false))
    requires t.db == Answer1(policy, r, FRESH, MissionRunning, rows, text)
    ensures Works(cfg, s, Output(policy, r, rows, text))
  {
    Judged(cfg, s, t, FRESH, text);
    assert Commit(t.db, FRESH) == t.db;
    Kept(cfg, s, t.(exec := Some(Storing(FRESH, text))), FRESH, text);
    FirstOutput(FRESH, text);
  }
}
