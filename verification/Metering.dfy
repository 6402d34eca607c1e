/**
 One task's metered execution as a step system: the worker (services/worker/main.py), the task
 executor, the durable adapter, the model gateway and its write-ahead ledger.

 `Db` is what has been committed.  `Exec` is one executor's volatile state, a program counter
 with its locals and the session's staged writes; `Crash` discards it at any point, and also
 stands for a lost lease, a cancelled call, a failed commit and every uncaught exception, all of
 which roll the session back.  `History` records what no table stores: what was sent and billed.
 Each event is one commit, one read or one exchange with the provider.
 */
module Metering {
  import opened Options
  import opened Budget

  datatype TaskStatus = Queued | Running | TaskFailed | TaskCompleted

  datatype MissionStatus = Draft | MissionReady | MissionRunning | Paused | MissionFailed | MissionCompleted | Cancelled

  datatype RowStatus = Requested | Completed | Failed

  /** A `model_invocations` row; its id is its position, its cost what the column keeps. */
  datatype Row = Row(cost: nat, status: RowStatus)

  datatype Stage = PromptAssembled(req: Request, policy: Policy) | ModelResponded(text: string)

  datatype Checkpoint = Checkpoint(sequence: int, stage: Stage)

  datatype ArtifactKind = MissionOutput | RawModelResponse

  datatype Artifact = Artifact(kind: ArtifactKind, content: string)

  /** `output` is output_artifact_id, a position in the artifact table. */
  datatype Task = Task(status: TaskStatus, retryCount: nat, output: Option<nat>)

  datatype Db = Db(
    policy: Policy, task: Task, mission: MissionStatus,
    rows: seq<Row>, checkpoints: seq<Checkpoint>, artifacts: seq<Artifact>)

  /** What the request-scoped session holds and the next commit makes durable. */
  datatype Session = Session(task: Task, mission: Option<MissionStatus>, artifacts: seq<Artifact>)

  /** The gateway's `_Call` together with the prompt checkpoint it serves. */
  datatype Call = Call(
    sequence: int, req: Request, policy: Policy, repair: bool,
    usage: Usage, failed: seq<nat>, attempt: nat)

  datatype Reply = Answer(text: string, tokensIn: nat, tokensOut: nat) | Failure(status: Option<int>)

  datatype Exec =
    | Loaded(s: Session)
    | Calling(s: Session, sequence: int, req: Request, policy: Policy, repair: bool)
    | Ready(s: Session, c: Call)
    | Ahead(s: Session, c: Call, row: nat)
    | InFlight(s: Session, c: Call, row: nat)
    | Ending(s: Session, c: Call, row: nat, reply: Reply)
    | Answered(s: Session, sequence: int, text: string, repair: bool)
    | Judging(s: Session, text: string, repair: bool)
    | Repairing(s: Session, text: string)
    | Storing(s: Session, text: string)
    | Closing(s: Session)

  /** `bills[i]` is what the provider charges for the request of row i (0 until it is sent);
      `retries` counts attempts after the first of their call, `requeues` recoveries. */
  datatype History = History(sent: nat, bills: seq<nat>, retries: nat, requeues: nat)

  datatype State = State(db: Db, exec: Option<Exec>, hist: History)

  /** `valid` is the output contract, `validate_mission_output`; `priced` restricts the runs to
      those in which every call has such a price. */
  datatype Config = Config(maxAttempts: int, maxRequeues: int, valid: string -> bool, priced: Price -> bool)

  datatype Event =
    | Begin
    | Assemble(req: Request)
    | Resume
    | NoProvider
    | Admit(minutes: real)
    | CircuitOpen
    | WriteAhead
    | Send(bill: nat)
    | Receive(reply: Reply)
    | Finish(minutes: real)
    | SaveResponse
    | Judge
    | Store
    | FinalCommit
    | Crash
    | Sweep
    | OperatorRetry
    | MissionMoves(to: MissionStatus)

  /** Events an executor performs by itself, before its last commit. */
  predicate IsWork(e: Event) {
    !e.Begin? && !e.Sweep? && !e.OperatorRetry? && !e.MissionMoves? && !e.FinalCommit?
  }

  // ----- reading the tables -----

  function SumCost(rows: seq<Row>): nat {
    if rows == [] then 0 else SumCost(rows[..|rows| - 1]) + rows[|rows| - 1].cost
  }

  /** Rows that are, or are not, `completed`. */
  function CountRows(rows: seq<Row>, completed: bool): nat {
    if rows == [] then 0
    else CountRows(rows[..|rows| - 1], completed) + if (rows[|rows| - 1].status == Completed) == completed then 1 else 0
  }

  function Sum(xs: seq<nat>): nat {
    if xs == [] then 0 else Sum(xs[..|xs| - 1]) + xs[|xs| - 1]
  }

  /** `usage_for_task`: all rows are calls, and every row that is not completed is a retry. */
  function UsageForTask(rows: seq<Row>, minutes: real): Usage {
    Usage(|rows|, SumCost(rows), minutes, CountRows(rows, false))
  }

  /** `latest_for_task`: the row with the highest sequence. */
  function Latest(cks: seq<Checkpoint>): Option<Checkpoint> {
    if cks == [] then None
    else
      var rest := Latest(cks[..|cks| - 1]);
      var last := cks[|cks| - 1];
      if rest.Some? && rest.value.sequence >= last.sequence then rest else Some(last)
  }

  predicate SequenceTaken(cks: seq<Checkpoint>, sequence: int) {
    exists i :: 0 <= i < |cks| && cks[i].sequence == sequence
  }

  /** `find_committed`: the artifact of this kind, if any. */
  function FindArtifact(arts: seq<Artifact>, kind: ArtifactKind): (id: Option<nat>)
    ensures id.Some? ==> id.value < |arts| && arts[id.value].kind == kind
    ensures id.None? ==> forall i :: 0 <= i < |arts| ==> arts[i].kind != kind
  {
    if arts == [] then None
    else
      var rest := FindArtifact(arts[..|arts| - 1], kind);
      if rest.Some? then rest else if arts[|arts| - 1].kind == kind then Some(|arts| - 1) else None
  }

  // ----- writing -----

  function Commit(db: Db, s: Session): Db {
    db.(task := s.task, artifacts := s.artifacts, mission := if s.mission.Some? then s.mission.value else db.mission)
  }

  /** `commit_artifact` inside the session: an existing artifact of the kind wins. */
  function WithArtifact(s: Session, kind: ArtifactKind, content: string): Session {
    if FindArtifact(s.artifacts, kind).Some? then s else s.(artifacts := s.artifacts + [Artifact(kind, content)])
  }

  /** The output artifact committed, or found, and owned by the task. */
  function WithOutput(s: Session, content: string): Session {
    var y := WithArtifact(s, MissionOutput, content);
    y.(task := y.task.(output := FindArtifact(y.artifacts, MissionOutput)))
  }

  /** `_fail`. */
  function Fail(s: Session): Session {
    s.(task := s.task.(status := TaskFailed), mission := Some(MissionFailed))
  }

  function Complete(s: Session): Session {
    s.(task := s.task.(status := TaskCompleted), mission := Some(MissionCompleted))
  }

  function Step(s: State, db: Db, exec: Exec): Option<State> {
    Some(s.(db := db, exec := Some(exec)))
  }

  /** `SqlCheckpointStore.save`: commits everything staged; a taken sequence violates the unique
      constraint, and the uncaught error ends the execution. */
  function Save(s: State, x: Session, ck: Checkpoint, next: Exec): Option<State> {
    if SequenceTaken(s.db.checkpoints, ck.sequence) then Some(s.(exec := None))
    else Step(s, Commit(s.db, x).(checkpoints := s.db.checkpoints + [ck]), next)
  }

  // ----- the steps -----

  /** `process_task` finds an executable task and `execute_task` stages its start. */
  function DoBegin(s: State): Option<State> {
    var t := s.db.task;
    if s.exec.Some? || !(t.status.Queued? || t.status.Running?) then None
    else
      var first := t.retryCount == 0 && s.db.checkpoints == [] && !t.status.Running?;
      var retries := if !first && !t.status.Running? then t.retryCount + 1 else t.retryCount;
      Step(s, s.db, Loaded(Session(Task(Running, retries, t.output), None, s.db.artifacts)))
  }

  /** `adapter.execute`: the first prompt of a task without checkpoints, or the repair prompt. */
  function DoAssemble(s: State, x: Exec, req: Request): Option<State> {
    if !(x.Repairing? || (x.Loaded? && s.db.checkpoints == []))
      || req.maxOutputTokens != s.db.policy.maxOutputTokens then None
    else
      var latest := Latest(s.db.checkpoints);
      var next := if latest.Some? then latest.value.sequence + 1 else 1;
      Save(s, x.s, Checkpoint(next, PromptAssembled(req, s.db.policy)),
           Calling(x.s, next, req, s.db.policy, x.Repairing?))
  }

  /** `adapter.resume`: re-issue the call of a prompt, replay an answer. */
  function DoResume(s: State, x: Exec): Option<State> {
    var latest := Latest(s.db.checkpoints);
    if !x.Loaded? || latest.None? then None
    else
      match latest.value.stage
      case PromptAssembled(req, policy) => Step(s, s.db, Calling(x.s, latest.value.sequence, req, policy, false))
      case ModelResponded(text) => Step(s, s.db, Judging(x.s, text, false))
  }

  predicate AtPrice(cfg: Config, req: Request) {
    PriceFor(req.provider, req.model).Some? ==> cfg.priced(PriceFor(req.provider, req.model).value)
  }

  /** `usage_for_task` and `_admit`. */
  function DoAdmit(cfg: Config, s: State, x: Exec, minutes: real): Option<State> {
    if !x.Calling? || !AtPrice(cfg, x.req) then None
    else
      var worst := WorstCase(x.req);
      var usage := UsageForTask(s.db.rows, minutes);
      if worst.None? || cfg.maxAttempts < 1
         || Evaluate(x.policy, usage, x.req.maxOutputTokens, false, worst.value) != Allowed
      then Step(s, s.db, Closing(Fail(x.s)))
      else Step(s, s.db, Ready(x.s, Call(x.sequence, x.req, x.policy, x.repair, usage, [], 1)))
  }

  /** `_write_ahead` and `begin_attempt`. */
  function DoWriteAhead(s: State, x: Exec): Option<State> {
    if !x.Ready? || WorstCase(x.c.req).None? then None
    else
      var row := Row(Stored(WorstCase(x.c.req).value), Requested);
      Some(State(
        Commit(s.db, x.s).(rows := s.db.rows + [row]),
        Some(Ahead(x.s, x.c, |s.db.rows|)),
        s.hist.(bills := s.hist.bills + [0], retries := s.hist.retries + if x.c.attempt > 1 then 1 else 0)))
  }

  /** The request leaves; the provider will bill at most the worst case (a hypothesis). */
  function DoSend(s: State, x: Exec, bill: nat): Option<State> {
    if !x.Ahead? || WorstCase(x.c.req).None? || bill > WorstCase(x.c.req).value || x.row >= |s.hist.bills| then None
    else Some(State(s.db, Some(InFlight(x.s, x.c, x.row)),
                    s.hist.(sent := s.hist.sent + 1, bills := s.hist.bills[x.row := bill])))
  }

  /** The hypotheses about providers: an answer reports usage within the estimates and covering
      its bill, and a rejection with a status of 400 to 499 other than 408 is not billed. */
  predicate Honest(req: Request, bill: nat, reply: Reply) {
    match reply
    case Answer(_, tokensIn, tokensOut) =>
      && tokensIn <= EstimateInputTokens(req.promptBytes) && tokensOut <= req.maxOutputTokens
      && PriceFor(req.provider, req.model).Some?
      && bill <= Cost(PriceFor(req.provider, req.model).value, tokensIn, tokensOut)
    case Failure(status) => status.Some? && 400 <= status.value < 500 && status.value != 408 ==> bill == 0
  }

  function DoReceive(s: State, x: Exec, reply: Reply): Option<State> {
    if !x.InFlight? || x.row >= |s.hist.bills| || !Honest(x.c.req, s.hist.bills[x.row], reply) then None
    else Step(s, s.db, Ending(x.s, x.c, x.row, reply))
  }

  /** What an attempt ends at: the reported usage, nothing, or the worst case again. */
  function Charge(req: Request, reply: Reply): nat {
    match reply
    case Answer(_, tokensIn, tokensOut) =>
      if PriceFor(req.provider, req.model).None? then 0
      else Cost(PriceFor(req.provider, req.model).value, tokensIn, tokensOut)
    case Failure(status) =>
      if ProvablyUnbilled(status) || WorstCase(req).None? then 0 else WorstCase(req).value
  }

  function FinishedRow(req: Request, reply: Reply): Row {
    Row(Stored(Charge(req, reply)), if reply.Answer? then Completed else Failed)
  }

  /** The rest of one loop iteration of `generate` after a failed attempt. */
  function AfterFailure(cfg: Config, s: Session, c: Call, status: Option<int>, minutes: real): Exec {
    var failed := c.failed + [Charge(c.req, Failure(status))];
    if PermanentRejection(status) || c.attempt >= cfg.maxAttempts || WorstCase(c.req).None? then Closing(Fail(s))
    else
      var soFar := Usage(c.usage.calls + |failed|, c.usage.cost + Sum(failed), minutes,
                         c.usage.retries + (c.attempt - 1));
      if Evaluate(c.policy, soFar, c.req.maxOutputTokens, true, WorstCase(c.req).value) != Allowed then Closing(Fail(s))
      else Ready(s, c.(failed := failed, attempt := c.attempt + 1))
  }

  /** `finish_attempt`, then success or the decision about a retry. */
  function DoFinish(cfg: Config, s: State, x: Exec, minutes: real): Option<State> {
    if !x.Ending? || x.row >= |s.db.rows| then None
    else
      var db := Commit(s.db, x.s).(rows := s.db.rows[x.row := FinishedRow(x.c.req, x.reply)]);
      match x.reply
      case Answer(text, _, _) => Step(s, db, Answered(x.s, x.c.sequence, text, x.c.repair))
      case Failure(status) => Step(s, db, AfterFailure(cfg, x.s, x.c, status, minutes))
  }

  function DoSaveResponse(s: State, x: Exec): Option<State> {
    if !x.Answered? then None
    else Save(s, x.s, Checkpoint(x.sequence + 1, ModelResponded(x.text)), Judging(x.s, x.text, x.repair))
  }

  /** The commit after a result, then validation: store, repair once, or keep the raw text. */
  function DoJudge(cfg: Config, s: State, x: Exec): Option<State> {
    if !x.Judging? then None
    else
      var db := Commit(s.db, x.s);
      if cfg.valid(x.text) then Step(s, db, Storing(x.s, x.text))
      else if !x.repair then Step(s, db, Repairing(x.s, x.text))
      else Step(s, db, Closing(Fail(WithArtifact(x.s, RawModelResponse, x.text))))
  }

  /** The artifact and its ownership are committed together, before the task is completed. */
  function DoStore(s: State, x: Exec): Option<State> {
    if !x.Storing? then None
    else
      var z := WithOutput(x.s, x.text);
      Step(s, Commit(s.db, z), Closing(Complete(z)))
  }

  /** `register_recovery` on a running task that no worker holds. */
  function DoSweep(cfg: Config, s: State): Option<State> {
    var t := s.db.task;
    if s.exec.Some? || !t.status.Running? then None
    else if t.retryCount >= cfg.maxRequeues then
      // running -> failed is the only legal way into a failed mission; otherwise it is refused
      if s.db.mission.MissionRunning?
      then Some(s.(db := s.db.(task := t.(status := TaskFailed), mission := MissionFailed)))
      else Some(s)
    else
      Some(s.(db := s.db.(task := t.(retryCount := t.retryCount + 1)),
              hist := s.hist.(requeues := s.hist.requeues + 1)))
  }

  /** One step of the system; None when the event is not enabled. */
  function Apply(cfg: Config, s: State, e: Event): Option<State> {
    match e
    case Begin => DoBegin(s)
    case Sweep => DoSweep(cfg, s)
    case OperatorRetry =>
      if s.db.task.status.TaskFailed? then Some(s.(db := s.db.(task := s.db.task.(status := Queued)))) else None
    case MissionMoves(to) => Some(s.(db := s.db.(mission := to)))
    case _ =>
      if s.exec.None? then None
      else
        var x := s.exec.value;
        match e
        case Assemble(req) => DoAssemble(s, x, req)
        case Resume => DoResume(s, x)
        case NoProvider => if x.Calling? then Step(s, s.db, Closing(Fail(x.s))) else None
        case Admit(minutes) => DoAdmit(cfg, s, x, minutes)
        case CircuitOpen => if x.Ready? then Step(s, s.db, Closing(Fail(x.s))) else None
        case WriteAhead => DoWriteAhead(s, x)
        case Send(bill) => DoSend(s, x, bill)
        case Receive(reply) => DoReceive(s, x, reply)
        case Finish(minutes) => DoFinish(cfg, s, x, minutes)
        case SaveResponse => DoSaveResponse(s, x)
        case Judge => DoJudge(cfg, s, x)
        case Store => DoStore(s, x)
        case FinalCommit => if x.Closing? then Some(s.(db := Commit(s.db, x.s), exec := None)) else None
        case Crash => Some(s.(exec := None))
        case _ => None
  }

  function Run(cfg: Config, s: State, es: seq<Event>): Option<State>
    decreases |es|
  {
    if es == [] then Some(s)
    else
      var r := Apply(cfg, s, es[0]);
      if r.None? then None else Run(cfg, r.value, es[1..])
  }

  /** A freshly created task of a started mission. */
  function Init(policy: Policy): State {
    State(Db(policy, Task(Queued, 0, None), MissionRunning, [], [], []), None, History(0, [], 0, 0))
  }
}
