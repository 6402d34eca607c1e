/**
 The worker's code in its own form: the write-ahead ledger (engine/usage.py), the gateway's retry
 loop (gateway.py), the durable adapter and the task executor, as methods that update the task's
 tables in place.

 Whatever the environment decides (provider replies, clock readings, the circuit breaker, a crash
 at any await) is an arbitrary choice.  Every method is proved to perform a run of the step system
 of `Metering`: `log` is that run, and `Valid` ties it to the tables.  So the theorems about all
 runs hold of this code at every exit, interrupted or not.
 */
module Executor {
  import opened Options
  import opened Budget
  import opened Metering
  import opened MeteringProofs

  /** How a gateway call, and with it an adapter call, can end. */
  datatype Outcome = Text(text: string) | Refused | GatewayError | Interrupted

  /** The reported usage stays within what the request was written ahead at. */
  predicate WithinEstimates(req: Request, r: Reply) {
    r.Answer? ==> r.tokensIn <= EstimateInputTokens(req.promptBytes) && r.tokensOut <= req.maxOutputTokens
  }

  lemma HonestWhenFree(req: Request, r: Reply)
    requires WithinEstimates(req, r) && WorstCase(req).Some?
    ensures Honest(req, 0, r)
  {
  }

  /** What `generate` does after a failed attempt: give up, or (None) try again if
      `_require_retry_budget` allows it. */
  method RetryDecision(
    cfg: Config, ghost s: Session, c: Call, status: Option<int>, failed: seq<nat>, worst: nat, elapsed: real)
    returns (r: Option<Outcome>)
    requires WorstCase(c.req) == Some(worst) && 1 <= c.attempt <= cfg.maxAttempts
    requires failed == c.failed + [Charge(c.req, Failure(status))]
    ensures r.None? ==> c.attempt < cfg.maxAttempts
    ensures r.None? ==>
              AfterFailure(cfg, s, c, status, elapsed) == Ready(s, c.(failed := failed, attempt := c.attempt + 1))
    ensures r.Some? ==>
              && (r.value.Refused? || r.value.GatewayError?)
              && AfterFailure(cfg, s, c, status, elapsed) == Closing(Fail(s))
    ensures r.None? <==>
              && RoomForRetry(cfg, c, failed[|failed| - 1], elapsed)
              && (status.Some? && 400 <= status.value < 500 ==> status.value == 408 || status.value == 429)
  {
    RetriedIff(cfg, s, c, status, elapsed);
    if PermanentRejection(status) || c.attempt == cfg.maxAttempts {
      return Some(GatewayError);
    }
    var soFar := Usage(c.usage.calls + |failed|, c.usage.cost + Sum(failed), elapsed,
                       c.usage.retries + (c.attempt - 1));
    var decision := Evaluate(c.policy, soFar, c.req.maxOutputTokens, true, worst);
    return if decision == Allowed then None else Some(Refused);
  }

  /** Calls may have any price of the table. */
  ghost predicate Unrestricted(cfg: Config) {
    forall price {:trigger cfg.priced(price)} :: cfg.priced(price)
  }

  lemma Storage(cfg: Config, s: State, x: Session, text: string)
    requires s.exec == Some(Storing(x, text))
    ensures Apply(cfg, s, Store) == Step(s, Commit(s.db, WithOutput(x, text)), Closing(Complete(WithOutput(x, text))))
  {
  }

  class TaskRun {
    const cfg: Config
    ghost const origin: State
    /** The committed tables, and the session's staged writes. */
    var db: Db
    var session: Session
    /** Where the executor stands, what was sent and billed, and the run so far. */
    ghost var exec: Option<Exec>
    ghost var hist: History
    ghost var log: seq<Event>

    ghost function Now(): State
      reads this
    {
      State(db, exec, hist)
    }

    ghost predicate Valid()
      reads this
    {
      && Unrestricted(cfg) && origin == Init(origin.db.policy) && Run(cfg, origin, log) == Some(Now())
      && (exec.Some? && !exec.value.Closing? ==> exec.value.s == session)
    }

    constructor (cfg: Config, policy: Policy)
      requires Unrestricted(cfg)
      ensures Valid() && this.cfg == cfg && origin == Init(policy)
      ensures Now() == Init(policy)
    {
      this.cfg := cfg;
      db := Init(policy).db;
      session := Session(Task(Queued, 0, None), None, []);
      origin := Init(policy);
      exec, hist, log := None, Init(policy).hist, [];
    }

    /** Records that the tables just moved by `e`. */
    ghost method Did(e: Event, was: State)
      requires Unrestricted(cfg) && origin == Init(origin.db.policy) && Run(cfg, origin, log) == Some(was)
      requires Apply(cfg, was, e).Some? && Apply(cfg, was, e).value.db == db
      requires var x := Apply(cfg, was, e).value.exec; x.Some? && !x.value.Closing? ==> x.value.s == session
      modifies this`exec, this`hist, this`log
      ensures Valid() && log == old(log) + [e]
      ensures Now() == Apply(cfg, was, e).value
    {
      RunAppend(cfg, origin, log, [e]);
      assert [e][0] == e && [e][1..] == [];
      assert Run(cfg, was, [e]) == Run(cfg, Apply(cfg, was, e).value, []);
      log := log + [e];
      exec, hist := Apply(cfg, was, e).value.exec, Apply(cfg, was, e).value.hist;
    }

    /** The process dies, or an uncaught error rolls the session back. */
    method Die()
      requires Valid() && exec.Some?
      modifies this`exec, this`hist, this`log
      ensures Valid() && exec.None? && old(log) <= log && hist == old(hist)
    {
      Did(Crash, Now());
    }

    /** Any await may be the last. */
    method MayDie() returns (dead: bool)
      requires Valid() && exec.Some?
      modifies this`exec, this`hist, this`log
      ensures Valid() && old(log) <= log && hist == old(hist)
      ensures if dead then exec.None? else exec == old(exec)
    {
      dead := *;
      if dead {
        Die();
      }
    }

    /** `begin_attempt`: a committed row at the worst-case cost, before anything is sent. */
    method BeginAttempt(worst: nat) returns (row: nat)
      requires Valid() && exec.Some? && exec.value.Ready? && WorstCase(exec.value.c.req) == Some(worst)
      modifies this`db, this`exec, this`hist, this`log
      ensures Valid() && old(log) <= log
      ensures row == old(|db.rows|) && db.rows == old(db.rows) + [Row(Stored(worst), Requested)]
      ensures exec == Some(Ahead(session, old(exec.value.c), row))
      ensures hist.sent == old(hist.sent) && |hist.bills| == old(|hist.bills|) + 1
    {
      ghost var was := Now();
      row := |db.rows|;
      db := Commit(db, session).(rows := db.rows + [Row(Stored(worst), Requested)]);
      Did(WriteAhead, was);
    }

    /** The request is sent; the provider may bill up to the worst case.  Either the process is
        interrupted before a reply arrives, or an honest reply is in hand. */
    method Exchange(req: Request, row: nat) returns (reply: Option<Reply>)
      requires Valid() && exec.Some? && exec.value.Ahead? && exec.value.row == row && row < |hist.bills|
      requires exec.value.c.req == req && WorstCase(req).Some?
      modifies this`exec, this`hist, this`log
      ensures Valid() && old(log) <= log && hist.sent == old(hist.sent) + 1 && |hist.bills| == old(|hist.bills|)
      ensures reply.None? ==> exec.None?
      ensures reply.Some? ==> exec == Some(Ending(session, old(exec.value.c), row, reply.value))
    {
      var interrupted: bool := *;
      if interrupted {
        ghost var bill: nat :| bill <= WorstCase(req).value;
        Did(Send(bill), Now());
        Die();
        return None;
      }
      assert WithinEstimates(req, Failure(None));
      var r: Reply :| WithinEstimates(req, r);
      HonestWhenFree(req, r);
      ghost var bill: nat :| bill <= WorstCase(req).value && Honest(req, bill, r);
      Did(Send(bill), Now());
      Did(Receive(r), Now());
      reply := Some(r);
    }

    /** `_admit`: a registered provider, a price and budget headroom for the worst case, or the
        call is not made. */
    method AdmitCall(req: Request, policy: Policy, usage: Usage, minutes: real, registered: bool)
      returns (worst: Option<nat>, refusal: Outcome)
      requires Valid() && exec.Some? && exec.value.Calling? && exec.value.req == req && exec.value.policy == policy
      requires usage == UsageForTask(db.rows, minutes)
      modifies this`exec, this`hist, this`log
      ensures Valid() && old(log) <= log && hist == old(hist)
      ensures worst.Some? <==> registered && WorstCase(req).Some? && cfg.maxAttempts >= 1
                               && Evaluate(policy, usage, req.maxOutputTokens, false, WorstCase(req).value) == Allowed
      ensures worst.Some? ==> worst == WorstCase(req)
      ensures worst.Some? ==>
                exec == Some(Ready(session, Call(old(exec.value.sequence), req, policy, old(exec.value.repair), usage,
                                                 [], 1)))
      ensures worst.None? ==> exec == Some(Closing(Fail(session))) && (refusal.Refused? || refusal.GatewayError?)
      ensures worst.None? ==>
                (refusal.Refused? <==>
                   && registered && WorstCase(req).Some?
                   && Evaluate(policy, usage, req.maxOutputTokens, false, WorstCase(req).value) != Allowed)
    {
      worst, refusal := WorstCase(req), GatewayError;
      if !registered {
        Did(NoProvider, Now());
        return None, GatewayError;
      }
      var allowed := worst.Some? && Evaluate(policy, usage, req.maxOutputTokens, false, worst.value) == Allowed;
      Did(Admit(minutes), Now());
      if worst.Some? && !allowed {
        return None, Refused;
      }
      if cfg.maxAttempts < 1 {
        worst := None;
      }
    }

    /** One attempt up to its reply: written ahead, then sent. */
    method Attempt(req: Request, worst: nat) returns (row: nat, reply: Option<Reply>)
      requires Valid() && exec.Some? && exec.value.Ready? && exec.value.c.req == req && WorstCase(req) == Some(worst)
      requires |hist.bills| == |db.rows|
      modifies this`db, this`exec, this`hist, this`log
      ensures Valid() && old(log) <= log && |hist.bills| == |db.rows|
      ensures row == |old(db.rows)| && db.rows == old(db.rows) + [Row(Stored(worst), Requested)]
      ensures reply.None? ==> exec.None?
      ensures reply.Some? ==> exec == Some(Ending(session, old(exec.value.c), row, reply.value))
    {
      row := BeginAttempt(worst);
      var cancelled: bool := *;
      if cancelled {
        Die();
        return row, None;
      }
      reply := Exchange(req, row);
    }

    /** `finish_attempt`: the row is rewritten with its outcome and committed. */
    method FinishAttempt(c: Call, row: nat, reply: Reply, elapsed: real)
      requires Valid() && exec == Some(Ending(session, c, row, reply)) && row < |db.rows|
      modifies this`db, this`exec, this`hist, this`log
      ensures Valid() && old(log) <= log && hist == old(hist)
      ensures |db.rows| == |old(db.rows)| && db.rows == old(db.rows)[row := db.rows[row]]
      ensures db.rows[row] == FinishedRow(c.req, reply)
      ensures reply.Failure? && WorstCase(c.req).Some? ==>
                if reply.status.Some? && 400 <= reply.status.value < 500 && reply.status.value != 408
                then db.rows[row] == Row(0, Failed) else db.rows[row] == Row(Stored(WorstCase(c.req).value), Failed)
      ensures reply.Answer? ==> exec == Some(Answered(session, c.sequence, reply.text, c.repair))
      ensures reply.Failure? ==> exec == Some(AfterFailure(cfg, session, c, reply.status, elapsed))
    {
      ghost var before := Now();
      db := Commit(db, session).(rows := db.rows[row := FinishedRow(c.req, reply)]);
      Did(Finish(elapsed), before);
    }

    /** The rest of an iteration: the row is finished, and a failure either ends the call or, if
        the budget with this call's own attempts counted still allows it, leads to a retry. */
    method EndAttempt(c: Call, worst: nat, row: nat, reply: Reply) returns (r: Option<Outcome>, failed: seq<nat>)
      requires Valid() && exec == Some(Ending(session, c, row, reply)) && row < |db.rows|
      requires WorstCase(c.req) == Some(worst) && 1 <= c.attempt <= cfg.maxAttempts
      modifies this`db, this`exec, this`hist, this`log
      ensures Valid() && old(log) <= log && hist == old(hist)
      ensures db.rows == old(db.rows)[row := FinishedRow(c.req, reply)]
      ensures r.None? ==> reply.Failure? && c.attempt < cfg.maxAttempts
      ensures r.None? ==> exec == Some(Ready(session, c.(failed := failed, attempt := c.attempt + 1)))
      ensures r.Some? && r.value.Text? ==>
                reply.Answer? && exec == Some(Answered(session, c.sequence, r.value.text, c.repair))
      ensures r.Some? && !r.value.Text? ==>
                reply.Failure? && !r.value.Interrupted? && exec == Some(Closing(Fail(session)))
    {
      var elapsed: real := *;
      failed := c.failed;
      match reply {
        case Answer(text, _, _) =>
          r := Some(Text(text));
        case Failure(status) =>
          failed := failed + [Charge(c.req, reply)];
          r := RetryDecision(cfg, session, c, status, failed, worst, elapsed);
      }
      FinishAttempt(c, row, reply, elapsed);
    }

    /** One iteration of the retry loop: `None` means try again.  At most one row is added; it is
        failed if there is another try, and completed exactly when an answer is returned. */
    method TryOnce(call: Call, worst: nat) returns (end: Option<Outcome>, failed: seq<nat>)
      requires Valid() && exec == Some(Ready(session, call)) && |hist.bills| == |db.rows|
      requires WorstCase(call.req) == Some(worst) && 1 <= call.attempt <= cfg.maxAttempts
      modifies this`db, this`exec, this`hist, this`log
      ensures Valid() && old(log) <= log && |hist.bills| == |db.rows|
      ensures old(db.rows) <= db.rows && |db.rows| <= |old(db.rows)| + 1
      ensures end.None? ==> |db.rows| == |old(db.rows)| + 1 && db.rows[|old(db.rows)|].status == Failed
      ensures end.None? ==>
                && call.attempt < cfg.maxAttempts
                && exec == Some(Ready(session, call.(failed := failed, attempt := call.attempt + 1)))
      ensures end.Some? && !end.value.Interrupted? ==>
                (end.value.Text? <==> |db.rows| > |old(db.rows)| && db.rows[|old(db.rows)|].status == Completed)
      ensures end.Some? && end.value.Text? ==>
                exec == Some(Answered(session, call.sequence, end.value.text, call.repair))
      ensures end.Some? && (end.value.Refused? || end.value.GatewayError?) ==> exec == Some(Closing(Fail(session)))
      ensures end.Some? && end.value.Interrupted? ==> exec.None?
    {
      failed := [];
      var circuitOpen: bool := *;
      if circuitOpen {
        Did(CircuitOpen, Now());
        return Some(GatewayError), failed;
      }
      var dead := MayDie();
      if dead {
        return Some(Interrupted), failed;
      }
      var row, reply := Attempt(call.req, worst);
      if reply.None? {
        return Some(Interrupted), failed;
      }
      dead := MayDie();
      if dead {
        return Some(Interrupted), failed;
      }
      end, failed := EndAttempt(call, worst, row, reply.value);
      dead := MayDie();
      if dead {
        end := Some(Interrupted);
      }
    }

    /** `ModelGateway.generate`.  At most `max_attempts` rows are added; all of them but the last
        are failed, and the last is completed exactly when an answer is returned. */
    method Generate(sequence: int, req: Request, policy: Policy, repair: bool, usage: Usage, minutes: real)
      returns (r: Outcome)
      requires Valid() && exec == Some(Calling(session, sequence, req, policy, repair))
      requires usage == UsageForTask(db.rows, minutes) && |hist.bills| == |db.rows|
      modifies this`db, this`exec, this`hist, this`log
      ensures Valid() && old(log) <= log && |hist.bills| == |db.rows|
      ensures old(db.rows) <= db.rows && |db.rows| <= |old(db.rows)| + Max0(cfg.maxAttempts)
      ensures forall i :: |old(db.rows)| <= i < |db.rows| - 1 ==> db.rows[i].status == Failed
      ensures !r.Interrupted? ==>
                (r.Text? <==> |db.rows| > |old(db.rows)| && db.rows[|db.rows| - 1].status == Completed)
      ensures r.Text? ==> exec == Some(Answered(session, sequence, r.text, repair))
      ensures r.Refused? || r.GatewayError? ==> exec == Some(Closing(Fail(session)))
      ensures r.Interrupted? ==> exec.None?
    {
      var registered: bool := *;
      var worst, refusal := AdmitCall(req, policy, usage, minutes, registered);
      if worst.None? {
        return refusal;
      }
      var call := Call(sequence, req, policy, repair, usage, [], 1);
      while true
        invariant Valid() && old(log) <= log && |hist.bills| == |db.rows|
        invariant 1 <= call.attempt <= cfg.maxAttempts
        invariant exec == Some(Ready(session, call)) && call.req == req
        invariant call.sequence == sequence && call.repair == repair
        invariant old(db.rows) <= db.rows && |db.rows| == |old(db.rows)| + call.attempt - 1
        invariant forall i :: |old(db.rows)| <= i < |db.rows| ==> db.rows[i].status == Failed
        decreases cfg.maxAttempts - call.attempt
      {
        var end, failed := TryOnce(call, worst.value);
        if end.Some? {
          return end.value;
        }
        call := call.(failed := failed, attempt := call.attempt + 1);
      }
    }

    /** `SqlCheckpointStore.save` of an answer: the sequence is always free. */
    method SaveAnswer(sequence: int, text: string, repair: bool)
      requires Valid() && exec == Some(Answered(session, sequence, text, repair))
      modifies this`db, this`exec, this`hist, this`log
      ensures Valid() && old(log) <= log && exec == Some(Judging(session, text, repair)) && hist == old(hist)
      ensures db.checkpoints == old(db.checkpoints) + [Checkpoint(sequence + 1, ModelResponded(text))]
      ensures db.rows == old(db.rows)
    {
      ghost var was := Now();
      Reachable(cfg, origin.db.policy, log);
      LogSaveResponse(cfg, was, exec.value);
      db := Commit(db, session).(checkpoints := db.checkpoints + [Checkpoint(sequence + 1, ModelResponded(text))]);
      Did(SaveResponse, was);
    }

    /** `_call_model_and_checkpoint`. */
    method CallModelAndCheckpoint(sequence: int, req: Request, policy: Policy, repair: bool) returns (r: Outcome)
      requires Valid() && exec == Some(Calling(session, sequence, req, policy, repair))
      modifies this`db, this`exec, this`hist, this`log
      ensures Valid() && old(log) <= log
      ensures r.Text? ==> exec == Some(Judging(session, r.text, repair))
      ensures r.Refused? || r.GatewayError? ==> exec == Some(Closing(Fail(session)))
      ensures r.Interrupted? ==> exec.None?
    {
      Reachable(cfg, origin.db.policy, log);
      var dead := MayDie();
      if dead {
        return Interrupted;
      }
      var minutes: real := *;
      var usage := UsageForTask(db.rows, minutes);
      r := Generate(sequence, req, policy, repair, usage, minutes);
      if r.Text? {
        dead := MayDie();
        if dead {
          return Interrupted;
        }
        SaveAnswer(sequence, r.text, repair);
      }
    }

    /** `adapter.execute`: the sequence continues from the highest checkpoint of the task. */
    method Execute(repair: bool) returns (r: Outcome)
      requires Valid() && exec.Some?
      requires (if repair then exec.value.Repairing? else exec.value.Loaded? && db.checkpoints == [])
      modifies this`db, this`exec, this`hist, this`log
      ensures Valid() && old(log) <= log
      ensures r.Text? ==> exec == Some(Judging(session, r.text, repair))
      ensures r.Refused? || r.GatewayError? ==> exec == Some(Closing(Fail(session)))
      ensures r.Interrupted? ==> exec.None?
    {
      var dead := MayDie();
      if dead {
        return Interrupted;
      }
      var prompt: Request := *;
      var req := prompt.(maxOutputTokens := db.policy.maxOutputTokens);
      var latest := Latest(db.checkpoints);
      var next := if latest.Some? then latest.value.sequence + 1 else 1;
      ghost var was := Now();
      Reachable(cfg, origin.db.policy, log);
      LogAssemble(cfg, was, exec.value, req);
      db := Commit(db, session).(checkpoints := db.checkpoints + [Checkpoint(next, PromptAssembled(req, db.policy))]);
      Did(Assemble(req), was);
      r := CallModelAndCheckpoint(next, req, db.policy, repair);
    }

    /** `adapter.resume`: an answered checkpoint is replayed without calling the model. */
    method ResumeFrom(latest: Checkpoint) returns (r: Outcome)
      requires Valid() && exec.Some? && exec.value.Loaded? && Latest(db.checkpoints) == Some(latest)
      modifies this`db, this`exec, this`hist, this`log
      ensures Valid() && old(log) <= log
      ensures latest.stage.ModelResponded? ==> r == Text(latest.stage.text) && hist == old(hist) && db == old(db)
      ensures r.Text? ==> exec == Some(Judging(session, r.text, false))
      ensures r.Refused? || r.GatewayError? ==> exec == Some(Closing(Fail(session)))
      ensures r.Interrupted? ==> exec.None?
    {
      Did(Resume, Now());
      match latest.stage
      case ModelResponded(text) => r := Text(text);
      case PromptAssembled(req, policy) => r := CallModelAndCheckpoint(latest.sequence, req, policy, false);
    }
  
    /** `_fail` and the worker's final commit. */
    method FailTask()
      requires Valid() && exec == Some(Closing(Fail(session)))
      modifies this
      ensures Valid() && old(log) <= log && exec.None? && hist == old(hist)
      ensures db.task == old(session).task.(status := TaskFailed)
      ensures db.mission.MissionFailed? && db.artifacts == old(session).artifacts
    {
      ghost var was := Now();
      session := Fail(session);
      db := Commit(db, session);
      Did(FinalCommit, was);
    }

    /** `commit_artifact` and the ownership on the task, durable before completion is claimed. */
    method StoreOutput(text: string)
      requires Valid() && exec == Some(Storing(session, text))
      modifies this
      ensures Valid() && old(log) <= log && hist == old(hist)
      ensures exec == Some(Closing(Complete(session)))
      ensures db.task.status.Running? && db.task.output.Some? && IsOutput(db, db.task.output.value)
      ensures db.artifacts[db.task.output.value].content == text
    {
      ghost var was := Now();
      Reachable(cfg, origin.db.policy, log);
      Storage(cfg, was, session, text);
      session := WithOutput(session, text);
      db := Commit(db, session);
      Did(Store, was);
      OutputIsText(was, text);
    }

    /** The one output there is, is this text. */
    lemma OutputIsText(was: State, text: string)
      requires Valid() && was.exec.Some? && was.exec.value.Storing? && was.exec.value.text == text && Inv(cfg, was)
      requires Apply(cfg, was, Store) == Some(Now())
      ensures db.task.status.Running? && db.task.output.Some? && IsOutput(db, db.task.output.value)
      ensures db.artifacts[db.task.output.value].content == text
    {
      InvStep(cfg, was, Store);
    }

    method CompleteTask()
      requires Valid() && exec == Some(Closing(Complete(session)))
      modifies this
      ensures Valid() && old(log) <= log && exec.None? && hist == old(hist)
      ensures db.task == old(session).task.(status := TaskCompleted)
      ensures db.mission.MissionCompleted? && db.artifacts == old(session).artifacts
    {
      ghost var was := Now();
      session := Complete(session);
      db := Commit(db, session);
      Did(FinalCommit, was);
    }
  
    /** The commit after a result, then the output contract; the raw text of a failed repair is
        kept as an artifact of its own. */
    method Validate(text: string, repair: bool) returns (valid: bool)
      requires Valid() && exec == Some(Judging(session, text, repair))
      modifies this
      ensures Valid() && old(log) <= log && hist == old(hist) && valid == cfg.valid(text)
      ensures valid ==> exec == Some(Storing(session, text))
      ensures !valid && !repair ==> exec == Some(Repairing(session, text))
      ensures !valid && repair ==> exec == Some(Closing(Fail(session)))
      ensures session == if !valid && repair then WithArtifact(old(session), RawModelResponse, text) else old(session)
      ensures db == Commit(old(db), old(session))
    {
      ghost var was := Now();
      db := Commit(db, session);
      valid := cfg.valid(text);
      if !valid && repair {
        session := WithArtifact(session, RawModelResponse, text);
      }
      Did(Judge, was);
    }

    /** The one repair: a valid text to be stored, or the end of the execution. */
    method Repair(text: string) returns (answer: Option<string>)
      requires Valid() && exec == Some(Repairing(session, text))
      modifies this
      ensures Valid() && old(log) <= log
      ensures if answer.Some? then exec == Some(Storing(session, answer.value)) else exec.None?
    {
      var r := Execute(true);
      if r.Interrupted? {
        return None;
      }
      var dead := MayDie();
      if dead {
        return None;
      }
      if !r.Text? {
        FailTask();
        return None;
      }
      var valid := Validate(r.text, true);
      if valid {
        return Some(r.text);
      }
      dead := MayDie();
      if !dead {
        FailTask();
      }
      answer := None;
    }

    /** From a first result to the end of the task: store a valid answer, repair an invalid one
        once. */
    method Conclude(text: string)
      requires Valid() && exec == Some(Judging(session, text, false))
      modifies this
      ensures Valid() && old(log) <= log && exec.None?
    {
      var answer := text;
      var valid := Validate(text, false);
      if !valid {
        var repaired := Repair(text);
        if repaired.None? {
          return;
        }
        answer := repaired.value;
      }
      var dead := MayDie();
      if dead {
        return;
      }
      StoreOutput(answer);
      dead := MayDie();
      if dead {
        return;
      }
      CompleteTask();
    }

    /** `execute_task` marks the task running, counting a retry unless this is the first attempt
        or a recovery the sweep has counted. */
    method Load()
      requires Valid() && exec.None? && (db.task.status.Queued? || db.task.status.Running?)
      modifies this
      ensures Valid() && old(log) <= log && exec == Some(Loaded(session)) && db == old(db) && hist == old(hist)
      ensures session.task.status.Running? && session.task.output == db.task.output
      ensures session.artifacts == db.artifacts && session.mission.None?
      ensures session.task.retryCount == db.task.retryCount
              + (if db.task.status.Queued? && (db.task.retryCount > 0 || db.checkpoints != []) then 1 else 0)
    {
      var foundRunning := db.task.status.Running?;
      var first := db.task.retryCount == 0 && db.checkpoints == [] && !foundRunning;
      var retries := if !first && !foundRunning then db.task.retryCount + 1 else db.task.retryCount;
      session := Session(Task(Running, retries, db.task.output), None, db.artifacts);
      Did(Begin, Now());
    }

    /** What holds of the task's spending whenever no executor is running. */
    ghost predicate WithinBudget()
      reads this
    {
      && Sum(hist.bills) <= SumCost(db.rows) + Loss(cfg, |db.rows|)
      && SumCost(db.rows) <= Max0(db.policy.maxCost) + Gain(cfg, Max0(cfg.maxAttempts))
      && hist.sent <= |db.rows| <= Max0(db.policy.maxCalls)
      && hist.retries <= Max0(db.policy.maxRetries)
      && (db.task.status.TaskCompleted? ==> db.task.output.Some? && IsOutput(db, db.task.output.value))
    }

    lemma AlwaysWithinBudget()
      requires Valid()
      ensures WithinBudget()
    {
      SpendSafety(cfg, origin.db.policy, log);
      CallAndRetryCeilings(cfg, origin.db.policy, log);
      OutputOnce(cfg, origin.db.policy, log);
      SamePolicy(cfg, origin, log);
    }

    /** `process_task` under the lease: one execution of the task, fresh or resumed. */
    method ProcessTask()
      requires Valid() && exec.None?
      modifies this
      ensures Valid() && old(log) <= log && exec.None? && WithinBudget()
      ensures old(db.task.status.TaskFailed? || db.task.status.TaskCompleted?) ==> db == old(db) && hist == old(hist)
    {
      AlwaysWithinBudget();
      if !(db.task.status.Queued? || db.task.status.Running?) {
        return;
      }
      Load();
      var latest := Latest(db.checkpoints);
      var r: Outcome;
      if latest.Some? {
        r := ResumeFrom(latest.value);
      } else {
        r := Execute(false);
      }
      if !r.Interrupted? {
        var dead := MayDie();
        if !dead {
          if r.Text? {
            Conclude(r.text);
          } else {
            FailTask();
          }
        }
      }
      AlwaysWithinBudget();
    }

    /** `register_recovery`, for a task no worker holds. */
    method RegisterRecovery() returns (requeue: bool)
      requires Valid() && exec.None?
      modifies this`db, this`exec, this`hist, this`log
      ensures Valid() && old(log) <= log && exec.None? && WithinBudget()
      ensures requeue <==> old(db.task.status.Running? && db.task.retryCount < cfg.maxRequeues)
      ensures requeue ==> db == old(db.(task := db.task.(retryCount := db.task.retryCount + 1)))
      ensures !requeue && old(db.task.status.Running? && db.mission.MissionRunning?) ==>
                db == old(db.(task := db.task.(status := TaskFailed), mission := MissionFailed))
      ensures !requeue && !old(db.task.status.Running? && db.mission.MissionRunning?) ==> db == old(db)
    {
      ghost var was := Now();
      requeue := false;
      if db.task.status.Running? {
        if db.task.retryCount < cfg.maxRequeues {
          db := db.(task := db.task.(retryCount := db.task.retryCount + 1));
          requeue := true;
        } else if db.mission.MissionRunning? {
          db := db.(task := db.task.(status := TaskFailed), mission := MissionFailed);
        }
        Did(Sweep, was);
      }
      AlwaysWithinBudget();
    }

    /** The operator's `/retry`, at any time: only a failed task goes back to the queue, and while a
        worker executes the task it is not failed. */
    method RetryTask() returns (accepted: bool)
      requires Valid()
      modifies this`db, this`exec, this`hist, this`log
      ensures Valid() && old(log) <= log && exec == old(exec) && WithinBudget()
      ensures accepted <==> old(db.task.status.TaskFailed?)
      ensures accepted ==> exec.None?
      ensures db == if accepted then old(db.(task := db.task.(status := Queued))) else old(db)
    {
      ghost var was := Now();
      Reachable(cfg, origin.db.policy, log);
      accepted := db.task.status.TaskFailed?;
      if accepted {
        db := db.(task := db.task.(status := Queued));
        Did(OperatorRetry, was);
      }
      AlwaysWithinBudget();
    }
  }
}
