/**
 What every step of the metered execution keeps, and what follows for whole runs.

 The invariant has four parts, each inductive given the ones before it: the checkpoint log, the
 ledger, the output artifact and the task's life cycle.
 */
module MeteringProofs {
  import opened Options
  import opened Budget
  import opened Metering

  function Max0(x: int): nat {
    if x > 0 then x else 0
  }

  // ----- the checkpoint log -----

  /** Sequences are 1, 2, ... in order; odd ones are prompts under the task's own policy. */
  ghost predicate LogShape(policy: Policy, cks: seq<Checkpoint>) {
    forall i :: 0 <= i < |cks| ==>
      && cks[i].sequence == i + 1
      && (cks[i].stage.PromptAssembled? <==> i % 2 == 0)
      && (cks[i].stage.PromptAssembled? ==>
            cks[i].stage.policy == policy && cks[i].stage.req.maxOutputTokens == policy.maxOutputTokens)
  }

  ghost predicate EndsWith(cks: seq<Checkpoint>, text: string) {
    |cks| > 0 && cks[|cks| - 1].stage == ModelResponded(text)
  }

  /** Where the executor stands in the log. */
  ghost predicate LogAt(cfg: Config, db: Db, x: Exec) {
    var n := |db.checkpoints|;
    match x
    case Loaded(_) => true
    case Calling(_, sequence, _, policy, _) => sequence == n && n % 2 == 1 && policy == db.policy
    case Ready(_, c) => c.sequence == n && n % 2 == 1 && c.policy == db.policy
    case Ahead(_, c, _) => c.sequence == n && n % 2 == 1 && c.policy == db.policy
    case InFlight(_, c, _) => c.sequence == n && n % 2 == 1 && c.policy == db.policy
    case Ending(_, c, _, _) => c.sequence == n && n % 2 == 1 && c.policy == db.policy
    case Answered(_, sequence, _, _) => sequence == n && n % 2 == 1 && n / 2 + 1 <= CountRows(db.rows, true)
    case Judging(_, text, _) => EndsWith(db.checkpoints, text)
    case Repairing(_, text) => EndsWith(db.checkpoints, text) && !cfg.valid(text)
    case Storing(_, text) => EndsWith(db.checkpoints, text) && cfg.valid(text)
    case Closing(_) => true
  }

  /** Each answered checkpoint is backed by a completed row. */
  ghost predicate LogInv(cfg: Config, s: State) {
    && LogShape(s.db.policy, s.db.checkpoints)
    && |s.db.checkpoints| / 2 <= CountRows(s.db.rows, true)
    && (s.exec.Some? ==> LogAt(cfg, s.db, s.exec.value))
    && (s.exec.Some? ==> RowAtEnd(s.db, s.exec.value))
  }

  /** The row of the attempt in progress is the last one, and still `requested`. */
  ghost predicate RowAtEnd(db: Db, x: Exec) {
    x.Ahead? || x.InFlight? || x.Ending? ==> |db.rows| == x.row + 1 && db.rows[x.row].status == Requested
  }

  lemma {:induction false} LatestIsLast(policy: Policy, cks: seq<Checkpoint>)
    requires LogShape(policy, cks)
    ensures Latest(cks) == if cks == [] then None else Some(cks[|cks| - 1])
  {
    if cks != [] { LatestIsLast(policy, cks[..|cks| - 1]); }
  }

  lemma CountAppend(rows: seq<Row>, r: Row)
    ensures CountRows(rows + [r], true) == CountRows(rows, true) + if r.status == Completed then 1 else 0
    ensures CountRows(rows + [r], false) == CountRows(rows, false) + if r.status == Completed then 0 else 1
    ensures SumCost(rows + [r]) == SumCost(rows) + r.cost
  {
    assert (rows + [r])[..|rows|] == rows;
  }

  lemma ReplaceLast(rows: seq<Row>, r: Row)
    requires |rows| > 0
    ensures rows[|rows| - 1 := r] == rows[..|rows| - 1] + [r]
    ensures rows == rows[..|rows| - 1] + [rows[|rows| - 1]]
  {
  }

  lemma LogFinish(cfg: Config, s: State, x: Exec, minutes: real)
    requires LogInv(cfg, s) && s.exec == Some(x) && DoFinish(cfg, s, x, minutes).Some?
    ensures LogInv(cfg, DoFinish(cfg, s, x, minutes).value)
  {
    var r := FinishedRow(x.c.req, x.reply);
    var rows' := s.db.rows[x.row := r];
    assert CountRows(rows', true) == CountRows(s.db.rows, true) + (if x.reply.Answer? then 1 else 0) by {
      ReplaceLast(s.db.rows, r);
      CountAppend(s.db.rows[..x.row], s.db.rows[x.row]);
      CountAppend(s.db.rows[..x.row], r);
    }
  }

  lemma LogAssemble(cfg: Config, s: State, x: Exec, req: Request)
    requires LogInv(cfg, s) && s.exec == Some(x) && DoAssemble(s, x, req).Some?
    ensures LogInv(cfg, DoAssemble(s, x, req).value)
    ensures DoAssemble(s, x, req).value.exec.Some?
  {
    LatestIsLast(s.db.policy, s.db.checkpoints);
  }

  lemma LogResume(cfg: Config, s: State, x: Exec)
    requires LogInv(cfg, s) && s.exec == Some(x) && DoResume(s, x).Some?
    ensures LogInv(cfg, DoResume(s, x).value)
  {
    LatestIsLast(s.db.policy, s.db.checkpoints);
  }

  lemma LogWriteAhead(cfg: Config, s: State, x: Exec)
    requires LogInv(cfg, s) && s.exec == Some(x) && DoWriteAhead(s, x).Some?
    ensures LogInv(cfg, DoWriteAhead(s, x).value)
  {
    CountAppend(s.db.rows, Row(WorstCase(x.c.req).value, Requested));
  }

  lemma LogSaveResponse(cfg: Config, s: State, x: Exec)
    requires LogInv(cfg, s) && s.exec == Some(x) && DoSaveResponse(s, x).Some?
    ensures LogInv(cfg, DoSaveResponse(s, x).value)
    ensures DoSaveResponse(s, x).value.exec.Some?
  {
  }

  lemma LogJudge(cfg: Config, s: State, x: Exec)
    requires LogInv(cfg, s) && s.exec == Some(x) && DoJudge(cfg, s, x).Some?
    ensures LogInv(cfg, DoJudge(cfg, s, x).value)
  {
  }

  lemma LogStep(cfg: Config, s: State, e: Event)
    requires LogInv(cfg, s) && Apply(cfg, s, e).Some?
    ensures LogInv(cfg, Apply(cfg, s, e).value)
  {
    match e
    case Assemble(req) => LogAssemble(cfg, s, s.exec.value, req);
    case Resume => LogResume(cfg, s, s.exec.value);
    case WriteAhead => LogWriteAhead(cfg, s, s.exec.value);
    case Finish(minutes) => LogFinish(cfg, s, s.exec.value, minutes);
    case SaveResponse => LogSaveResponse(cfg, s, s.exec.value);
    case Judge => LogJudge(cfg, s, s.exec.value);
    case _ =>
  }

  // ----- the ledger -----

  ghost predicate AllHalf(cfg: Config) {
    forall price {:trigger cfg.priced(price)} :: cfg.priced(price) ==> HalfPrice(price)
  }

  ghost predicate AllWhole(cfg: Config) {
    forall price {:trigger cfg.priced(price)} :: cfg.priced(price) ==> WholePrice(price)
  }

  /** What `n` charges may lose in the column: nothing if all prices are whole halves of 10^-6 USD,
      else 45 * 10^-8 USD each. */
  ghost function Loss(cfg: Config, n: nat): nat {
    if AllHalf(cfg) then 0 else 45 * n
  }

  /** What `n` charges may gain: nothing at whole prices, else 50 * 10^-8 USD each. */
  ghost function Gain(cfg: Config, n: nat): nat {
    if AllWhole(cfg) then 0 else 50 * n
  }

  ghost predicate Covered(cfg: Config, rows: seq<Row>, bills: seq<nat>) {
    |bills| == |rows| && forall i :: 0 <= i < |rows| ==> bills[i] <= rows[i].cost + Loss(cfg, 1)
  }

  /** The ceilings of the task's policy, and the charges behind what was sent and billed. */
  ghost predicate Ceilings(cfg: Config, s: State) {
    && Covered(cfg, s.db.rows, s.hist.bills)
    && s.hist.sent <= |s.db.rows| <= Max0(s.db.policy.maxCalls)
    && SumCost(s.db.rows) <= Max0(s.db.policy.maxCost) + Gain(cfg, Max0(cfg.maxAttempts))
    && s.hist.retries <= CountRows(s.db.rows, false)
    && s.hist.retries <= Max0(s.db.policy.maxRetries)
  }

  /** An admitted attempt: `base` is what the call found plus its own failed attempts, and there
      is room for one more row at the worst case.  The call adds up unrounded amounts. */
  ghost predicate Admitted(cfg: Config, p: Policy, c: Call, base: seq<Row>) {
    && c.attempt == |c.failed| + 1 <= cfg.maxAttempts && WorstCase(c.req).Some? && AtPrice(cfg, c.req)
    && c.usage.calls + |c.failed| == |base| < p.maxCalls
    && SumCost(base) <= c.usage.cost + Sum(c.failed) + Gain(cfg, |c.failed|)
    && c.usage.cost + Sum(c.failed) + WorstCase(c.req).value <= p.maxCost
    && c.usage.retries + |c.failed| == CountRows(base, false)
    && (c.attempt > 1 ==> c.usage.retries + c.attempt - 2 < p.maxRetries)
  }

  /** An attempt written ahead as the last row. */
  ghost predicate Written(cfg: Config, s: State, c: Call, row: nat) {
    && |s.db.rows| == row + 1
    && Admitted(cfg, s.db.policy, c, s.db.rows[..row])
    && s.db.rows[row] == Row(Stored(WorstCase(c.req).value), Requested)
    && s.hist.retries <= c.usage.retries + c.attempt - 1
    && row < |s.hist.bills| && s.hist.bills[row] <= WorstCase(c.req).value
  }

  ghost predicate LedgerAt(cfg: Config, s: State, x: Exec) {
    match x
    case Ready(_, c) =>
      Admitted(cfg, s.db.policy, c, s.db.rows) && s.hist.retries <= c.usage.retries + Max0(c.attempt - 2)
    case Ahead(_, c, row) => Written(cfg, s, c, row) && s.hist.sent <= row
    case InFlight(_, c, row) => Written(cfg, s, c, row)
    case Ending(_, c, row, reply) => Written(cfg, s, c, row) && Honest(c.req, s.hist.bills[row], reply)
    case _ => true
  }

  ghost predicate LedgerInv(cfg: Config, s: State) {
    Ceilings(cfg, s) && (s.exec.Some? ==> LedgerAt(cfg, s, s.exec.value))
  }

  /** The column keeps the amounts of an admitted call within the drift. */
  lemma StoredWithin(cfg: Config, req: Request, tokensIn: nat, tokensOut: nat)
    requires PriceFor(req.provider, req.model).Some? && AtPrice(cfg, req)
    ensures var c := Cost(PriceFor(req.provider, req.model).value, tokensIn, tokensOut);
            c <= Stored(c) + Loss(cfg, 1) && Stored(c) <= c + Gain(cfg, 1)
  {
    var price := PriceFor(req.provider, req.model).value;
    LossAtMost45(price, tokensIn, tokensOut);
    if AllHalf(cfg) { NotLossy(price, tokensIn, tokensOut); }
    if AllWhole(cfg) { NotInflated(price, tokensIn, tokensOut); }
    StoredNear(Cost(price, tokensIn, tokensOut), 0);
  }

  lemma WorstWithin(cfg: Config, req: Request)
    requires WorstCase(req).Some? && AtPrice(cfg, req)
    ensures var c := WorstCase(req).value; c <= Stored(c) + Loss(cfg, 1) && Stored(c) <= c + Gain(cfg, 1)
  {
    StoredWithin(cfg, req, EstimateInputTokens(req.promptBytes), req.maxOutputTokens);
  }

  lemma ChargeWithin(cfg: Config, req: Request, reply: Reply)
    requires WorstCase(req).Some? && AtPrice(cfg, req)
    ensures var c := Charge(req, reply); c <= Stored(c) + Loss(cfg, 1) && Stored(c) <= c + Gain(cfg, 1)
  {
    match reply {
      case Answer(_, tokensIn, tokensOut) => StoredWithin(cfg, req, tokensIn, tokensOut);
      case Failure(_) => WorstWithin(cfg, req);
    }
  }

  lemma LedgerAdmit(cfg: Config, s: State, x: Exec, minutes: real)
    requires LogInv(cfg, s) && LedgerInv(cfg, s) && s.exec == Some(x) && DoAdmit(cfg, s, x, minutes).Some?
    ensures LedgerInv(cfg, DoAdmit(cfg, s, x, minutes).value)
  {
  }

  lemma LedgerWriteAhead(cfg: Config, s: State, x: Exec)
    requires LedgerInv(cfg, s) && s.exec == Some(x) && DoWriteAhead(s, x).Some?
    ensures LedgerInv(cfg, DoWriteAhead(s, x).value)
  {
    var row := Row(Stored(WorstCase(x.c.req).value), Requested);
    WorstWithin(cfg, x.c.req);
    CountAppend(s.db.rows, row);
    assert (s.db.rows + [row])[..|s.db.rows|] == s.db.rows;
  }

  lemma LedgerSend(cfg: Config, s: State, x: Exec, bill: nat)
    requires LedgerInv(cfg, s) && s.exec == Some(x) && DoSend(s, x, bill).Some?
    ensures LedgerInv(cfg, DoSend(s, x, bill).value)
  {
    WorstWithin(cfg, x.c.req);
  }

  /** What an attempt is finally charged lies between its bill and its write-ahead charge. */
  lemma ChargeBounds(req: Request, bill: nat, reply: Reply)
    requires WorstCase(req).Some? && bill <= WorstCase(req).value && Honest(req, bill, reply)
    ensures bill <= Charge(req, reply) <= WorstCase(req).value
    ensures FinishedRow(req, reply).cost <= Stored(WorstCase(req).value)
  {
    if reply.Answer? {
      CostMonotone(PriceFor(req.provider, req.model).value,
                   reply.tokensIn, reply.tokensOut, EstimateInputTokens(req.promptBytes), req.maxOutputTokens);
    }
    StoredNear(Charge(req, reply), WorstCase(req).value);
  }

  /** What an attempt is charged, in numbers: an answer what it used at the price of the table, a
      rejection with a status of 400 to 499 other than 408 nothing, and every other failure, with a
      status or without, the whole worst case. */
  lemma ChargedExactly(req: Request, price: Price, reply: Reply)
    requires PriceFor(req.provider, req.model) == Some(price)
    ensures WorstCase(req).Some?
    ensures WorstCase(req).value ==
            EstimateInputTokens(req.promptBytes) * price.input + req.maxOutputTokens * price.output
    ensures reply.Answer? ==> Charge(req, reply) == reply.tokensIn * price.input + reply.tokensOut * price.output
    ensures reply.Failure? ==>
              if reply.status.Some? && 400 <= reply.status.value < 500 && reply.status.value != 408
              then Charge(req, reply) == 0 else Charge(req, reply) == WorstCase(req).value
    ensures FinishedRow(req, reply) == Row(Stored(Charge(req, reply)), if reply.Answer? then Completed else Failed)
  {
  }

  /** What is left for another attempt after one charged `charge`: an attempt, a call, the worst case
      under the cost ceiling, time and a retry. */
  ghost predicate RoomForRetry(cfg: Config, c: Call, charge: nat, minutes: real) {
    && c.attempt < cfg.maxAttempts && WorstCase(c.req).Some?
    && c.usage.calls + |c.failed| + 1 < c.policy.maxCalls
    && c.usage.cost + Sum(c.failed) + charge < c.policy.maxCost
    && c.usage.cost + Sum(c.failed) + charge + WorstCase(c.req).value <= c.policy.maxCost
    && minutes < c.policy.maxMinutes as real && c.req.maxOutputTokens <= c.policy.maxOutputTokens
    && c.usage.retries + c.attempt - 1 < c.policy.maxRetries
  }

  /** A failed attempt is followed by another exactly if there is room for it and the failure is no
      rejection with a status of 400 to 499, except 408 and 429; otherwise the task is failed. */
  lemma RetriedIff(cfg: Config, s: Session, c: Call, status: Option<int>, minutes: real)
    ensures var next := AfterFailure(cfg, s, c, status, minutes); var charge := Charge(c.req, Failure(status));
            && (next.Ready? <==>
                  && RoomForRetry(cfg, c, charge, minutes)
                  && (status.Some? && 400 <= status.value < 500 ==> status.value == 408 || status.value == 429))
            && (next.Ready? ==> next == Ready(s, c.(failed := c.failed + [charge], attempt := c.attempt + 1)))
            && (!next.Ready? ==>
                  next == Closing(Session(s.task.(status := TaskFailed), Some(MissionFailed), s.artifacts)))
  {
    SumAppend(c.failed, Charge(c.req, Failure(status)));
  }

  /** A call is let in exactly if its price is known, an attempt is allowed at all, and the committed
      rows leave room under every ceiling; otherwise the task is failed. */
  lemma AdmittedIff(cfg: Config, s: State, x: Exec, minutes: real)
    requires s.exec == Some(x) && x.Calling? && AtPrice(cfg, x.req)
    ensures Apply(cfg, s, Admit(minutes)).Some?
    ensures var next := Apply(cfg, s, Admit(minutes)).value;
            var failed := Session(x.s.task.(status := TaskFailed), Some(MissionFailed), x.s.artifacts);
            && next.db == s.db && next.hist == s.hist && next.exec.Some?
            && (next.exec.value.Ready? <==>
                  && WorstCase(x.req).Some? && 1 <= cfg.maxAttempts && |s.db.rows| < x.policy.maxCalls
                  && SumCost(s.db.rows) < x.policy.maxCost
                  && SumCost(s.db.rows) + WorstCase(x.req).value <= x.policy.maxCost
                  && minutes < x.policy.maxMinutes as real && x.req.maxOutputTokens <= x.policy.maxOutputTokens)
            && (!next.exec.value.Ready? ==> next.exec == Some(Closing(failed)))
  {
  }

  /** The rows that count as retries are the ones that are not completed. */
  lemma {:induction false} RetriesCounted(rows: seq<Row>)
    ensures CountRows(rows, false) == |set i | 0 <= i < |rows| && rows[i].status != Completed|
  {
    if rows != [] {
      var n := |rows| - 1;
      RetriesCounted(rows[..n]);
      var before := set i | 0 <= i < n && rows[..n][i].status != Completed;
      var all := set i | 0 <= i < |rows| && rows[i].status != Completed;
      if rows[n].status != Completed {
        assert all == before + {n};
      } else {
        assert all == before;
      }
    }
  }

  lemma FinishRows(cfg: Config, s: State, x: Exec)
    requires LedgerInv(cfg, s) && s.exec == Some(x) && x.Ending?
    ensures var r := FinishedRow(x.c.req, x.reply); var rows := s.db.rows[x.row := r];
            && Covered(cfg, rows, s.hist.bills)
            && SumCost(rows) == SumCost(s.db.rows[..x.row]) + r.cost <= SumCost(s.db.rows)
            && CountRows(rows, false) == CountRows(s.db.rows[..x.row], false) + if x.reply.Answer? then 0 else 1
  {
    var r := FinishedRow(x.c.req, x.reply);
    ChargeBounds(x.c.req, s.hist.bills[x.row], x.reply);
    ChargeWithin(cfg, x.c.req, x.reply);
    ReplaceLast(s.db.rows, r);
    CountAppend(s.db.rows[..x.row], s.db.rows[x.row]);
    CountAppend(s.db.rows[..x.row], r);
  }

  lemma SumAppend(xs: seq<nat>, x: nat)
    ensures Sum(xs + [x]) == Sum(xs) + x
  {
    assert (xs + [x])[..|xs|] == xs;
  }

  /** A retry the budget allows is an admitted attempt on the rows with the failed one finished. */
  lemma RetryAdmitted(
    cfg: Config, s: Session, c: Call, status: Option<int>, minutes: real, base: seq<Row>, rows: seq<Row>,
    policy: Policy)
    requires Admitted(cfg, policy, c, base) && c.policy == policy && AfterFailure(cfg, s, c, status, minutes).Ready?
    requires |rows| == |base| + 1 && SumCost(rows) == SumCost(base) + FinishedRow(c.req, Failure(status)).cost
    requires CountRows(rows, false) == CountRows(base, false) + 1
    ensures Admitted(cfg, policy, AfterFailure(cfg, s, c, status, minutes).c, rows)
  {
    ChargeWithin(cfg, c.req, Failure(status));
    SumAppend(c.failed, Charge(c.req, Failure(status)));
  }

  lemma LedgerFinish(cfg: Config, s: State, x: Exec, minutes: real)
    requires LogInv(cfg, s) && LedgerInv(cfg, s) && s.exec == Some(x) && DoFinish(cfg, s, x, minutes).Some?
    ensures LedgerInv(cfg, DoFinish(cfg, s, x, minutes).value)
  {
    FinishRows(cfg, s, x);
    if x.reply.Failure? && AfterFailure(cfg, x.s, x.c, x.reply.status, minutes).Ready? {
      RetryAdmitted(cfg, x.s, x.c, x.reply.status, minutes, s.db.rows[..x.row],
                    s.db.rows[x.row := FinishedRow(x.c.req, x.reply)], s.db.policy);
    }
  }

  lemma LedgerReceive(cfg: Config, s: State, x: Exec, reply: Reply)
    requires LedgerInv(cfg, s) && s.exec == Some(x) && DoReceive(s, x, reply).Some?
    ensures LedgerInv(cfg, DoReceive(s, x, reply).value)
  {
  }

  /** Steps that leave the ledger and the policy alone, outside a call. */
  lemma LedgerFrame(cfg: Config, s: State, s': State)
    requires LedgerInv(cfg, s) && s'.db.rows == s.db.rows && s'.db.policy == s.db.policy
    requires s'.hist == s.hist.(requeues := s'.hist.requeues)
    requires s'.exec.None? || s'.exec == s.exec
             || !(s'.exec.value.Ready? || s'.exec.value.Ahead? || s'.exec.value.InFlight? || s'.exec.value.Ending?)
    ensures LedgerInv(cfg, s')
  {
  }

  lemma LedgerOther(cfg: Config, s: State, e: Event)
    requires LedgerInv(cfg, s) && Apply(cfg, s, e).Some? && !e.Admit?
    requires !e.WriteAhead? && !e.Send? && !e.Receive? && !e.Finish?
    ensures LedgerInv(cfg, Apply(cfg, s, e).value)
  {
    LedgerFrame(cfg, s, Apply(cfg, s, e).value);
  }

  lemma LedgerStep(cfg: Config, s: State, e: Event)
    requires LogInv(cfg, s) && LedgerInv(cfg, s) && Apply(cfg, s, e).Some?
    ensures LedgerInv(cfg, Apply(cfg, s, e).value)
  {
    match e
    case Admit(minutes) => LedgerAdmit(cfg, s, s.exec.value, minutes);
    case WriteAhead => LedgerWriteAhead(cfg, s, s.exec.value);
    case Send(bill) => LedgerSend(cfg, s, s.exec.value, bill);
    case Receive(reply) => LedgerReceive(cfg, s, s.exec.value, reply);
    case Finish(minutes) => LedgerFinish(cfg, s, s.exec.value, minutes);
    case _ => LedgerOther(cfg, s, e);
  }

  // ----- the output artifact -----

  /** At most one mission output, and it is the valid text of the latest answer; a task's pointer
      names it, and a completed task has one. */
  ghost predicate OutputShape(cfg: Config, arts: seq<Artifact>, task: Task, cks: seq<Checkpoint>) {
    && (forall i, j :: 0 <= i < |arts| && 0 <= j < |arts| && arts[i].kind == arts[j].kind ==> i == j)
    && (forall i :: 0 <= i < |arts| && arts[i].kind.MissionOutput? ==>
          EndsWith(cks, arts[i].content) && cfg.valid(arts[i].content))
    && (task.output.Some? ==> task.output.value < |arts| && arts[task.output.value].kind.MissionOutput?)
    && (task.status.TaskCompleted? ==> task.output.Some?)
  }

  /** At most a raw response is staged. */
  ghost predicate Staged(arts: seq<Artifact>, mine: seq<Artifact>) {
    arts <= mine && |mine| <= |arts| + 1 && (|mine| > |arts| ==> mine[|arts|].kind.RawModelResponse?)
  }

  /** Nothing but the final commit is staged beyond the start of the task. */
  ghost predicate OutputAt(cfg: Config, db: Db, x: Exec) {
    if x.Closing? then
      && Staged(db.artifacts, x.s.artifacts) && OutputShape(cfg, x.s.artifacts, x.s.task, db.checkpoints)
    else
      && x.s.artifacts == db.artifacts && x.s.task.status.Running? && x.s.task.output == db.task.output
      && x.s.mission.None?
  }

  ghost predicate OutputInv(cfg: Config, s: State) {
    && OutputShape(cfg, s.db.artifacts, s.db.task, s.db.checkpoints)
    && (s.exec.Some? ==> OutputAt(cfg, s.db, s.exec.value))
  }

  lemma OutputAssemble(cfg: Config, s: State, x: Exec, req: Request)
    requires LogInv(cfg, s) && OutputInv(cfg, s) && s.exec == Some(x) && DoAssemble(s, x, req).Some?
    ensures OutputInv(cfg, DoAssemble(s, x, req).value)
  {
    LatestIsLast(s.db.policy, s.db.checkpoints);
  }

  lemma OutputSaveResponse(cfg: Config, s: State, x: Exec)
    requires LogInv(cfg, s) && OutputInv(cfg, s) && s.exec == Some(x) && DoSaveResponse(s, x).Some?
    ensures OutputInv(cfg, DoSaveResponse(s, x).value)
  {
    var n := |s.db.checkpoints|;
    assert s.db.checkpoints[n - 1].stage.PromptAssembled?;
  }

  /** Adding an artifact of a new kind keeps the shape. */
  lemma OutputAppend(cfg: Config, arts: seq<Artifact>, a: Artifact, task: Task, cks: seq<Checkpoint>)
    requires OutputShape(cfg, arts, task, cks) && forall i :: 0 <= i < |arts| ==> arts[i].kind != a.kind
    requires a.kind.MissionOutput? ==> EndsWith(cks, a.content) && cfg.valid(a.content)
    ensures OutputShape(cfg, arts + [a], task, cks)
  {
  }

  lemma FoundAfter(arts: seq<Artifact>, a: Artifact)
    ensures FindArtifact(arts + [a], a.kind).Some?
  {
    assert (arts + [a])[|arts|].kind == a.kind;
  }

  /** Adding an artifact of a kind that may be there already keeps the shape. */
  lemma OutputWith(cfg: Config, s: Session, kind: ArtifactKind, content: string, cks: seq<Checkpoint>)
    requires OutputShape(cfg, s.artifacts, s.task, cks)
    requires kind.MissionOutput? ==> EndsWith(cks, content) && cfg.valid(content)
    ensures OutputShape(cfg, WithArtifact(s, kind, content).artifacts, s.task, cks)
    ensures s.artifacts <= WithArtifact(s, kind, content).artifacts
    ensures kind.RawModelResponse? ==> Staged(s.artifacts, WithArtifact(s, kind, content).artifacts)
    ensures FindArtifact(WithArtifact(s, kind, content).artifacts, kind).Some?
  {
    if FindArtifact(s.artifacts, kind).None? {
      OutputAppend(cfg, s.artifacts, Artifact(kind, content), s.task, cks);
      FoundAfter(s.artifacts, Artifact(kind, content));
    }
  }

  lemma OutputGivenUp(cfg: Config, db: Db, x: Session, text: string)
    requires OutputShape(cfg, db.artifacts, db.task, db.checkpoints)
    requires x.artifacts == db.artifacts && x.task.status.Running? && x.task.output == db.task.output
    ensures OutputAt(cfg, Commit(db, x), Closing(Fail(WithArtifact(x, RawModelResponse, text))))
  {
    assert OutputShape(cfg, x.artifacts, x.task, db.checkpoints);
    OutputWith(cfg, x, RawModelResponse, text, db.checkpoints);
    var y := WithArtifact(x, RawModelResponse, text);
    assert Fail(y).artifacts == y.artifacts && Fail(y).task == x.task.(status := TaskFailed);
  }

  lemma OutputJudge(cfg: Config, s: State, x: Exec)
    requires LogInv(cfg, s) && OutputInv(cfg, s) && s.exec == Some(x) && DoJudge(cfg, s, x).Some?
    ensures OutputInv(cfg, DoJudge(cfg, s, x).value)
  {
    OutputGivenUp(cfg, s.db, x.s, x.text);
    assert OutputShape(cfg, x.s.artifacts, x.s.task, s.db.checkpoints);
  }

  lemma OutputOwned(cfg: Config, arts: seq<Artifact>, task: Task, cks: seq<Checkpoint>, id: nat)
    requires OutputShape(cfg, arts, task, cks) && id < |arts| && arts[id].kind.MissionOutput?
    ensures OutputShape(cfg, arts, task.(output := Some(id)), cks)
    ensures OutputShape(cfg, arts, task.(output := Some(id), status := TaskCompleted), cks)
  {
  }

  lemma OutputStore(cfg: Config, s: State, x: Exec)
    requires LogInv(cfg, s) && OutputInv(cfg, s) && s.exec == Some(x) && DoStore(s, x).Some?
    ensures OutputInv(cfg, DoStore(s, x).value)
  {
    assert OutputShape(cfg, x.s.artifacts, x.s.task, s.db.checkpoints);
    OutputWith(cfg, x.s, MissionOutput, x.text, s.db.checkpoints);
    var y := WithArtifact(x.s, MissionOutput, x.text);
    OutputOwned(cfg, y.artifacts, y.task, s.db.checkpoints, FindArtifact(y.artifacts, MissionOutput).value);
    var task := y.task.(output := FindArtifact(y.artifacts, MissionOutput));
    var s' := DoStore(s, x).value;
    assert s'.db.artifacts == y.artifacts && s'.db.task == task && s'.db.checkpoints == s.db.checkpoints;
    assert s'.exec == Some(Closing(Session(task.(status := TaskCompleted), Some(MissionCompleted), y.artifacts)));
  }

  lemma OutputFinish(cfg: Config, s: State, x: Exec, minutes: real)
    requires OutputInv(cfg, s) && s.exec == Some(x) && DoFinish(cfg, s, x, minutes).Some?
    ensures OutputInv(cfg, DoFinish(cfg, s, x, minutes).value)
  {
  }

  lemma OutputWriteAhead(cfg: Config, s: State, x: Exec)
    requires OutputInv(cfg, s) && s.exec == Some(x) && DoWriteAhead(s, x).Some?
    ensures OutputInv(cfg, DoWriteAhead(s, x).value)
  {
  }

  lemma OutputSweep(cfg: Config, s: State)
    requires OutputInv(cfg, s) && DoSweep(cfg, s).Some?
    ensures OutputInv(cfg, DoSweep(cfg, s).value)
  {
  }

  lemma OutputOther(cfg: Config, s: State, e: Event)
    requires OutputInv(cfg, s) && Apply(cfg, s, e).Some?
    requires !e.Assemble? && !e.SaveResponse? && !e.Judge? && !e.Store? && !e.Finish? && !e.WriteAhead? && !e.Sweep?
    ensures OutputInv(cfg, Apply(cfg, s, e).value)
  {
  }

  lemma OutputStep(cfg: Config, s: State, e: Event)
    requires LogInv(cfg, s) && OutputInv(cfg, s) && Apply(cfg, s, e).Some?
    ensures OutputInv(cfg, Apply(cfg, s, e).value)
  {
    match e
    case Assemble(req) => OutputAssemble(cfg, s, s.exec.value, req);
    case SaveResponse => OutputSaveResponse(cfg, s, s.exec.value);
    case Judge => OutputJudge(cfg, s, s.exec.value);
    case Store => OutputStore(cfg, s, s.exec.value);
    case Finish(minutes) => OutputFinish(cfg, s, s.exec.value, minutes);
    case WriteAhead => OutputWriteAhead(cfg, s, s.exec.value);
    case Sweep => OutputSweep(cfg, s);
    case _ => OutputOther(cfg, s, e);
  }

  // ----- the task's life cycle -----

  /** Recoveries are counted in retry_count, which an executor only ever raises. */
  ghost predicate LifeInv(cfg: Config, s: State) {
    && s.hist.requeues <= s.db.task.retryCount
    && s.hist.requeues <= Max0(cfg.maxRequeues)
    && (s.exec.Some? ==>
          && (s.db.task.status.Queued? || s.db.task.status.Running?)
          && s.db.task.retryCount <= s.exec.value.s.task.retryCount)
  }

  lemma LifeStep(cfg: Config, s: State, e: Event)
    requires OutputInv(cfg, s) && LifeInv(cfg, s) && Apply(cfg, s, e).Some?
    ensures LifeInv(cfg, Apply(cfg, s, e).value)
    ensures s.db.task.retryCount <= Apply(cfg, s, e).value.db.task.retryCount
  {
  }

  // ----- whole runs -----

  ghost predicate Sound(cfg: Config, s: State) {
    LogInv(cfg, s) && LedgerInv(cfg, s) && OutputInv(cfg, s)
  }

  ghost predicate Inv(cfg: Config, s: State) {
    Sound(cfg, s) && LifeInv(cfg, s)
  }

  lemma SoundStep(cfg: Config, s: State, e: Event)
    requires Sound(cfg, s) && Apply(cfg, s, e).Some?
    ensures Sound(cfg, Apply(cfg, s, e).value)
  {
    LogStep(cfg, s, e);
    LedgerStep(cfg, s, e);
    OutputStep(cfg, s, e);
  }

  lemma InvStep(cfg: Config, s: State, e: Event)
    requires Inv(cfg, s) && Apply(cfg, s, e).Some?
    ensures Inv(cfg, Apply(cfg, s, e).value)
  {
    SoundStep(cfg, s, e);
    LifeStep(cfg, s, e);
  }

  lemma {:induction false} InvRun(cfg: Config, s: State, es: seq<Event>)
    requires Inv(cfg, s) && Run(cfg, s, es).Some?
    ensures Inv(cfg, Run(cfg, s, es).value)
    decreases |es|
  {
    if es != [] {
      InvStep(cfg, s, es[0]);
      InvRun(cfg, Apply(cfg, s, es[0]).value, es[1..]);
    }
  }

  lemma {:induction false} RunAppend(cfg: Config, s: State, es: seq<Event>, fs: seq<Event>)
    requires Run(cfg, s, es).Some?
    ensures Run(cfg, s, es + fs) == Run(cfg, Run(cfg, s, es).value, fs)
    decreases |es|
  {
    if es == [] {
      assert es + fs == fs;
    } else {
      RunAppend(cfg, Apply(cfg, s, es[0]).value, es[1..], fs);
      assert (es + fs)[0] == es[0] && (es + fs)[1..] == es[1..] + fs;
    }
  }

  /** Some run leads from `s` to `t`. */
  ghost predicate Reaches(cfg: Config, s: State, t: State) {
    exists es: seq<Event> :: Run(cfg, s, es) == Some(t)
  }

  lemma ReachesBy(cfg: Config, s: State, es: seq<Event>, t: State)
    requires Run(cfg, s, es) == Some(t)
    ensures Reaches(cfg, s, t)
  {
  }

  lemma Then(cfg: Config, s: State, t: State, e: Event)
    requires Reaches(cfg, s, t) && Apply(cfg, t, e).Some?
    ensures Reaches(cfg, s, Apply(cfg, t, e).value)
  {
    var es: seq<Event> :| Run(cfg, s, es) == Some(t);
    RunAppend(cfg, s, es, [e]);
    assert [e][0] == e && [e][1..] == [];
    assert Run(cfg, t, [e]) == Run(cfg, Apply(cfg, t, e).value, []);
    ReachesBy(cfg, s, es + [e], Apply(cfg, t, e).value);
  }

  lemma Reachable(cfg: Config, policy: Policy, es: seq<Event>)
    requires Run(cfg, Init(policy), es).Some?
    ensures Inv(cfg, Run(cfg, Init(policy), es).value)
    ensures Run(cfg, Init(policy), es).value.db.policy == policy
  {
    InvRun(cfg, Init(policy), es);
    SamePolicy(cfg, Init(policy), es);
  }

  lemma {:induction false} SamePolicy(cfg: Config, s: State, es: seq<Event>)
    requires Run(cfg, s, es).Some?
    ensures Run(cfg, s, es).value.db.policy == s.db.policy
    decreases |es|
  {
    if es != [] { SamePolicy(cfg, Apply(cfg, s, es[0]).value, es[1..]); }
  }

  lemma {:induction false} CoveredSum(cfg: Config, rows: seq<Row>, bills: seq<nat>)
    requires Covered(cfg, rows, bills)
    ensures Sum(bills) <= SumCost(rows) + Loss(cfg, |rows|)
  {
    if rows != [] { CoveredSum(cfg, rows[..|rows| - 1], bills[..|bills| - 1]); }
  }

  /** In every reachable state: billed <= committed charges <= the cost ceiling, up to what the
      column's rounding loses per row and gains per attempt of a call (`Rounding` shows that both
      allowances are reached). */
  lemma SpendSafety(cfg: Config, policy: Policy, es: seq<Event>)
    requires Run(cfg, Init(policy), es).Some?
    ensures var s := Run(cfg, Init(policy), es).value;
            && Sum(s.hist.bills) <= SumCost(s.db.rows) + Loss(cfg, |s.db.rows|)
            && SumCost(s.db.rows) <= Max0(policy.maxCost) + Gain(cfg, Max0(cfg.maxAttempts))
  {
    Reachable(cfg, policy, es);
    var s := Run(cfg, Init(policy), es).value;
    CoveredSum(cfg, s.db.rows, s.hist.bills);
  }

  /** In every reachable state: requests sent <= committed rows <= the call ceiling, and the
      retries of all calls together stay within the retry ceiling. */
  lemma CallAndRetryCeilings(cfg: Config, policy: Policy, es: seq<Event>)
    requires Run(cfg, Init(policy), es).Some?
    ensures var s := Run(cfg, Init(policy), es).value;
            && s.hist.sent <= |s.db.rows| <= Max0(policy.maxCalls)
            && s.hist.retries <= Max0(policy.maxRetries)
            && s.hist.retries <= CountRows(s.db.rows, false)
  {
    Reachable(cfg, policy, es);
  }

  /** Checkpoint sequences are exactly 1..n, prompts and answers alternate, and n is bounded. */
  lemma CheckpointDiscipline(cfg: Config, policy: Policy, es: seq<Event>)
    requires Run(cfg, Init(policy), es).Some?
    ensures var s := Run(cfg, Init(policy), es).value;
            && LogShape(policy, s.db.checkpoints)
            && |s.db.checkpoints| <= 2 * Max0(policy.maxCalls) + 1
  {
    Reachable(cfg, policy, es);
    CountBound(Run(cfg, Init(policy), es).value.db.rows);
  }

  lemma {:induction false} CountBound(rows: seq<Row>)
    ensures CountRows(rows, true) + CountRows(rows, false) == |rows|
  {
    if rows != [] { CountBound(rows[..|rows| - 1]); }
  }

  /** Saving a checkpoint never hits the unique constraint. */
  lemma NoSequenceCollision(cfg: Config, policy: Policy, es: seq<Event>, e: Event)
    requires Run(cfg, Init(policy), es).Some? && (e.Assemble? || e.SaveResponse?)
    requires Apply(cfg, Run(cfg, Init(policy), es).value, e).Some?
    ensures Apply(cfg, Run(cfg, Init(policy), es).value, e).value.exec.Some?
  {
    Reachable(cfg, policy, es);
    var s := Run(cfg, Init(policy), es).value;
    match e
    case Assemble(req) => LogAssemble(cfg, s, s.exec.value, req);
    case SaveResponse => LogSaveResponse(cfg, s, s.exec.value);
  }

  ghost predicate IsOutput(db: Db, id: nat) {
    id < |db.artifacts| && db.artifacts[id].kind.MissionOutput?
  }

  /** At most one mission output; it is the valid text of the latest answer; a completed task
      points at it. */
  lemma OutputOnce(cfg: Config, policy: Policy, es: seq<Event>)
    requires Run(cfg, Init(policy), es).Some?
    ensures var db := Run(cfg, Init(policy), es).value.db;
            && (forall i: nat, j: nat :: IsOutput(db, i) && IsOutput(db, j) ==> i == j)
            && (forall i: nat :: IsOutput(db, i) ==>
                  EndsWith(db.checkpoints, db.artifacts[i].content) && cfg.valid(db.artifacts[i].content))
            && (db.task.status.TaskCompleted? ==> db.task.output.Some? && IsOutput(db, db.task.output.value))
  {
    Reachable(cfg, policy, es);
  }

  /** With the output there, the latest checkpoint is its valid answer, and no call is under way. */
  lemma OutputEndsCalls(cfg: Config, s: State, id: nat)
    requires Sound(cfg, s) && IsOutput(s.db, id)
    ensures Latest(s.db.checkpoints).Some? && Latest(s.db.checkpoints).value.stage.ModelResponded?
    ensures cfg.valid(Latest(s.db.checkpoints).value.stage.text)
    ensures s.exec.Some? ==>
              || s.exec.value.Loaded? || (s.exec.value.Judging? && cfg.valid(s.exec.value.text))
              || s.exec.value.Storing? || s.exec.value.Closing?
  {
    assert EndsWith(s.db.checkpoints, s.db.artifacts[id].content);
    assert |s.db.checkpoints| % 2 == 0;
    LatestIsLast(s.db.policy, s.db.checkpoints);
  }

  ghost predicate Frozen(s: State, s': State, id: nat) {
    && IsOutput(s.db, id) && IsOutput(s'.db, id) && s'.db.artifacts[id] == s.db.artifacts[id]
    && s'.db.rows == s.db.rows && s'.db.checkpoints == s.db.checkpoints
    && s'.hist.sent == s.hist.sent && s'.hist.bills == s.hist.bills
  }

  /** Once the output is committed nothing more is sent or charged and the output stays. */
  lemma OutputFrozenStep(cfg: Config, s: State, e: Event, id: nat)
    requires Sound(cfg, s) && IsOutput(s.db, id) && Apply(cfg, s, e).Some?
    ensures Frozen(s, Apply(cfg, s, e).value, id)
  {
    OutputEndsCalls(cfg, s, id);
  }

  lemma {:induction false} OutputFrozen(cfg: Config, s: State, es: seq<Event>, id: nat)
    requires Inv(cfg, s) && IsOutput(s.db, id) && Run(cfg, s, es).Some?
    ensures Frozen(s, Run(cfg, s, es).value, id)
    decreases |es|
  {
    if es != [] {
      InvStep(cfg, s, es[0]);
      OutputFrozenStep(cfg, s, es[0], id);
      OutputFrozen(cfg, Apply(cfg, s, es[0]).value, es[1..], id);
    }
  }

  /** A completed task's row is final: over every run that follows it stays as it is, and so does its
      mission unless an operator moves it. */
  lemma {:induction false} CompletedIsFinal(cfg: Config, s: State, es: seq<Event>)
    requires Inv(cfg, s) && s.db.task.status.TaskCompleted? && Run(cfg, s, es).Some?
    ensures Run(cfg, s, es).value.db.task == s.db.task
    ensures (forall i :: 0 <= i < |es| ==> !es[i].MissionMoves?) ==> Run(cfg, s, es).value.db.mission == s.db.mission
    decreases |es|
  {
    if es != [] {
      InvStep(cfg, s, es[0]);
      CompletedIsFinal(cfg, Apply(cfg, s, es[0]).value, es[1..]);
    }
  }

  // ----- the mission of a finished task -----

  /** A last commit completes the task together with its mission, or fails it together with its mission. */
  ghost predicate MissionAt(x: Exec) {
    x.Closing? ==>
      || (x.s.task.status.TaskCompleted? && x.s.mission == Some(MissionCompleted))
      || (x.s.task.status.TaskFailed? && x.s.mission == Some(MissionFailed))
  }

  ghost predicate MissionInv(s: State) {
    s.exec.Some? ==> MissionAt(s.exec.value)
  }

  /** The mission follows the task: completed with it, failed with it, and otherwise moved by an
      operator only. */
  ghost predicate Followed(s: Db, moved: bool, s': Db) {
    && (s'.task.status.TaskCompleted? && !s.task.status.TaskCompleted? ==> s'.mission == MissionCompleted)
    && (s'.task.status.TaskFailed? && !s.task.status.TaskFailed? ==> s'.mission == MissionFailed)
    && (!moved && s'.mission != s.mission ==>
          || (s'.task.status.TaskCompleted? && !s.task.status.TaskCompleted?)
          || (s'.task.status.TaskFailed? && !s.task.status.TaskFailed?))
  }

  lemma MissionAtStep(cfg: Config, s: State, e: Event)
    requires OutputInv(cfg, s) && MissionInv(s) && Apply(cfg, s, e).Some?
    ensures MissionInv(Apply(cfg, s, e).value)
  {
  }

  lemma MissionStep(cfg: Config, s: State, e: Event)
    requires OutputInv(cfg, s) && LifeInv(cfg, s) && MissionInv(s) && Apply(cfg, s, e).Some?
    ensures Followed(s.db, e.MissionMoves?, Apply(cfg, s, e).value.db)
  {
  }

  lemma {:induction false} MissionRun(cfg: Config, s: State, es: seq<Event>)
    requires Inv(cfg, s) && MissionInv(s) && Run(cfg, s, es).Some?
    ensures MissionInv(Run(cfg, s, es).value)
    decreases |es|
  {
    if es != [] {
      InvStep(cfg, s, es[0]);
      MissionAtStep(cfg, s, es[0]);
      MissionRun(cfg, Apply(cfg, s, es[0]).value, es[1..]);
    }
  }

  /** At every step of every run: the step that completes the task completes the mission, the one that
      fails it fails the mission, and no other step but an operator's move changes the mission. */
  lemma MissionFollows(cfg: Config, policy: Policy, es: seq<Event>, e: Event)
    requires Run(cfg, Init(policy), es).Some? && Apply(cfg, Run(cfg, Init(policy), es).value, e).Some?
    ensures var s := Run(cfg, Init(policy), es).value; Followed(s.db, e.MissionMoves?, Apply(cfg, s, e).value.db)
  {
    Reachable(cfg, policy, es);
    MissionRun(cfg, Init(policy), es);
    MissionStep(cfg, Run(cfg, Init(policy), es).value, e);
  }

  ghost predicate Agree(db: Db) {
    && (db.task.status.TaskCompleted? ==> db.mission.MissionCompleted?)
    && (db.task.status.TaskFailed? ==> db.mission.MissionFailed?)
  }

  /** So if no operator moves the mission, a completed task's mission is completed and a failed
      task's mission is failed, after every run. */
  lemma {:induction false} MissionAgrees(cfg: Config, s: State, es: seq<Event>)
    requires Inv(cfg, s) && MissionInv(s) && Agree(s.db) && Run(cfg, s, es).Some?
    requires forall i :: 0 <= i < |es| ==> !es[i].MissionMoves?
    ensures Agree(Run(cfg, s, es).value.db)
    decreases |es|
  {
    if es != [] {
      InvStep(cfg, s, es[0]);
      MissionAtStep(cfg, s, es[0]);
      MissionStep(cfg, s, es[0]);
      MissionAgrees(cfg, Apply(cfg, s, es[0]).value, es[1..]);
    }
  }
}
