# Verified models of the mission platform

A Dafny model of the parts of the repository where several processes, crashes, clocks or retries
meet, with proofs about every run of them. `dafny verify dfyconfig.toml` checks the whole project.

| files | what they model |
|---|---|
| `Lease` | the Redis lease that admits one worker to a task, as a timed protocol |
| `Budget`, `Metering`, `MeteringProofs`, `MeteringRuns`, `Rounding` | one task's metered execution as a step system: executor, durable adapter, gateway, write-ahead ledger, checkpoints, artifacts, crash at any point, sweep, operator retry |
| `Executor` | the same code as statements over its tables, each statement proved to be a step of `Metering` |
| `Recovery` | what the orphan sweep does at its cap |
| `Fleet`, `FleetRuns`, `FleetLimits`, `FleetRecovery`, `FleetMissions`, `FleetRefinement` | any number of leased workers with their last commits outside the lease: what they keep, under exactly which timing, and when exactly they are one executor |
| `Closure`, `ClosureProofs`, `ReaperProofs`, `Twins` | runtime sessions, subagents, closures and the reaper: step system, whole-run theorems, and the statements |
| `Town`, `TownPlan`, `Commute`, `Lots` | the road graph, its Dijkstra search, the commute state machine, lot placement |
| `Rooms`, `RoomProofs`, `Personas` | the two racing slot allocators |
| `Breaker` | the circuit breaker |

Where a property holds only under a condition, the condition is exact, and a run or an input shows
what happens without it:

- Lease: with `last_ok` stamped when the reply arrives, exclusion holds exactly when no sequence of
  failing heartbeats can outlive the key (`Lease.ExclusionIff`). With the shipped constants that
  means the delay between a command's effect and its stamp is zero (`Lease.DefaultsNeedNoLag`).
- Fleet: the cost ceiling, the call ceiling, the shape of the checkpoint log and the finality of the
  output hold over all runs of any number of workers exactly when exclusion does
  (`FleetLimits.FleetCeilingsIff`, `FleetLimits.FleetOutputIff`, `FleetLimits.FleetFrozenIff`).
  Otherwise two workers are admitted on the same ledger and both write ahead, which commits twice the
  cost ceiling and one call too many; or both repair one answer and the log has two prompts in a row;
  or one sends its request after the other has stored the output. With the shipped constants any
  positive reply delay is enough (`FleetLimits.DefaultFleetIsSafe`).
- Last commit: a worker commits after its heartbeat has ended. Exclusion up to that commit, and the
  fleet's being one executor, hold exactly when the commit cannot land after the key's expiry
  (`Lease.AloneIff`, `FleetRefinement.FleetRefinesIff`); with the shipped constants the commit would
  have to take no time (`Lease.DefaultsNeedInstantCommit`). The ceilings, the log and the output do
  not depend on it. Two things do, exactly:
  - The sweep's cap on recoveries (`FleetRecovery.FleetRequeuesBounded`,
    `FleetRecovery.FleetRequeuesIff`). A worker that failed a retried task without ever committing
    still has the retry count it read; when its commit lands after another worker's start and a row of
    sweeps, it sets the count back to 1, and 2 * cap - 3 recoveries are possible, 17 with the shipped
    cap of 10.
  - That `completed` is final. For one executor it is (`MeteringProofs.CompletedIsFinal`); in the fleet
    a late commit that fails the task turns another worker's completed task and its mission into failed
    ones (`FleetRecovery.FleetCompletedIff`, `FleetRecovery.DefaultFleetRecovers`). Task and mission end
    together all the same (`FleetMissions.FleetMissionFollows`).
- Spending: the ledger column keeps six decimals of a dollar, finer prices are rounded, and the
  gateway adds up unrounded amounts within a call. Over all runs at a request's price, billed <=
  committed holds if and only if the price is a whole number of halves of 10^-6 USD per token
  (`Rounding.BilledIsCommittedIff`), committed <= ceiling if and only if it is a whole number
  (`Rounding.CeilingIsKeptIff`). In general both hold up to 45 * 10^-8 USD per row below and
  50 * 10^-8 USD per attempt above (`MeteringProofs.SpendSafety`), and both allowances are reached
  for any number of attempts (`Rounding.LossIsReached`, `Rounding.GainIsReached`).
- Orphan sweep: at the requeue cap a task is failed exactly when its mission is running; a task
  retried by an operator under a failed mission stays `running` until a worker executes it or
  somebody sets the mission running (`Recovery.SweepAtCap`, `Recovery.StuckForever`,
  `Recovery.RetriedTaskGetsStuck`).
- `shortestPath`: a node whose id is the empty string is taken for a missing predecessor, so null
  is returned although there is a way. Between known nodes null means unreachable exactly for graphs
  in which the empty id is no node or no edge leaves it for another (`Town.ShortestPath`,
  `Town.TruthfulIff`).
- Room allocator: sixteen attempts suffice exactly for up to sixteen concurrent callers
  (`RoomProofs.AttemptsSufficeIff`). Serial calls keep every slot below the peak number of agents
  with a room, interleaved ones at most at it, and the peak is reached
  (`RoomProofs.SerialSlotsBelowPeak`, `RoomProofs.SlotsWithinPeak`, `RoomProofs.PeakIsReached`).
- Subagent registration reads its session without a lock; the insert leaves nothing open under an
  ended session exactly when the session is still open at that moment
  (`ClosureProofs.InsertNeedsOpenSession`). A run that leaves such a stray exists
  (`ClosureProofs.StrayRun`); everything else proved of the protocol includes such runs, and a sweep
  closes the stray (`ReaperProofs.StaleIsReaped`).

Money is counted in units of 10^-8 USD, in which every price is a whole number per token. Times are
reals or integers of one unit. What providers do is a hypothesis written into the steps: they bill at
most the worst-case estimate, report usage within it, and do not bill a 4xx other than 408.

## Model

| member | source | states |
|---|---|---|
| `Lease.ExclusionIff` | services/mission-engine/mission_engine/engine/lease.py:72-142 | for any number of workers, crashes and Redis failures, and any ttl, refresh, timeout and reply delay: two workers are never inside at once if and only if no schedule of failing heartbeats can go on past the key's expiry |
| `Lease.ExclusionWithoutLag` | services/mission-engine/mission_engine/engine/lease.py:99-126 | with no reply delay exclusion holds exactly when refresh + timeout < ttl |
| `Lease.DefaultsNeedNoLag` | services/mission-engine/mission_engine/engine/lease.py:35-39 | with the shipped constants exclusion holds exactly when the reply delay is zero |
| `Lease.HeldThroughout` | services/mission-engine/mission_engine/engine/lease.py:82-142 | in every reachable state a worker inside the work holds the unexpired key |
| `Lease.RefreshKeepsWorking` | services/mission-engine/mission_engine/engine/lease.py:82-126 | a worker whose refreshes succeed is inside and holds a full ttl after any number of refresh intervals |
| `Lease.LossIsNoticed` | services/mission-engine/mission_engine/engine/lease.py:112-142 | a due refresh lands exactly while the key is the worker's own, else the loss is reported and ends the work; a failed one is survived exactly while the next check is sure to come in time |
| `Lease.ReleaseFrees` | services/mission-engine/mission_engine/engine/lease.py:79-80 | a release frees the worker's own key at once for the next, and leaves another's alone |
| `Lease.AloneIff` | services/worker/main.py:109-139 | no two workers are between the start of their work and their last commit, in any run, if and only if no last commit can land after its key's expiry |
| `Lease.DefaultsNeedInstantCommit` | services/mission-engine/mission_engine/engine/lease.py:35-39 | with the shipped constants that holds exactly when stamps and last commits take no time |
| `Budget.CostMonotone` | services/model-gateway/model_gateway/telemetry.py:47-49 | more tokens never cost less, so the worst case bounds every smaller usage |
| `Budget.RoundingIff` | packages/common/db/models.py:340 | the cost column never rounds a charge at a price down exactly at whole halves of 10^-6 USD per token, never up exactly at whole numbers |
| `Budget.AllowedIff` | packages/policy-sdk/policy_sdk/budgets.py:25-67 | a call is allowed exactly below every ceiling: calls, cost with and without the worst case, minutes, output size, and retries for a retry |
| `Budget.EstimateInputTokens` | services/model-gateway/model_gateway/telemetry.py:71-73 | the least number of three-byte tokens that hold the prompt |
| `MeteringProofs.SpendSafety` | services/model-gateway/model_gateway/gateway.py:90-228 | in every reachable state over crashes, resumes, repairs and operator retries: billed <= committed charges <= the cost ceiling, up to 45 * 10^-8 USD per row and 50 * 10^-8 USD per attempt of a call, and without allowance where prices are not rounded |
| `Rounding.BilledIsCommittedIff` | services/mission-engine/mission_engine/engine/usage.py:79-104 | for every priced request: all runs at its price keep billed <= committed if and only if the price is a whole number of halves of 10^-6 USD |
| `Rounding.CeilingIsKeptIff` | packages/policy-sdk/policy_sdk/budgets.py:42-50 | all runs at its price keep committed <= ceiling if and only if the price is whole |
| `Rounding.SpendSafeIff` | services/model-gateway/model_gateway/gateway.py:211-228 | all runs at its price keep billed <= committed <= ceiling if and only if the price is whole |
| `Rounding.LossIsReached` | services/mission-engine/mission_engine/engine/usage.py:90-104 | for every n a run with n rows is billed exactly the allowance above its committed charges |
| `Rounding.GainIsReached` | services/model-gateway/model_gateway/gateway.py:211-228 | for every n a run with n attempts commits exactly the allowance above the ceiling |
| `MeteringProofs.CallAndRetryCeilings` | services/mission-engine/mission_engine/engine/usage.py:61-94 | requests sent <= committed rows <= max_model_calls, and retries over the task's life <= max_retries |
| `MeteringProofs.ChargeBounds` | services/model-gateway/model_gateway/telemetry.py:79-113 | under the provider hypothesis, in which a status of 400 to 499 other than 408 is not billed, what a finished attempt is charged covers its bill and is no more than the worst case charged ahead |
| `MeteringProofs.ChargedExactly` | services/model-gateway/model_gateway/telemetry.py:47-113 | an answer is charged its tokens at the price; a failure with a status of 400 to 499 other than 408 nothing; every other failure, a 5xx, a 408 or none at all, the whole worst case |
| `MeteringProofs.RetriedIff` | services/model-gateway/model_gateway/gateway.py:105-228 | a failed attempt is followed by another exactly if attempts, calls, cost, time and retries are left and the status is no 4xx other than 408 and 429; otherwise the task and its mission are failed |
| `MeteringProofs.AdmittedIff` | services/model-gateway/model_gateway/gateway.py:125-147 | a call is let in exactly if it is priced and the committed rows leave a call, the worst case, time and output size under the ceilings |
| `MeteringProofs.RetriesCounted` | services/mission-engine/mission_engine/engine/usage.py:61-76 | the retries a call finds are the rows that are not completed |
| `MeteringProofs.CheckpointDiscipline` | services/agent-runtime/agent_runtime/adapters/durable_adapter.py:46-107 | a task's checkpoint sequences are exactly 1..n, odd ones prompts and even ones answers, with n <= 2 * max_model_calls + 1 |
| `MeteringProofs.NoSequenceCollision` | services/mission-engine/mission_engine/checkpoints/sql_checkpoint_store.py:30-63 | no save in any run meets a taken sequence number |
| `MeteringProofs.OutputOnce` | services/artifact-service/artifact_service/service.py:37-94 | at most one mission output per task, it is the valid text of the latest answer, and a completed task points at it |
| `MeteringProofs.OutputFrozen` | services/mission-engine/mission_engine/engine/task_executor.py:160-223 | once the output is committed, over the rest of any run nothing is sent, charged or checkpointed and the output stays as it is |
| `MeteringProofs.CompletedIsFinal` | services/worker/main.py:119-124 | with one executor a completed task's row stays as it is over the rest of any run, and its mission too unless an operator moves it |
| `MeteringProofs.MissionFollows` | services/mission-engine/mission_engine/engine/task_executor.py:217-236 | at every step of every run: the step that completes the task completes its mission, the one that fails it fails the mission, and no other step but an operator's move changes the mission |
| `MeteringProofs.MissionAgrees` | services/mission-engine/mission_engine/engine/task_executor.py:217-236 | without such moves a completed task's mission is completed and a failed task's failed, after every run |
| `MeteringProofs.LatestIsLast` | services/mission-engine/mission_engine/checkpoints/sql_checkpoint_store.py:44-63 | in a well-formed log the row with the highest sequence is the last one saved |
| `Executor.RetryDecision` | services/model-gateway/model_gateway/gateway.py:105-228 | another attempt exactly if there is room for one and the status is no 4xx other than 408 and 429, from the task's whole usage; the same decision as the step system's |
| `Executor.TaskRun.constructor` | services/mission-engine/mission_engine/engine/task_executor.py:58-98 | a new task's tables are the step system's initial state |
| `Executor.TaskRun.BeginAttempt` | services/mission-engine/mission_engine/engine/usage.py:79-88 | exactly one row at the worst case is committed before anything is sent |
| `Executor.TaskRun.Exchange` | services/model-gateway/model_gateway/gateway.py:155-171 | one request leaves; either an honest reply is in hand or the execution is gone |
| `Executor.TaskRun.AdmitCall` | services/model-gateway/model_gateway/gateway.py:125-146 | admitted exactly when the provider is registered, the model priced, an attempt configured and the budget allows the worst case; refused by the budget exactly when only the budget objects |
| `Executor.TaskRun.Attempt` | services/model-gateway/model_gateway/gateway.py:173-187 | write-ahead and exchange in this order, one new row |
| `Executor.TaskRun.FinishAttempt` | services/mission-engine/mission_engine/engine/usage.py:90-94 | the attempt's own row and no other is rewritten; a failed one at nothing for a status of 400 to 499 other than 408, else at the stored worst case |
| `Executor.TaskRun.EndAttempt` | services/model-gateway/model_gateway/gateway.py:189-209 | success ends the call; a failure ends it or leaves it ready for the next attempt |
| `Executor.TaskRun.TryOnce` | services/model-gateway/model_gateway/gateway.py:102-116 | one iteration adds at most one row, failed if there is another try and completed exactly when an answer is returned |
| `Executor.TaskRun.Generate` | services/model-gateway/model_gateway/gateway.py:90-123 | at most max_attempts new rows, all but the last failed, the last completed exactly when a text is returned unless interrupted; every state change is a step, with an interruption possible at every await |
| `Executor.TaskRun.SaveAnswer` | services/mission-engine/mission_engine/checkpoints/sql_checkpoint_store.py:30-42 | the answer is appended at the next sequence, which is always free |
| `Executor.TaskRun.CallModelAndCheckpoint` | services/agent-runtime/agent_runtime/adapters/durable_adapter.py:122-166 | a returned text is checkpointed; a refusal leaves the task to be failed |
| `Executor.TaskRun.Execute` | services/agent-runtime/agent_runtime/adapters/durable_adapter.py:46-84 | a first or repair prompt is saved at a free sequence and its call made |
| `Executor.TaskRun.ResumeFrom` | services/agent-runtime/agent_runtime/adapters/durable_adapter.py:92-107 | an answered checkpoint is replayed without a request, a prompt is called again |
| `Executor.TaskRun.FailTask` | services/mission-engine/mission_engine/engine/task_executor.py:226-234 | task and mission are failed in one commit together with the staged artifacts |
| `Executor.TaskRun.StoreOutput` | services/mission-engine/mission_engine/engine/task_executor.py:198-210 | the committed tables hold the output with this text, owned by a task still running, before completion is staged |
| `Executor.TaskRun.CompleteTask` | services/mission-engine/mission_engine/engine/task_executor.py:217-223 | the last commit completes task and mission together and keeps the artifacts |
| `Executor.TaskRun.Validate` | services/mission-engine/mission_engine/engine/task_executor.py:160-196 | a valid text goes on to be stored, an invalid one to one repair, an invalid repair to failure with the raw text staged |
| `Executor.TaskRun.Repair` | services/mission-engine/mission_engine/engine/task_executor.py:165-196 | the one repair ends with a valid text to store or with the end of the execution |
| `Executor.TaskRun.Conclude` | services/mission-engine/mission_engine/engine/task_executor.py:118-196 | from a first result to the end of the execution every change is a step |
| `Executor.TaskRun.Load` | services/mission-engine/mission_engine/engine/task_executor.py:85-98 | the start is staged, not committed; the retry count goes up by one exactly for a queued task that is not at its first attempt |
| `Executor.TaskRun.AlwaysWithinBudget` | packages/policy-sdk/policy_sdk/budgets.py:25-67 | at every point of the executor's code spending, calls and retries are within the policy |
| `Executor.TaskRun.ProcessTask` | services/worker/main.py:109-139 | one execution, interrupted or not, is a run of the step system, ends with no executor and within budget, and leaves a finished task alone |
| `Executor.TaskRun.RegisterRecovery` | services/mission-engine/mission_engine/engine/recovery.py:33-76 | requeued exactly when running below the cap; at the cap failed exactly when the mission is running |
| `Executor.TaskRun.RetryTask` | services/api/routes/tasks.py:72-108 | at any time, also while a worker executes: only a failed task goes back to the queue, and only its status changes |
| `Recovery.RequeuesBounded` | services/worker/main.py:71-106 | with one executor and sweeps that find nobody executing, a task is requeued at most the configured number of times over any run |
| `Recovery.SweepAtCap` | services/mission-engine/mission_engine/engine/recovery.py:50-76 | at the cap a sweep fails the task exactly when its mission is running, otherwise changes nothing |
| `Recovery.StuckForever` | services/mission-engine/mission_engine/engine/recovery.py:50-76 | at the cap under a mission that is not running, the task stays running over every run in which no worker begins it and the mission is not set running |
| `Recovery.RetriedTaskGetsStuck` | services/api/routes/tasks.py:72-108 | such a state is reachable: an operator retry under a failed mission, then a worker that dies |
| `Fleet.FleetSpendSafety` | services/worker/main.py:71-139 | spending, call and retry ceilings over every run of any number of workers whose heartbeat race excludes, with rows read before the race starts, last commits outside the lease and stale sweeps |
| `FleetLimits.FleetCeilingsIff` | services/model-gateway/model_gateway/gateway.py:90-228 | over all runs, configurations and policies: the cost ceiling is kept, the call ceiling is kept, and billed <= committed <= ceiling holds at whole prices, each if and only if the heartbeat race excludes |
| `FleetLimits.DefaultFleetIsSafe` | services/mission-engine/mission_engine/engine/lease.py:35-39 | with the shipped constants each of the three holds if and only if the reply delay is zero, however late the last commits |
| `Fleet.FleetOutputOnce` | services/worker/main.py:109-139 | in the runs whose race excludes checkpoints are 1..n and bounded, there is one output at most, the valid latest answer, and a completed task points at it |
| `FleetLimits.FleetOutputIff` | services/agent-runtime/agent_runtime/adapters/durable_adapter.py:46-166 | that holds over all runs if and only if the race excludes |
| `Fleet.FleetOutputFrozen` | services/worker/main.py:109-139 | in the runs whose race excludes no worker sends, charges or checkpoints anything once the output is committed |
| `FleetLimits.FleetFrozenIff` | services/worker/main.py:109-139 | that holds over all runs if and only if the race excludes |
| `FleetRefinement.FleetRefinesIff` | services/worker/main.py:109-139 | the tables and the key holder's session are always in a state one executor can reach, if and only if no last commit can land after its key's expiry; over the runs in which no sweep is overtaken by a worker |
| `FleetRefinement.InTime` | services/worker/main.py:109-139 | then also at most one worker has uncommitted work |
| `FleetRecovery.FleetRequeuesBounded` | services/worker/main.py:71-106 | if no last commit can land late the whole fleet requeues a task at most the configured number of times, over every run, also when a sweep's transaction comes long after its look at the key |
| `FleetRecovery.FleetRequeuesIff` | services/mission-engine/mission_engine/engine/recovery.py:35-48 | for every cap of at least 4 and every policy that lets calls in, the cap is kept over all runs, and over those without overtaken sweeps, if and only if no last commit can land late |
| `FleetRecovery.FleetCompletedIff` | services/worker/main.py:119-130 | a completed task's row, and its mission unless an operator moves it, stay as they are over all runs if and only if no last commit can land late |
| `FleetRecovery.DefaultFleetRecovers` | services/worker/main.py:49 | with the shipped constants, cap included, both hold if and only if stamps and last commits take no time |
| `FleetMissions.FleetMissionFollows` | services/worker/main.py:119-133 | with any number of workers and any timing: a last commit that lands leaves task and mission completed together or failed together; no other step completes the task, one that fails it fails the mission, and only an operator moves the mission otherwise |
| `ClosureProofs.StepKeeps` | services/api/services/agent_runtime_closure.py:109-360 | registration, heartbeat, hook close, session end and sweep each keep the protocol's invariant |
| `ClosureProofs.ClosedIffEnded` | services/api/services/agent_runtime_closure.py:109-207 | in every reachable world a subagent is ended exactly when it has its one closure; the row agrees with it, and the task is completed if the closure's outcome is completed and failed if it is failed |
| `ClosureProofs.FirstCloserWins` | services/api/services/agent_runtime_closure.py:151-207 | a closure's closer, outcome and reason never change over the rest of any run, and the task stays completed or failed as that outcome says |
| `ClosureProofs.MarkedOnce` | services/api/services/agent_runtime_closure.py:159-175 | late_close_at is set only by a hook on a reaper's closure, and then stays |
| `ClosureProofs.NewClosure` | services/api/services/agent_runtime_closure.py:177-207 | a new closure was written by the step that closed the open row, and says who and why; a session's end and the reaper leave the task failed, a hook as it reports |
| `ClosureProofs.NewRow` | services/api/routes/agent_runtime.py:108-250 | a new row is open with its start, its tenant and a queued task; a session has a running mission, a subagent the open session of its reference for parent |
| `ClosureProofs.HeartbeatRecorded` | services/api/routes/agent_runtime.py:268-313 | a heartbeat is recorded on the tenant's own row and changes nothing else |
| `ClosureProofs.SessionEndRecorded` | services/api/services/agent_runtime_closure.py:210-268 | a session ends by its own end with the outcome given, or by the reaper as abandoned, at the time of that step |
| `ClosureProofs.EndedSessionIsOver` | services/api/services/agent_runtime_closure.py:210-268 | an ended session stays as it ended, its task is completed and its mission not running; unless a registration was overtaken every subagent it has or gets is ended with a closure |
| `ClosureProofs.EndOnce` | services/api/services/agent_runtime_closure.py:232-236 | ending a session again changes nothing, whatever the outcome |
| `ClosureProofs.HookCloseOnce` | services/api/services/agent_runtime_closure.py:159-175 | a second hook close changes nothing |
| `ClosureProofs.CloseTouchesOneRow` | services/api/services/agent_runtime_closure.py:177-207 | a hook close changes no mission and no other row, closure or task |
| `ClosureProofs.TenantsApart` | services/api/routes/agent_runtime.py:267-347 | a request by one tenant changes nothing another tenant has |
| `ClosureProofs.InsertNeedsOpenSession` | services/api/routes/agent_runtime.py:178-249 | inserting a subagent leaves nothing open under an ended session exactly when its session is open at the insert |
| `ClosureProofs.StrayRun` | services/api/routes/agent_runtime.py:193-232 | a run in which a registration is overtaken by the end of its session leaves an open subagent under it |
| `ReaperProofs.SweepIsSafe` | services/api/services/agent_runtime_closure.py:271-360 | a sweep ends only subagents whose own last sign of life, and whose session's start and last heartbeat, lie before the cutoff, with a reaper closure and a failed task, and silent sessions with no subagent left open; ended rows are untouched |
| `ReaperProofs.OneSweepIsEnough` | services/api/services/agent_runtime_closure.py:319-360 | with a batch as large as the number of open rows nothing stale is left |
| `ReaperProofs.StaleIsReaped` | services/api/services/agent_runtime_closure.py:339-349 | such a sweep gives every silent subagent, stray or not, a reaper's closure |
| `ReaperProofs.IdleIsEnded` | services/api/services/agent_runtime_closure.py:295-360 | and ends every silent session without an open subagent as abandoned |
| `ReaperProofs.SweepProgresses` | services/api/services/agent_runtime_closure.py:319-360 | with any positive batch a sweep ends a row unless nothing is stale, and then changes nothing |
| `ReaperProofs.SweepsConverge` | services/api/services/agent_runtime_closure.py:319-360 | as many sweeps as there are open rows settle everything, whatever the batch size |
| `ReaperProofs.HookLossRate` | services/api/services/agent_runtime_closure.py:372-402 | the rate lies between 0 and 1, also with no closures |
| `ReaperProofs.LossOnlyByLateHook` | services/api/services/agent_runtime_closure.py:372-402 | over any run counted closures stay counted, and a lost one stops being lost exactly when its hook reports |
| `Twins.Tables.AdvanceTask` | services/api/services/agent_runtime_closure.py:69-106 | never raises from any status; each write is a legal transition; ends at the target unless terminal before |
| `Twins.Tables.CloseTask` | services/api/services/agent_runtime_closure.py:109-207 | a foreign or missing row is untouched; a first close writes its closure, stamps the row and completes the task on a success and fails it on a failure; a later one at most sets the late mark, a hook on a reaper's closure |
| `Twins.Tables.OpenSubagentIds` | services/api/services/agent_runtime_closure.py:246-254 | lists each open subagent of the session once |
| `Twins.Tables.EndSession` | services/api/services/agent_runtime_closure.py:210-268 | is one step of the protocol, although the code advances the session's task before its subagents |
| `Twins.Tables.StaleSubagentIds` | services/api/services/agent_runtime_closure.py:271-292 | selects only stale subagents, all of them but locked ones unless the batch is full |
| `Twins.Tables.StaleSessionIds` | services/api/services/agent_runtime_closure.py:295-316 | selects only stale sessions without open subagents, all of them but locked ones unless the batch is full |
| `Twins.Tables.Reap` | services/api/services/agent_runtime_closure.py:319-360 | is one step of the protocol; the count is the number of subagents closed |
| `Twins.Tables.RegisterSession` | services/api/routes/agent_runtime.py:108-175 | idempotent per tenant and reference; a conflict exactly when the agent is missing, an uncaught error exactly when another tenant's mission has the code |
| `Twins.Tables.RegisterSubagent` | services/api/routes/agent_runtime.py:178-249 | idempotent per instance; not found exactly when neither instance nor session is registered; never under an ended session |
| `Twins.Tables.UpdateSession` | services/api/routes/agent_runtime.py:267-313 | heartbeat or session end as a step, with the exact refusals |
| `Twins.Tables.CloseSubagent` | services/api/routes/agent_runtime.py:316-347 | the hook close as a step, with the exact refusals |
| `Town.ShortestPath` | apps/admin-web/src/world/town.ts:190-231 | a returned polyline is that of a shortest walk; between known nodes null exactly when there is no way, for graphs in which the empty id is no node or has no edge to another; null from the empty id to any other node |
| `Town.TruthfulIff` | apps/admin-web/src/world/town.ts:222-228 | the condition is exact: a graph fails it if and only if there is a way from the empty id to another known node, which is answered null |
| `Town.Search` | apps/admin-web/src/world/town.ts:194-218 | terminates with the target's distance final, zero-length edges included |
| `Town.WalkBack` | apps/admin-web/src/world/town.ts:220-230 | terminates and traces a real walk of the found weight |
| `TownPlanning.BuildTownPlan` | apps/admin-web/src/world/town.ts:148-186 | the shipped plan has 48 lots, is connected, has distinct node positions and true road lengths; and in every run on it trips chain and a place that stays desired is reached within two trips for good |
| `TownPlanning.GraphBuilder.AddRoad` | apps/admin-web/src/world/town.ts:121-141 | joins two spots both ways at their true distance and keeps everything joined before |
| `TownPlanning.AllLotSlots` | apps/admin-web/src/world/town.ts:83-97 | lists the lots of all streets in order with index, center and road node |
| `TownPlanning.LotsAreClear` | apps/admin-web/src/world/town.ts:17-44 | no two buildings overlap and none reaches into a road |
| `TownPlanning.RoadIsLeast` | apps/admin-web/src/world/town.ts:233-237 | on such a map the length of the returned polyline is the least road distance |
| `Commute.PathLength` | apps/admin-web/src/world/town.ts:233-237 | the loop sums the segment lengths |
| `Commute.StepCommute` | apps/admin-web/src/world/commute.ts:118-165 | one call is one step of the commute; in numbers, a trip ends exactly when (now - start) * speed reaches 1000 * distance at 1.1, 4.2 or 9.5 by vehicle, and is left alone until then; a free twin stays or sets off on a shortest road, on foot up to 17 - k, by bicycle up to 43 - k, k from 0 to 6 by its id |
| `Commute.InitIsPlaced` | apps/admin-web/src/world/commute.ts:100-106 | a new twin stands, arrived, at its place's node |
| `Commute.StepMoves` | apps/admin-web/src/world/commute.ts:118-165 | a trip under way is not rewritten, one whose distance is covered ends at its target, a new one goes to the desired place |
| `Commute.TripsChain` | apps/admin-web/src/world/commute.ts:118-165 | in every run from a placed twin on a usable plan every trip starts at the node and point where the one before ended, whatever happened to lot assignments |
| `Commute.ThereAfterTwoTrips` | apps/admin-web/src/world/commute.ts:118-139 | in every such run, once the desired place stays fixed at most two trips are finished, and after two the twin is there |
| `Commute.ThereForGood` | apps/admin-web/src/world/commute.ts:226-228 | an arrived twin stays unchanged while its place stays desired |
| `Commute.PlanCommutes` | apps/admin-web/src/world/commute.ts:100-165 | both, and staying for good, for all runs on any usable plan |
| `Lots.AssignLots` | apps/admin-web/src/world/lots.ts:18-34 | the loops over the taken array compute the placement function |
| `Lots.Placement` | apps/admin-web/src/world/lots.ts:18-34 | no two projects share a lot, lots are in range, only listed projects are placed, and all of them when at most 48 are listed |
| `TownPlanning.AssignedLotsAreKnown` | apps/admin-web/src/world/commute.ts:70-78 | whatever projects are listed, their lots are lots of the built plan, so every commute step on it is defined, and a placed project's node is its lot's |
| `Lots.FirstFreeLot` | apps/admin-web/src/world/lots.ts:24-32 | a project stands on the nearest lot upwards from its home lot, round the end, that no earlier project holds, whatever is listed after it |
| `Lots.AppendKeeps` | apps/admin-web/src/world/lots.ts:1-10 | listing more projects at the end moves nobody |
| `Rooms.SlotsAreRooms` | packages/common/rooms.py:11-26 | slots and rooms correspond one to one |
| `Rooms.LowestFreeSlot` | packages/common/rooms.py:29-33 | the lowest free slot, at most the number of slots taken |
| `RoomProofs.EveryoneIsServed` | services/api/services/room_assignment.py:61-136 | over any interleaving with releases agents and rooms stay one to one; with no more callers than attempts nobody gives up and each is served within as many attempts as callers |
| `RoomProofs.AttemptsSufficeIff` | services/api/services/room_assignment.py:26-35 | no caller can be left without a room if and only if there are no more callers than attempts |
| `RoomProofs.SerialSlotsBelowPeak` | services/api/services/room_assignment.py:61-136 | over every serial run of calls and releases each active slot is below the peak number of agents with a room |
| `RoomProofs.SlotsWithinPeak` | services/api/services/room_assignment.py:61-136 | over every interleaving each active slot is at most that peak |
| `RoomProofs.PeakIsReached` | services/api/services/room_assignment.py:74-98 | and an interleaving reaches it |
| `Personas.CapIsReal` | services/api/services/persona_slots.py:66-142 | for any cap and number of callers: one slot per persona, the cap is reported only when every slot is taken, and the error behind the loop is never raised |
| `Breaker.CircuitBreaker.BeforeCall` | services/model-gateway/model_gateway/routing/circuit_breaker.py:38-47 | refuses exactly while less than a cooldown has passed since it opened, with the time left; afterwards lets the call through and resets the provider; other providers are untouched |
| `Breaker.CircuitBreaker.RecordSuccess` | services/model-gateway/model_gateway/routing/circuit_breaker.py:49-52 | the provider is healthy again, the others untouched |
| `Breaker.CircuitBreaker.RecordFailure` | services/model-gateway/model_gateway/routing/circuit_breaker.py:54-61 | one failure more, and opens now exactly when the threshold is reached |
| `Breaker.FailuresAreBounded` | services/model-gateway/model_gateway/routing/circuit_breaker.py:38-61 | with sequential calls and no success, from any state, at most threshold * (floor(T / cooldown) + 1) counted failures fall into a span T |
| `Breaker.ProbeIsLetThrough` | services/model-gateway/model_gateway/routing/circuit_breaker.py:38-47 | a call at least one cooldown after the last counted failure is let through, whatever came before |
| `Breaker.FewFailuresLetThrough` | services/model-gateway/model_gateway/routing/circuit_breaker.py:38-61 | every call to a new provider is let through until threshold failures have been counted |

## Left out

- Recovery.RequeuesBounded: a sweep whose transaction lands beside an executor is a step of `Fleet` only; `FleetRecovery.FleetRequeuesBounded` includes it.
- FleetRecovery.FleetRequeuesIff: says nothing of caps below 4; the shipped cap is 10.
- A commit in progress when the heartbeat gives up: the cancelled work is taken to end at once, with its commit landed or rolled back.
- Artifact inserts of two workers inside at once: a session keeps its own list, and the runs constructed where exclusion fails have at most one insert.
- Rows read inside a recovery transaction before it writes: it is one step, though it may come long after the look at the key.
- Row locks between two sessions' task updates: a last commit and a sweep may come in either order.
- Process pauses in the lease protocol: a worker never sleeps past the end of its heartbeat cycle, and WATCH/MULTI is one atomic command.
- Binary floating point in the budget comparison: sums are exact apart from the ledger column's rounding.
- The clock behind max_runtime_minutes: elapsed minutes are an arbitrary number at each admission.
- The cancel route of the durable adapter, which saves sequence 999.
- Task statuses waiting and cancelled in `Metering`; mission legality beyond running, in the executor.
- Events, audit records, the Redis queue, the object store and prompt assembly.
- The complete-external and fail-external operator routes on twin tasks, which bypass closures.
- Interleavings inside one registration, close or sweep transaction other than a registration overtaken by its session's end; a twin whose task or agent row has been deleted.
- The runtime adapter of a twin's agent is a parameter of each sweep, not a table.
- Reading a close by instance reference: it resolves to the row id that `Twins.Tables.CloseSubagent` takes.
- Concurrent calls through one breaker: calls already in flight when it opens are not bounded by it.
- Hash functions, distances and the reduced-motion branch's pictures are parameters; `pathPoint`, `poseAt` and everything drawn.
- Deleting personas or agents, which no code here does.
- Authentication, rate limits, the admin and world user interfaces, seeding and migrations: no further protocol in them.
