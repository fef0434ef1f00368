# A verified model of the agent runtime's step machines

The runtime is a FastAPI service around Agno agents. Most of it is plumbing; this project models the parts that are
step machines, protocols and small interpreters, and proves what they promise over every input, run or interleaving.

- **Scheduler** (`Schedule`, `Ticker`): N replicas scan for due schedules, try a Redis lock that nobody releases,
  re-read the row, run the workflow and commit the advanced `next_run_at`. "Fires at most once" is proved to be
  equivalent to a timing bound: scan-to-lock plus lock-to-commit under the lock TTL (60 s by default), no failed
  commits; or a single replica and no failed commits. The code enforces none of these delays. Counting by the row that
  is re-read and run, updates between scan and re-read have to be excluded as well.
- **Workflows** (`WorkflowRuns`, `WorkflowExecution`, `WorkflowThreading`, `WorkflowAudit`): sequential execution with
  output threading, the audit trail at every write and commit, and the streaming twin.
- **Nested triggering** (`WorkflowTriggers`, `TriggerChains`): agents that trigger workflows whose agents trigger
  workflows, under the depth and cycle guard; termination is part of what is proved.
- **Chat turns** (`ChatText`, `RunLog`, `ChatTurn`, `ChatDurability`, `RunTail`): one streaming turn with its commits,
  cancellation and usage row, and a tail that reads the log while it is written.
- **Quotas** (`QuotaPeriods`, `QuotaKeys`, `QuotaPolicies`, `QuotaMeter`, `QuotaOvershoot`): calendar buckets and TTLs,
  counter keys, policy selection, the meaning of a counter, and how far concurrent turns overshoot a limit.
- **Plans** (`PlanExecution`, `PlanProperties`): explicit plans run with retries.
- **Rules** (`Rules`, `RuleProperties`): the restricted rule evaluator of business objects.
- **Supporting stores** (`MemoryStore`, `MemoryMap`, `UiPlan`): memory rows that refine a map, and the aggregated UI
  action plan. `Sorting` is Python's stable sort, `Text` its integer formatting, `Prelude` two result types.

Code that changes state is a class or a method proved against a specification function; what the source promises is
proved about that function as lemmas. Agents, clocks, delays, cancel flags and tool calls are arbitrary: they are
parameters, actions of a run, or functions of the moment, so a theorem holds for all of them.

## Where the code and its documentation differ

The model follows the code.

- `app/core/workflow_trigger_context.py:14-16` rejects any workflow "already in the current call chain"; the workflow
  started from the API is not in that set. `TriggerChains.NeverReenteredIff` says exactly when it matters, for a
  workflow whose code no other tool's workflow shares: codes are unique within one AgentOS only
  (`app/models/workflow.py:37`).
- `app/businessobjects/validator.py:89-92` says validation never raises for a bad rule; comparing what Python cannot
  order raises TypeError through it. `RuleProperties.ValidIff` says exactly when, `ValidationCanRaise` gives an input.
- `app/models/quota.py:59-62` describes an all-models limit as separate from per-model ones; they compete for one
  (metric, period) slot, and `record_usage` increments the effective policies only, not "every matching policy"
  (`app/services/quota_service.py:211-214`). See `QuotaPolicies.EveryMatchIsEnforcedIff`.
- `app/schemas/quota.py:23` gives cost limits in cents; the counter they are compared with is in dollars.
  `QuotaMeter.LimitsDisagreeIff` says for which uses it matters, `ACostLimitIsNotEnforced` gives an input.
- `app/agno_runtime/memory_db.py:137-160` upserts content but keeps the row's first user. See `MemoryMap.ReadAfterUpsert`.
- `app/agno_runtime/agui_interface.py:108-111` distinguishes punctuation, to no effect: `ChatText.MergeSpacesIff`.
- `app/services/workflow_execution_service.py:131-133` marks a failed plain run FAILED; the request it runs in rolls that
  back (`app/db/session.py:28-36`). See `WorkflowAudit.TrailIsKeptIff` and `AFailedTrailIsLost`.
- A failing chat turn logs two error events, the engine's (`app/agno_runtime/engine.py:788`) and the run's. Between their
  commits the log ends like that of a failed run while the run is running: a reader of the last event alone cannot tell,
  a reader of the log can, since only a failed run's ends in two (`ChatDurability.LastEventMisleadsIff`).

## Model

| member | source | states |
|---|---|---|
| Schedule.LockWinsAreATtlApart | app/schedule/ticker.py:50-57 | with no timing assumption at all, in every interleaving of any number of replicas, two lock wins for one schedule are at least a TTL apart |
| Schedule.InvStep | app/schedule/ticker.py:54-79 | under the timing bound every scan, lock, re-read, run, commit, admin update and tick keeps the invariant behind it: every fired occurrence is in progress or settled, and no other replica can still fire it |
| Schedule.WhenAStepFires | app/schedule/ticker.py:59-67 | a step runs the workflow only as the re-read of an enabled, undeleted row by a replica that won the lock, and then once |
| Schedule.WhatAStepNeeds | app/schedule/ticker.py:50-51 | the lock is won only when it is free and then held for its TTL; a scan sees only an enabled, undeleted row whose next run has come |
| Schedule.TwoReplicasCanFireTwice | app/schedule/ticker.py:63-65 | without the bound, two replicas fire one occurrence twice: after the lock is won only `enabled` is re-checked, not `next_run_at` |
| Schedule.ARolledBackFireIsRepeated | app/schedule/ticker.py:59-79 | if a commit can fail after the run, even one replica scans, and runs, one occurrence twice |
| Schedule.FiresAtMostOnceIffSafe | app/schedule/ticker.py:50-105 | every interleaving fires each value of `next_run_at` at most once if and only if there is no replica, or no commit fails and there is one replica or scan-to-lock plus lock-to-commit stays under the lock TTL |
| Schedule.TwoReplicasCanRunTwice | app/schedule/ticker.py:63-72 | without the bound, the occurrence on the row as it was re-read can be run twice as well: early by the replica that scanned the one before it, and again when it is due |
| Schedule.AnUpdateInBetweenIsRunTwice | app/schedule/ticker.py:61-72 | an administrator's update between scan and re-read: one replica runs the new occurrence at once, and again when it is due |
| Schedule.RunsAtMostOnceIff | app/schedule/ticker.py:61-72 | the re-read occurrence is run at most once, in every interleaving, if and only if there is no replica, or the bound above holds and no update comes between a scan and its re-read |
| Ticker.NextRunAt | app/schedule/service.py:27-43 | for every valid schedule the next run lies strictly after its anchor, so a schedule never stays due at the moment it fired |
| Ticker.Platform.TryAcquireLock | app/schedule/ticker.py:50-51 | SET NX EX succeeds exactly when no live lock exists, and is the protocol's lock step |
| Ticker.Platform.RecordFired | app/schedule/service.py:93-106 | advances `next_run_at` and records time, status, error and run id, whether the run failed or not; is the protocol's record step |
| Ticker.Platform.FireOne | app/schedule/ticker.py:54-79 | the whole of `_fire_one` is a run of the protocol's steps; it fires exactly when the lock is free and the row enabled and not deleted, and then, if the commit succeeds, the row has its next run and says when and how the run ended: its status and id, or FAILED and the error; otherwise the row is as before |
| QuotaPeriods.ComputedEnds | app/services/quota_service.py:88-101 | for every timestamp, December and leap years included, the end built with `replace` is a valid date and the end of the day or month |
| QuotaPeriods.YearsInClosedForm | app/services/quota_service.py:88-101 | the calendar's year lengths sum to 365 a year and a day for each leap year, in closed form |
| QuotaPeriods.MonthTable | app/services/quota_service.py:94-99 | the days before each month, in common and leap years |
| QuotaPeriods.WindowsCountFromTheEpoch | app/services/quota_service.py:103-105 | fixed windows of the given seconds are counted from 1 January 1970, day 719163 of the calendar |
| QuotaPeriods.WindowSeconds | app/services/quota_service.py:103 | a missing or zero window is an hour, any other is what it says |
| QuotaPeriods.MonthsDoNotOverlap | app/services/quota_service.py:94-101 | a later calendar month starts after an earlier one has ended |
| QuotaPeriods.OrdinalsAreDistinct | app/services/quota_service.py:88-99 | two dates are the same day of the calendar exactly when year, month and day agree |
| QuotaPeriods.InsideOwnPeriod | app/services/quota_service.py:83-105 | every instant lies in its own day, month or window |
| QuotaPeriods.SameLabelIffSamePeriod | app/services/quota_service.py:83-105 | two instants get the same bucket label exactly when they lie in the same day, month or window |
| QuotaPeriods.TtlOutlivesPeriod | app/services/quota_service.py:90-105 | a daily or monthly key expires more than 59 and at most 60 seconds past its period's end; one of a fixed window, a window and 60 seconds from now, so past its end as well |
| QuotaPeriods.BucketRaisesIff | app/services/quota_service.py:88-101 | the bucket computation raises exactly for a daily policy on 31 December 9999 and a monthly one in December 9999 |
| QuotaKeys.ParsePrint | app/services/quota_service.py:108-111 | a parser that strips fields from both ends inverts the key printer although scope values may contain ':' |
| QuotaKeys.KeyInRedis | app/services/quota_service.py:108-111 | the key, with the values of the three enums and "any" for no model |
| QuotaKeys.PrintInjective | app/services/quota_service.py:108-111 | distinct (scope, value, model, metric, period, bucket) have distinct Redis keys |
| QuotaKeys.LabelsHaveNoColon | app/services/quota_service.py:83-105 | bucket labels never contain the separator, which the parser relies on |
| QuotaPolicies.SelectEffectivePolicies | app/services/quota_service.py:129-150 | the loop over the candidates computes the selection the lemmas below are about; `WinnerBeatsCandidate` says on the policies' fields which one that is |
| QuotaPolicies.WinnerBeatsCandidate | app/services/quota_service.py:124-150 | for every candidate a policy of its metric and period is selected that is USER if the candidate is, GROUP or USER if the candidate is GROUP, and, within one scope, has a higher priority or an equal one and no larger limit |
| QuotaPolicies.OneWinnerEach | app/services/quota_service.py:124-150 | two selected policies of one metric and period are the same, and are candidates |
| QuotaPolicies.WhoMatches | app/repositories/quota_repository.py:24-40 | an enabled, undeleted policy applies to its user, its group's members or everyone, for all models or its own |
| QuotaPolicies.SelectionIsBest | app/services/quota_service.py:124-150 | exactly one policy for every (metric, period) among the candidates, and no other candidate precedes it |
| QuotaPolicies.OrderDoesNotMatter | app/services/quota_service.py:129-150 | every permutation of the candidates selects the same slots with the same winning triple |
| QuotaPolicies.EveryMatchIsEnforcedIff | app/services/quota_service.py:133-150 | every matching policy is enforced if and only if no two of them share a (metric, period) |
| QuotaPolicies.AllModelsPolicyCanBeShadowed | app/services/quota_service.py:136 | a per-model and an all-models policy of one caller compete for the slot, so the all-models limit may not be enforced |
| QuotaMeter.Counters.RecordUsage | app/services/quota_service.py:269-289 | the increment loop leaves the counters that the metering function describes |
| QuotaMeter.Counters.AssertWithinQuota | app/services/quota_service.py:152-198 | passes exactly when the caller is anonymous or every effective policy's counter is below its limit, and otherwise names the first policy at or over its limit, and its counter |
| QuotaMeter.LimitsDisagreeIff | app/schemas/quota.py:23 | the check and the limit as documented disagree exactly for a cost whose limit, in cents, is reached and whose stored number, read as dollars, is not |
| QuotaMeter.ACostLimitIsNotEnforced | app/services/quota_service.py:176-278 | with a documented limit of 100 cents and 50 dollars recorded, the check still passes |
| QuotaMeter.SameKeyIff | app/services/quota_service.py:171-172 | two reads touch the same counter exactly when policy and bucket are the same |
| QuotaMeter.ReadAfterRecord | app/services/quota_service.py:280-289 | one recorded call adds its delta to its own policies' current counters and changes no other read |
| QuotaMeter.IncrementSetsExpiry | app/services/quota_service.py:284-289 | an increment leaves its key with the bucket's time to live, counted from the call, and every other key as it was |
| QuotaMeter.CountersExpire | app/services/quota_service.py:269-289 | whatever is recorded, no counter is kept for good |
| QuotaMeter.CounterIsBucketSum | app/services/quota_service.py:169-176 | after any calls at non-decreasing times, the counter read for a policy is what they used of its metric in the current bucket: requests, tokens or dollars; none expires early, none leaks |
| QuotaOvershoot.InvStep | app/services/quota_service.py:152-291 | admission, recording, failing, other callers' recording and the passing of time keep the overshoot invariant, rollover included |
| QuotaOvershoot.OvershootBound | app/services/quota_service.py:152-291 | with at most k turns in flight and M a turn, counter + in-flight use stays below L + k·M in every reachable state |
| QuotaOvershoot.WholeOvershootBound | app/services/quota_service.py:152-291 | for REQUESTS and TOKENS, counter + what turns in flight may use never exceeds L - 1 + k·M |
| QuotaOvershoot.RequestOvershootBound | app/services/quota_service.py:152-291 | for REQUESTS, counter + turns in flight never exceed L - 1 + k |
| QuotaOvershoot.OvershootIsReached | app/services/quota_service.py:176-187 | for REQUESTS and TOKENS some run reaches exactly L - 1 + k·M, so the bound is sharp |
| ChatText.MergeContentParts | app/services/chat_service.py:931-935 | the loop computes the merge fold of the pieces |
| ChatText.MergeEndsWithChunk | app/agno_runtime/agui_interface.py:79-111 | a merge keeps the text there was and ends with the chunk |
| ChatText.MergeTwiceIsOnce | app/agno_runtime/agui_interface.py:99-103 | a chunk delivered twice in a row is merged once |
| ChatText.MergeConcatenatesIff | app/agno_runtime/agui_interface.py:89-111 | a merge is plain concatenation exactly when one side is empty, or the text does not end with the chunk already and they meet at white space |
| ChatText.MergeSpacesIff | app/agno_runtime/agui_interface.py:105-111 | a space is inserted exactly when neither side is empty, the text does not end with the chunk already and they do not meet at white space; punctuation does not matter |
| ChatText.EveryPieceIsContained | app/agno_runtime/agui_interface.py:79-111 | the merged text contains every piece as a contiguous block |
| ChatText.EarlierTextIsPrefix | app/services/chat_service.py:931-935 | what was merged earlier is a prefix of what is saved |
| RunLog.Session.Commit | app/db/session.py:28-39 | pending state becomes the committed one and enters the history of commits |
| RunLog.Session.Rollback | app/db/session.py:34-36 | pending state returns to the committed one |
| TokenMetrics.SumRaisesIff | app/services/chat_service.py:133-137 | summing a metric list skips None and raises exactly on what is no number |
| TokenMetrics.SumGrowsByCount | app/services/chat_service.py:133-137 | a metric list sums to the total of its counts |
| TokenMetrics.FirstReadableKeyCounts | app/services/chat_service.py:124-144 | the first key whose value can be read decides, unreadable ones are passed over, and nothing readable counts as 0 |
| TokenMetrics.UsageKeys | app/services/chat_service.py:147-185 | input tokens are read from input_tokens or else prompt_tokens, output tokens from output_tokens or else completion_tokens |
| ChatTurn.RecordUsageRow | app/services/quota_service.py:235-267 | commits its own usage row, or rolls back and leaves the committed turn untouched |
| ChatTurn.HandleCancellation | app/services/chat_service.py:537-573 | saves the merged partial text if there is any, marks the run cancelled and commits both together |
| ChatTurn.ConsumeStream | app/services/chat_service.py:623-656 | polls the flag before each event, logs and commits each event with the payload the engine gave it, and collects the pieces and tokens of the events consumed, which `ChatDurability.OneMorePiece` and `OneMoreUsage` describe by kind of event |
| ChatTurn.FinishTurn | app/services/chat_service.py:657-689 | failure, or message, completion and usage, with the commits in that order |
| ChatTurn.HandleChatStream | app/services/chat_service.py:593-696 | the commits of a turn are exactly the history below, the engine's own error event before a failure included, and the yielded events exactly its stream markers |
| ChatDurability.EveryCommitIsConsistent | app/services/chat_service.py:601-676 | in every committed state a terminal status is present exactly when the last event is the one that closes this row, no earlier event is, the log alone shows it too, and a completed run has one assistant message equal to its output |
| ChatDurability.LastEventMisleadsIff | app/agno_runtime/engine.py:786-789 | the last event alone looks closing in a run that is not over in exactly one commit of every failing turn, that of the engine's own error event; the whole log never misleads |
| ChatDurability.StatusPath | app/services/chat_service.py:593-676 | pending, then running, then exactly one of completed, failed, cancelled, for ever |
| ChatDurability.HistoryIsDisciplined | app/services/run_service.py:43-71 | commits only extend the event log, and nothing is logged or changed in status after a terminal status |
| ChatDurability.OnlyCancellationAfterTheFlag | app/services/chat_service.py:624-627 | once the flag is seen, `run_cancelled` is the only event still logged and no usage is recorded |
| ChatDurability.SavedTextHoldsEveryPiece | app/services/chat_service.py:668-675 | the saved answer is the merge of exactly the pieces consumed, which are the assistant's by `OneMorePiece`, and contains each of them as a block |
| ChatDurability.OneMorePiece | app/services/chat_service.py:633-635 | one more event adds its content to the pieces if it is an event of Agno's, assistant content and not empty, and nothing otherwise |
| ChatDurability.ToolsDoNotTouchTheAnswer | app/services/chat_service.py:633-676 | a completed turn saves the answer and the run output it would have saved had the engine streamed the assistant's events alone |
| ChatDurability.EndOfTurn | app/services/chat_service.py:625-676 | a turn is cancelled if a poll saw the flag, else failed with the engine's error if it raised, else completed; the merged text is output and answer, a failed turn keeps neither |
| ChatDurability.WhatTheClientSees | app/services/chat_service.py:606-696 | the started event, every consumed event under its own name, and one closing event that fits the run's status |
| ChatDurability.LoggedEvent | app/services/chat_service.py:629-631 | the log holds every streamed event in its place, with the keys of its kind |
| ChatDurability.UnknownEventType | app/services/chat_service.py:938-950 | an event of the enum keeps its type; an unknown one counts as a tool call if its name holds "tool", as an error only if it holds "error", else as a response |
| ChatDurability.OneMoreUsage | app/services/chat_service.py:637-639 | only the metrics that follow a finished run add tokens to the usage row |
| ChatDurability.UsageIsSeparate | app/services/quota_service.py:238-267 | usage with the summed tokens is committed exactly for completed runs of known users whose insert succeeds, and losing the insert loses nothing else |
| RunTail.SendUnseen | app/api/v1/runs.py:109-125 | one poll sends what is not in `seen_ids`, in log order |
| RunTail.StreamRunEvents | app/api/v1/runs.py:101-131 | the poll loop sends what the tail function describes |
| RunTail.TailEndsIff | app/api/v1/runs.py:104-129 | the stream ends with the first poll that finds the run gone, or completed, failed or cancelled |
| RunTail.SentIsTheLogRead | app/api/v1/runs.py:103-125 | after every poll the tail has sent exactly the log that poll read: every event once, in order |
| RunTail.NeverClosesEarlyIff | app/api/v1/runs.py:127-129 | nothing is missing at `stream_closed` if and only if no event is committed after a terminal status |
| RunTail.TailOfAChatTurn | app/api/v1/runs.py:101-131 | tailing any chat turn sends a prefix of its final log at every moment, all of it when the stream closes, and reports its final status |
| RunTail.EventsBeforeStatusLosesTheLast | app/api/v1/runs.py:104-109 | with the two reads of a poll in the other order the stream can close one event short |
| WorkflowRuns.AuditSession.CreateRun | app/services/workflow_run_service.py:37-53 | a pending run row, then the WorkflowStarted event |
| WorkflowRuns.AuditSession.MarkCompleted | app/services/workflow_run_service.py:61-67 | status and result, then the completion event |
| WorkflowRuns.AuditSession.MarkFailed | app/services/workflow_run_service.py:69-75 | status and error, then the failure event |
| WorkflowRuns.AuditSession.StartStep | app/services/workflow_run_service.py:77-91 | a RUNNING row with the step's input, then its started event |
| WorkflowRuns.AuditSession.CompleteStep | app/services/workflow_run_service.py:93-103 | completes that row, then logs its completed event |
| WorkflowRuns.AuditSession.FailStep | app/services/workflow_run_service.py:105-110 | fails that row and logs nothing |
| WorkflowExecution.WorkflowContext.RecordResult | app/agno_runtime/workflow_context.py:52-53 | stores the output under the step's order and nothing else |
| WorkflowExecution.WorkflowContext.FinalResult | app/services/workflow_execution_service.py:222 | the result stored under the largest key |
| WorkflowExecution.Execute | app/agno_runtime/workflow_executor.py:65-101 | refuses an empty list; otherwise runs the sorted steps, threads outputs through the context, stops at the first failure, and writes exactly the audit moments described |
| WorkflowExecution.CheckStart | app/services/workflow_execution_service.py:80-88 | missing, disabled and empty workflows and sessions of another user are refused in that order |
| WorkflowExecution.RunWorkflow | app/services/workflow_execution_service.py:78-140 | refusals leave nothing; otherwise result and audit moments of a plain run |
| WorkflowExecution.RunRequest | app/db/session.py:28-36 | around a plain run, get_db commits the trail of a completed run and rolls that of a failed one back; the result is the last step's output, or the failure of the step that raised |
| WorkflowExecution.RunWorkflowStream | app/services/workflow_execution_service.py:142-233 | refusals leave nothing; otherwise result, audit moments and commits of a streamed run |
| WorkflowExecution.OneMorePiece | app/agno_runtime/workflow_executor.py:129-147 | a streamed step's output grows by assistant content and by nothing else |
| WorkflowThreading.RunIsPipeline | app/agno_runtime/workflow_executor.py:71-101 | with consecutive orders from 0, a run is the fold of the step functions over the input |
| WorkflowThreading.AnyRowOrderRunsThePipeline | app/repositories/workflow_repository.py:50-63 | whatever order the stored rows come in, the run is the fold over the steps as submitted |
| WorkflowThreading.DefaultIsNeverUsed | app/agno_runtime/workflow_context.py:44-50 | after `replace_steps`, `previous_output` never falls back to its default |
| WorkflowThreading.PipelineIffConsecutive | app/agno_runtime/workflow_context.py:44-50 | for distinct orders, every run is the fold of its steps if and only if the orders are consecutive from where `previous_output` needs them |
| WorkflowThreading.FinalResultIsLastOutput | app/services/workflow_execution_service.py:222 | the result at the largest key is the last step's output |
| WorkflowThreading.TwinsAgree | app/agno_runtime/workflow_executor.py:119-154 | if each step's returned text equals its joined assistant pieces, the streaming and the plain run have the same result |
| WorkflowAudit.EveryMomentIsShaped | app/services/workflow_execution_service.py:111-138 | at every moment, of a plain or a streamed run, the step rows are a completed prefix plus at most one running or failed row, and the log is Started (StepStarted StepCompleted)^j with one of the four endings |
| WorkflowAudit.CompletedRows | app/services/workflow_run_service.py:77-103 | a completed row holds its step's order, the input the step was given and the output it returned |
| WorkflowAudit.EveryRowIsItsStep | app/services/workflow_run_service.py:77-110 | at every moment row i is that of step i: completed with input and output, or the last one, running or failed with its input and error |
| WorkflowAudit.RowsTellTheTruth | app/services/workflow_run_service.py:77-110 | at every moment a completed row's output, and a failed row's error, is what running its step on the row's input gave, and a running row has neither |
| WorkflowAudit.RowsAreThreaded | app/agno_runtime/workflow_executor.py:71-99 | with consecutive orders, the first row's input is the run's and every later one is the output of the row before it |
| WorkflowAudit.CompletedRowsAreFinal | app/services/workflow_run_service.py:93-110 | a completed row is never altered later |
| WorkflowAudit.EveryCommitIsConsistent | app/services/workflow_execution_service.py:164-227 | every state a streamed run commits has rows, events, status and messages that agree with each other |
| WorkflowAudit.EveryStepIsCommitted | app/services/workflow_execution_service.py:183-201 | every step that is reached is committed as running, and every step that returns as completed, before the next one |
| WorkflowAudit.LastCommitSaysHowItEnded | app/services/workflow_execution_service.py:216-227 | the last commit is a completed run with its result after all its steps, or one that failed at the first step that raised |
| WorkflowAudit.TrailIsKeptIff | app/services/workflow_execution_service.py:131-133 | a plain run request leaves the trail of its run in the database if and only if every step succeeds, and nothing if and only if one fails |
| WorkflowAudit.AFailedTrailIsLost | app/services/workflow_execution_service.py:131-133 | a workflow whose only step raises: its trail says FAILED, and nothing of it is kept |
| WorkflowTriggers.TriggerContext.Enter | app/core/workflow_trigger_context.py:34-56 | raises the depth error exactly when the chain has reached 5 or the skill's cap, else the cycle error exactly for a code already triggered in this chain, and otherwise adds the code |
| WorkflowTriggers.TriggerContext.TriggerWorkflow | app/workflowskill/service.py:110-126 | runs the workflow under the guard; depth and visited set are restored on every exit, a RuntimeExecutionError becomes a reply and any other exception escapes |
| WorkflowTriggers.TriggerContext.RunWorkflow | app/services/workflow_execution_service.py:78-140 | missing, disabled and empty workflows and foreign sessions are refused in that order; terminates, whatever the agents trigger |
| WorkflowTriggers.TriggerContext.Execute | app/agno_runtime/workflow_executor.py:68-101 | the sequential steps with their nested triggers, tied to the recursive description |
| WorkflowTriggers.DistinctCodes | app/core/workflow_trigger_context.py:55-56 | the visited set of a duplicate-free chain has as many members as the depth counts |
| TriggerChains.RunsAreGuarded | app/core/workflow_trigger_context.py:44-56 | along every chain the triggered codes are pairwise distinct, at most 5 and at most the cap of the skill that entered the last one, and each prefix of the chain was entered before it |
| TriggerChains.WhatEscapes | app/workflowskill/service.py:110-126 | a refused or failed nested workflow is a reply; only an empty input, a missing workflow and a foreign session raise through the tool, after the guard let the trigger in |
| TriggerChains.WhatTheToolReplies | app/workflowskill/service.py:110-126 | a refusal without any run; the result of the workflow below, or a placeholder for an empty one; its runtime error as a reply |
| TriggerChains.RunIsRefused | app/services/workflow_execution_service.py:80-88 | missing, disabled and empty workflows and foreign sessions are refused in that order, entering nothing, and nothing else is refused |
| TriggerChains.LastAgentDecides | app/agno_runtime/workflow_executor.py:71-101 | a run returns what its last step's agent returned, or fails with the error of the step whose agent failed |
| TriggerChains.EveryAllowedCallEnters | app/workflowskill/service.py:110-119 | no call is skipped: each one that the guard lets in has entered its workflow |
| TriggerChains.EveryCodeHasATool | app/workflowskill/service.py:61-81 | every code in a chain was entered through some tool that allows nesting |
| TriggerChains.NeverReenteredIff | app/core/workflow_trigger_context.py:30-56 | a workflow started from the API, which is not in the visited set, never runs inside itself, on any input, if and only if no tool may trigger it |
| TriggerChains.RunCount | app/core/workflow_trigger_context.py:28-56 | with at most s steps a workflow and c tool calls an agent run, one run triggers at most s·c + (s·c)^2 + ... workflows, one power a level left |
| PlanExecution.BuildPlan | app/planning/service.py:23-69 | one step for each explicit step, in order and numbered from 0, or the single default step |
| PlanExecution.ExecutionEngine.ExecuteStepWithRetry | app/execution/service.py:101-125 | all tries before the last fail; it gives up only after max_retries + 1 of them, or one if max_retries is not positive; attempt_count is the tries made, with RETRYING from the second on |
| PlanExecution.ExecutionEngine.RunPlan | app/execution/service.py:42-99 | refuses a disabled engine and an empty plan without a row; otherwise result, plan row and step rows are those of the fold over the sorted steps |
| PlanExecution.ExecutionEngine.RunPlanRequest | app/api/v1/execution_plans.py:31-48 | the endpoint keeps the rows of a plan exactly when the plan completes; those of a failed plan are rolled back |
| PlanExecution.ExecutionEngine.RunStep | app/execution/service.py:60-92 | one step: its input, its tries, its row's final state |
| PlanProperties.StepTries | app/execution/service.py:104-123 | a step fails if and only if the try at this moment and those of the max_retries moments after it all fail, having made all of them; otherwise it ends with its first success |
| PlanProperties.PlanFailsIff | app/execution/service.py:71-87 | a plan fails if and only if some step that is reached fails at this moment and at the max_retries moments after it |
| PlanProperties.RowsAreShaped | app/execution/service.py:75-97 | rows name their step and target: a COMPLETED prefix; on failure one FAILED row with max_retries + 1 attempts (one if max_retries is not positive), and no later row |
| PlanProperties.FailedPlanNamesItsStep | app/execution/service.py:75-87 | a failed plan carries the order and the error text of its last row's step |
| PlanProperties.RowsOnlyGrow | app/execution/service.py:60-92 | a later step never alters an earlier row |
| PlanProperties.OutputsAreThreaded | app/execution/service.py:59-74 | every step runs on its template or else on the previous row's output, and the last output is the result |
| PlanProperties.AttemptsCountTries | app/execution/service.py:113-116 | attempt_count sums to the tries made, which stay within the sum of the steps' bounds |
| PlanProperties.PlannedOrderIsKept | app/planning/service.py:53-69 | on a planner's steps, in any arrangement, the engine's sort gives the planner's order |
| Rules.EvalNode | app/businessobjects/validator.py:42-70 | returns the first fault of the tree in evaluation order, or the tree's meaning when it has none; `RuleProperties` says form by form what that is |
| RuleProperties.TruthOf | app/businessobjects/validator.py:45-46 | a literal is its value; false are exactly None, False, 0 and the empty text |
| RuleProperties.FieldMeans | app/businessobjects/validator.py:47-50 | an unknown field raises; a text that is an ISO date is read as a date, everything else as it is |
| RuleProperties.ConnectivesMean | app/businessobjects/validator.py:62-67 | over operands that evaluate, `and` is true exactly when all of them are true and `or` exactly when one is |
| RuleProperties.ConnectivesRaise | app/businessobjects/validator.py:66 | the first operand that raises is what the connective raises |
| RuleProperties.NotMeans | app/businessobjects/validator.py:68-69 | `not` is true exactly for an operand that is None, False, 0 or empty, and raises what it raises |
| RuleProperties.ComparisonsMean | app/businessobjects/validator.py:51-61 | a chain whose comparisons all have answers is true exactly when each of them holds between its two operands |
| RuleProperties.FalseComparisonEnds | app/businessobjects/validator.py:59 | a chain with a false comparison is false, even where a later comparison would have no answer |
| RuleProperties.ComparisonsRaise | app/businessobjects/validator.py:54-60 | at the first link that goes wrong: an unsupported operator, then what the operand raises, then TypeError |
| Rules.EvalChain | app/businessobjects/validator.py:51-61 | the chain's operands are all evaluated, and no comparison is made after a false one |
| Rules.EvalLink | app/businessobjects/validator.py:54-60 | one turn of the comparison loop: operator check, operand, comparison |
| Rules.EvalOperands | app/businessobjects/validator.py:62-67 | every operand of and/or is evaluated, in order, before any is looked at |
| RuleProperties.FaultsAreContained | app/businessobjects/validator.py:42-70 | the faults met are exactly those the tree holds: unsupported nodes and operators, unknown fields, comparisons without an answer |
| RuleProperties.RaisesIff | app/businessobjects/validator.py:42-70 | a rule evaluates exactly when it holds no fault; without a clash it raises RuleEvaluationError exactly when it holds an unsupported part or an unknown field; without those it raises TypeError exactly when a comparison that is made has no answer |
| RuleProperties.TypeErrorIff | app/businessobjects/validator.py:42-70 | whatever a rule holds, it raises TypeError exactly when, read from the left, a comparison without an answer comes before any unsupported part and any unknown field, and RuleEvaluationError exactly when it has a fault otherwise |
| RuleProperties.ChainIsConjunction | app/businessobjects/validator.py:51-61 | a chain equals the conjunction of its adjacent comparisons |
| RuleProperties.OperatorsAgree | app/businessobjects/validator.py:18-25 | the six operators are converses and complements of one another over one order on each kind of value: numbers, days, texts in dictionary order, booleans counting as 0 and 1; None and values of different kinds have no order and are unequal |
| RuleProperties.DateFieldAgainstLiteral | app/businessobjects/validator.py:45-50 | a date field ordered against a text literal always raises TypeError, and never equals one, since only fields are coerced |
| RuleProperties.DeMorgan | app/businessobjects/validator.py:62-69 | not (a and b ...) and (not a or not b ...) agree on values and on exceptions |
| RuleProperties.DependsOnlyOnNames | app/businessobjects/validator.py:47-50 | value and exceptions depend only on the fields the rule names |
| RuleProperties.EvaluateRule | app/businessobjects/validator.py:73-83 | a syntax error is a RuleEvaluationError; otherwise the truth of the tree's value |
| RuleProperties.ValidateRecord | app/businessobjects/validator.py:86-110 | the two loops report missing required fields, then failed and unevaluable rules, in order, and let a TypeError through |
| RuleProperties.ValidIff | app/businessobjects/validator.py:86-110 | validation raises exactly when in some rule such a comparison comes first; the list is empty exactly when every required field is filled and every rule parses, holds no fault and is true |
| RuleProperties.RuleAdds | app/businessobjects/validator.py:99-108 | one more rule adds its message exactly when it is false, the other message exactly when it does not parse or raises RuleEvaluationError, and ends the validation exactly on TypeError |
| RuleProperties.MissingIff | app/businessobjects/validator.py:95-97 | a required field is missing when absent, None or empty; False and 0 are present |
| RuleProperties.ValidationCanRaise | app/businessobjects/validator.py:89-108 | a record with a date field and a rule that orders it against a text: validation raises |
| MemoryStore.PlatformMemoryDb.Clear | app/agno_runtime/memory_db.py:81-87 | deletes this agent's rows that have a source id |
| MemoryStore.PlatformMemoryDb.MemoryExists | app/agno_runtime/memory_db.py:90-98 | true exactly when a row of this agent has the source id |
| MemoryStore.PlatformMemoryDb.ReadMemories | app/agno_runtime/memory_db.py:100-135 | the selected rows as memories in creation order; fails exactly when a selected row holds JSON that is no object |
| MemoryStore.PlatformMemoryDb.UpsertMemory | app/agno_runtime/memory_db.py:137-177 | rewrites the content of existing rows, or inserts one |
| MemoryStore.PlatformMemoryDb.DeleteMemory | app/agno_runtime/memory_db.py:179-187 | deletes this agent's rows with the source id |
| MemoryStore.SelectedRows | app/agno_runtime/memory_db.py:103-119 | a query returns only rows of the agent that have a source id and, if a user is given, that user; without a limit, all of them |
| MemoryStore.SelectionIsSorted | app/agno_runtime/memory_db.py:103-116 | a query is sorted by creation time in the direction asked for, and a limit leaves the first rows of that order |
| MemoryStore.MemoryOfRow | app/agno_runtime/memory_db.py:121-134 | a memory is its row's object, or its text under "memory", with the source id under "memory_id", and the row's user and creation time |
| MemoryStore.UpsertedRows | app/agno_runtime/memory_db.py:137-176 | where the agent has a row under the id, content and update time are replaced and nothing else; otherwise one row is added |
| MemoryStore.RemovedRows | app/agno_runtime/memory_db.py:81-187 | delete removes every row of the agent under the id, clear every row of the agent that has one, and both keep every copy of all others |
| MemoryMap.StatementRefinesMap | app/agno_runtime/memory_db.py:81-187 | one upsert, delete or clear is one update of the map from (agent, source id) to memory, and keeps at most one row a key |
| MemoryMap.RowsRefineMap | app/agno_runtime/memory_db.py:81-187 | over every run of statements by any agents, rows without duplicates stay without duplicates and stay the map the statements describe |
| MemoryMap.OthersAreUntouched | app/agno_runtime/memory_db.py:81-187 | other agents' rows, and rows without a source id, are unchanged and keep their order |
| MemoryMap.OthersKeepTheirRows | app/agno_runtime/memory_db.py:81-187 | a row of another agent, or one without a source id, is there as often after a statement as before |
| MemoryMap.ReadAfterUpsert | app/agno_runtime/memory_db.py:100-177 | a read after an upsert finds the memory under its id exactly when it asks for all users or for the user the id was first stored for |
| UiPlan.UIActionPlanCollector.ProposeUiAction | app/uiaction/service.py:92-108 | an action of known type and valid confidence is appended with its place as order; anything else changes nothing |
| UiPlan.Engine.AggregatePlan | app/agno_runtime/engine.py:410-415 | the stable sort of all collectors' actions |
| UiPlan.Engine.Run | app/agno_runtime/engine.py:725-738 | a run drops earlier collectors, so its plan is made of its own agents' accepted calls alone |
| UiPlan.OneMoreProposal | app/uiaction/service.py:92-108 | a collector's list grows by each accepted proposal, numbered by those before it, and by nothing else |
| UiPlan.RunsPlanIsRoundRobin | app/agno_runtime/engine.py:725-738 | whatever its agents propose, a run's plan takes their first accepted actions, then their second ones, and so on |
| UiPlan.PlanIsRoundRobin | app/agno_runtime/engine.py:410-415 | the plan is a sorted permutation of all collected actions, and exactly this one: every collector's first action in collector order, then every second one, and so on |
| UiPlan.CollectorsKeepTheirOrder | app/agno_runtime/engine.py:410-415 | the plan's actions can be handed back so that each collector gets its own list in its own order |
| Sorting.SortSorts | app/agno_runtime/workflow_executor.py:72 | Python's sort with a key: a sorted permutation |
| Sorting.SortKeepsOrderedParts | app/agno_runtime/engine.py:414 | stability: any part of the list that is in key order already keeps its order |
| Sorting.SortOfPermutation | app/execution/service.py:60 | with distinct keys, sorting any permutation gives the one increasing order |

## Left out

- Scheduler: one schedule is modelled, since locks and rows of different schedules are independent; the limit of 100
  due rows, the polling loop and its sleep are not. Replicas may be arbitrarily slow instead. An administrator's update
  and its commit are one step.
- Ticker.Platform.FireOne: states a call that no other replica or administrator interleaves; interleavings are covered by
  the protocol steps of `Schedule`, to which its parts are tied.
- croniter is an unknown function that answers strictly after its anchor; `timezone` is unused by the code as well.
- WorkflowExecution.Execute: takes callbacks that succeed; a failing callback aborts the run outside the `try`.
- WorkflowExecution.RunWorkflowStream: states result, commits and audit moments, not the items yielded to the client.
- TriggerChains.NeverReenteredIff: takes tools whose workflow goes by its code alone, as within one AgentOS.
- WorkflowTriggers: every lookup and agent run happens at its own moment and may differ from the one before, so agents
  that react to replies are covered by the quantification over worlds; parallel tool calls inside one agent run, which
  copy the context variables, are not. Rows and messages of nested runs are in `WorkflowExecution` only, and building
  the tool list (skipping misconfigured skills) is not modelled.
- ChatTurn: one streaming turn of an agent, from the creation of the run on; the Team branches, `handle_chat`, quota
  admission, session ownership and the cost computation are not modelled. An Agno event is its mapped type, name,
  content, tools and whether it is assistant text; how the engine builds these from Agno's objects is left out. `aclose` and `clear_cancel` succeed, and the cancel
  flag is an arbitrary answer to each poll, which covers its expiry. `stream_runtime_events` is not modelled.
- RunTail: every poll reads committed rows, and `created_at` follows the order of appending; the ORM's identity map,
  which may hand a long-lived session an older status, is not modelled.
- QuotaMeter.CounterIsBucketSum: holds for a fixed policy set in which no two policies share a counter key; the unique
  constraint leaves two all-models policies of one scope possible, because NULL model ids are distinct in it. Counters
  are exact reals, not Redis floats, and Redis does not lose writes.
- QuotaOvershoot.OvershootBound: for one policy that stays effective for its callers while the run lasts.
- Quota buckets of December 9999, where the code raises, are excluded from counter statements;
  `QuotaPeriods.BucketRaisesIff` says which they are.
- PlanExecution: the one-second wait between tries and the conversion of `max_retries` from text are not modelled.
- Rules: values are None, booleans, exact numbers, texts and dates; lists, dictionaries, bytes and NaN are not. Parsing
  rule text and ISO dates are parameters. Record and rule are well-typed dictionaries.
- MemoryStore.PlatformMemoryDb.ReadMemories: gives rows created at the same instant in row order, where the database
  may return either order first; memory dictionaries have text values and survive JSON.
- UiPlan: the action-type table is a parameter, and the fields of an action other than its order carry no meaning.
- `trigger_schedule_now`, generic CRUD, prompt composition, capability intersection, MCP, JWT, OCR and object storage:
  no step machine of their own, or foreign libraries.
