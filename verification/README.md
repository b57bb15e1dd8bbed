# IAra runtime: a verified model

IAra receives Chatwoot events, runs an LLM agent graph on them and delivers what comes out
through database tables and background workers. This project models the parts of it whose
correctness depends on more than one function: leases taken by many workers, the outbox with
its drainer and the follow-up scheduler, the agent graph, and a few algorithmic cores. Every
main result is a statement over all inputs, all runs or all interleavings.

| files | what they model |
|---|---|
| `LeaseTable`, `LeaseProtocol` | conversation leases: SQL statements, the repository, and any number of jobs interleaving them with stale clock readings |
| `DeliveryTables`, `DrainerProtocol`, `Delivery`, `DeliveryResults`, `DeliveryMarks` | outbox and follow-up queue as one step system with failing commits and crashes between any two transactions |
| `OutboxDrainer`, `FollowUpScheduler`, `McpRetry`, `Keys`, `Sorting` | the repositories and workers as objects, the drain measure, the POST retry loop, idempotency keys, ordered selection |
| `AgentGraph`, `AgentTranscript`, `AgentEffects`, `AgentRuns` | graph nodes, routing and tool gateway; termination, transcript, output and writes of every run, and what each path comes to |
| `Conversation`, `GraphDelivery` | consecutive jobs of one conversation; runs of the graph on top of the delivery pipeline |
| `Markers`, `Redaction`, `Slots`, `QuietHours` | marker stripping, redaction, free-slot search, quiet hours |
| `TenantCache`, `Publishing` | the TTL tenant cache and the publish/rollback register |

Workers, repositories, the cache and the publishing service are classes; loops of the source
are loops; each method is tied to a function whose properties are then proved. A run of a
step system is any sequence of steps, where a step that is not enabled does nothing; a crash
is a job that never moves again, or a crash step.

Assumptions: uuid4 tokens and ids are fresh and hashes injective; run ids hold no colon;
there is one monotone clock; a transaction is atomic and a failed commit has no effect; there
is one drainer and one scheduler (their fetches take no locks); the database is up. The LLM,
the provider's answers, the tool registry, policy and handlers are arbitrary. Regular
expressions, the similarity ratio, the blocklist, case folding and the white-space test are
parameters.

What the code does where one might expect otherwise; the model follows the code:

- A released lease row that has not expired still blocks a new worker's upsert
  (`LeaseProtocol.UpsertSucceedsExactly`).
- With a fixed worker id the refresh branch can evict a live lease of another worker
  (`LeaseProtocol.StaleRefreshEvicts`). The consumer draws a new id per acquire, and exactly
  then it cannot happen (`LeaseProtocol.ExclusiveExactly`).
- Outbox keys of follow-ups contain the attempt number, so an item is delivered at most once
  exactly if its limit is one, or negative (`DeliveryResults.AtMostOnceExactly`). A limit of 0
  is read as 3; an item with a negative limit is skipped.
- A `mark_sent` commit that fails is handled as an adapter failure: the command is retried or
  dead-lettered although it was delivered (`DeliveryMarks.DeadLetteredThoughDelivered`), and
  exactly so (`DeliveryMarks.SentMeansDelivered`).
- A row is turned into a command before its adapter is looked up, so a row that cannot be is
  retried and dead-lettered even if its provider has no adapter.
- A dispatch error routes to `end`, which the builder does not map, so the run ends in an
  exception (`AgentGraph.UnmappedExactly`).
- A job does not reset `step_count`, `error`, `hitl_requested` or `response_sent`, so graph
  results are stated for any carried-in state. Over all its jobs a conversation gets at most
  one answer and four agent LLM calls (`Conversation.OneAnswerPerConversation`,
  `Conversation.CallsPerConversation`).
- A follow-up whose insert fails is still reported to the LLM as scheduled
  (`AgentEffects.ResultTellsWrites`).
- Call ids that are empty get no tool message; the transcript is well-formed exactly if there
  are none (`AgentTranscript.TranscriptExact`).
- `invalidate` does not reach a resolve that has already read the old record
  (`TenantCache.InvalidateExactly`).
- The entry `pinData` of the sensitive names matches no field, because names are lowered first
  (`Redaction.PinDataNeverMatches`).

## Model

| member | source | states |
|---|---|---|
| LeaseTable.LeaseRepository.Acquire | src/iara/persistence/repositories/leases.py:43-117 | succeeds exactly on no row, an expired row or the worker's own live lease; the token is then current until now + ttl, and a conflict changes nothing |
| LeaseTable.LeaseRepository.ReleaseLease | src/iara/persistence/repositories/leases.py:119-139 | only the current token releases, and it never validates afterwards at any time; other conversations keep their validity |
| LeaseTable.LeaseRepository.Validate | src/iara/persistence/repositories/leases.py:141-163 | a yes holds for the token at every earlier time and for no other token at any time; a no holds at every later time, as the table stands |
| LeaseProtocol.ExecKeepsInv | src/iara/persistence/repositories/leases.py:56-139 | in every run each row belongs to a granted job of that conversation with its token and expiry, and tokens are distinct |
| LeaseProtocol.FencedForever | src/iara/persistence/repositories/leases.py:60-163 | a granted token that was superseded, released or expired never validates again, in any continuation and with any worker ids |
| LeaseProtocol.AtMostOneValid | src/iara/persistence/repositories/leases.py:141-163 | per conversation at most one token validates, and it was granted to a job of that conversation |
| LeaseProtocol.LiveTokenEndsOnlyBy | src/iara/persistence/repositories/leases.py:60-139 | a live token stops validating exactly by expiry, its own release or a refresh write; never by another worker's upsert |
| LeaseProtocol.UpsertSucceedsExactly | src/iara/persistence/repositories/leases.py:86-117 | in every run the upsert step takes the lease exactly if there is no row or the row had expired at the possibly stale reading; it ends no valid token and its own is then the only one; otherwise every token stays as valid as it was |
| LeaseProtocol.ReleaseEndsOwnTokenOnly | src/iara/persistence/repositories/leases.py:130-139 | in every run a release ends the validity of its own token and of no other, and changes no row if that token is not current |
| LeaseProtocol.StaleRefreshEvicts | src/iara/persistence/repositories/leases.py:76-84 | with fixed worker ids and any lease duration, an interleaving in which a stale refresh ends another worker's live lease |
| LeaseProtocol.UninterruptedAcquire | src/iara/persistence/repositories/leases.py:56-117 | begin, read and write without interference act as Acquire does |
| LeaseProtocol.ExecKeepsFreshInv | src/iara/workers/job_consumer.py:175-188 | with a fresh worker id per acquire: no job ever refreshes, rows match their jobs, windows of granted jobs stay apart |
| LeaseProtocol.ValidExactly | src/iara/workers/job_consumer.py:175-257 | a token validates if and only if its job is running on that conversation before its expiry |
| LeaseProtocol.ExclusiveExactly | src/iara/workers/job_consumer.py:175-188 | in every run each unexpired running job whose worker has no other job holds a valid token, if and only if worker ids are fresh or leases last no time |
| LeaseProtocol.LeaseWindowsDisjoint | src/iara/persistence/repositories/leases.py:56-117 | lease windows of two granted jobs of one conversation never meet |
| LeaseProtocol.TimelyRunsNeverOverlap | src/iara/workers/job_consumer.py:247-257 | graph runs that finish by their lease's expiry never overlap |
| Keys.DecimalExactly | src/iara/workers/follow_up_scheduler.py:161 | a counter is rendered by digits that stand for it, without leading zero |
| Keys.AttemptKeyInjective | src/iara/workers/follow_up_scheduler.py:161 | key and attempt number determine the outbox key and are determined by it |
| Keys.ToolKeyInjective | src/iara/graph/nodes/tool_executor.py:77 | tool keys differ unless run and call id are the same |
| Keys.ToolKeyIsNoResponseKey | src/iara/graph/nodes/command_dispatch.py:68 | a tool key is never a response key, unless the run is called "response" |
| McpRetry.PostWithRetry | src/iara/provider/chatwoot/mcp_adapter.py:413-472 | between one and max(1, limit) POSTs, retrying transient answers only; succeeds exactly if the last answer is a success; the exact time slept |
| McpRetry.TotalWaitIs | src/iara/provider/chatwoot/mcp_adapter.py:418 | n transient answers sleep 2^n - 1 seconds up to five of them, and 30 more for each after that |
| McpRetry.EffectiveRetries | src/iara/provider/chatwoot/mcp_adapter.py:122 | the configured limit, or 1 if that is less |
| DeliveryTables.UpdateOne | src/iara/persistence/repositories/outbox.py:117-128 | an update by command id changes one row, as long as ids are unique |
| DrainerProtocol.DStepKeepsPipe | src/iara/workers/outbox_drainer.py:103-253 | every drainer step, lost commit and crash keeps the accounting of each row and the drainer's notes on its batch |
| DrainerProtocol.DStepFrame | src/iara/persistence/repositories/outbox.py:117-213 | no drainer step touches a row that is sent or dead-lettered, although no update tests the status |
| DrainerProtocol.CallExactly | src/iara/provider/chatwoot/mcp_adapter.py:153-223 | a call delivers exactly if it was allowed and one of its POSTs within the limit succeeds after nothing but retryable statuses and network errors; and exactly how many POSTs it makes |
| DrainerProtocol.ExecutionIsLogged | src/iara/workers/outbox_drainer.py:196-207 | an execution is recorded with its very call, time and retry count, and the record tells its outcome and POSTs truly |
| DrainerProtocol.DStepKeepsMarks | src/iara/workers/outbox_drainer.py:203-253 | every drainer step, lost commit and crash keeps the account of each row's deliveries: marked sent, unmarked for good, or still to be marked |
| DrainerProtocol.BackoffSpan | src/iara/workers/outbox_drainer.py:223-253 | n executions without a lost commit span at least 30·(2^(n-1) - 1) seconds |
| DrainerProtocol.RowPosts | src/iara/workers/outbox_drainer.py:153-253 | executions of a command are at most max_retries plus its lost commits, POSTs that times the adapter's limit |
| Delivery.StepKeepsInv | src/iara/workers/follow_up_scheduler.py:99-203 | every step of scheduler, drainer or environment keeps the invariant of both tables |
| Delivery.ExecKeepsInv | src/iara/workers/follow_up_scheduler.py:80-203 | it holds in every run |
| DeliveryResults.FollowUpSafety | src/iara/workers/follow_up_scheduler.py:120-203 | in every run an item is attempted at most max_attempts times (3 for 0, never if negative), fails only there, is skipped only there or opted out; its rows have distinct keys and are at most its attempts; a sent item has the row of its last attempt |
| DeliveryResults.TerminalIsAbsorbing | src/iara/persistence/repositories/outbox.py:104-128 | sent and dead-lettered rows, and sent, skipped and failed items, stay as they are in every continuation |
| DeliveryResults.OutboxAccounting | src/iara/workers/outbox_drainer.py:144-253 | in every run: executions ≤ max_retries + lost commits, stored retry_count < max_retries or 0 |
| DeliveryResults.BackoffRespected | src/iara/persistence/repositories/outbox.py:175-198 | in every run: executions separated by a committed failure at count r are 30·2^r seconds apart or more |
| DeliveryMarks.SentMeansDelivered | src/iara/workers/outbox_drainer.py:203-253 | in every run the last call of a sent row landed, by the provider's own answers; every record of an execution is true; deliveries are those marked, unmarked or still held; a row at rest is delivered and not sent if and only if a mark_sent commit failed or was lost for it |
| DeliveryMarks.DeadLetteredThoughDelivered | src/iara/workers/outbox_drainer.py:209-253 | whatever the retry limit, a run that dead-letters a command its adapter delivered |
| DeliveryMarks.DeliveredIsSentExactly | src/iara/workers/outbox_drainer.py:203-253 | delivered implies sent in every run if and only if nothing can be delivered at all |
| DeliveryResults.OptedOutGainsNoRow | src/iara/persistence/repositories/follow_up.py:174-200 | an item opted out before a fetch gains no outbox row in any continuation |
| DeliveryResults.OptOutIsRespected | src/iara/workers/follow_up_scheduler.py:118-127 | after mark_opted_out between two batches no pending item of the conversation gains a row, ever |
| DeliveryResults.EndToEndMultiplicity | src/iara/workers/follow_up_scheduler.py:129-203 | one item causes at most (A·M + lost commits)·R write POSTs, A·M·R if none is lost, wherever the scheduler crashes; A is max_attempts, 3 for 0, 0 if negative |
| DeliveryResults.TwoRowsForOneItem | src/iara/workers/follow_up_scheduler.py:161 | two crashes give one item two rows whenever max_attempts is 0 or at least 2 |
| DeliveryResults.AtMostOnceExactly | src/iara/workers/follow_up_scheduler.py:131 | every run gives every item with max_attempts m at most one row if and only if m is 1 or negative |
| OutboxDrainer.OutboxRepository.EnqueueCommand | src/iara/persistence/repositories/outbox.py:35-65 | a new key adds one pending row, a known key changes nothing; keys stay unique |
| OutboxDrainer.OutboxRepository.FetchPendingAll | src/iara/persistence/repositories/outbox.py:91-115 | due pending rows by scheduled time up to the limit; none left out is earlier than one returned |
| OutboxDrainer.OutboxRepository.MarkCommandSent | src/iara/persistence/repositories/outbox.py:117-128 | no fetch at any later time returns the command; other commands are untouched |
| OutboxDrainer.OutboxRepository.MarkCommandFailedForRetry | src/iara/persistence/repositories/outbox.py:175-199 | fetches return the command exactly from now + delay on, with one retry more; other commands are untouched |
| OutboxDrainer.OutboxRepository.MarkCommandDead | src/iara/persistence/repositories/outbox.py:201-213 | no fetch at any later time returns the command; other commands are untouched |
| OutboxDrainer.ProcessOneExactly | src/iara/workers/outbox_drainer.py:126-253 | a fetched row is dead if out of retries, untouched without an adapter, sent exactly if its call landed and that committed, and otherwise dead at the last retry or due again exactly 30·2^retry after the failure; which exception escapes, what is recorded, and that no other row changes |
| OutboxDrainer.OutboxDrainerWorker.ProcessCommand | src/iara/workers/outbox_drainer.py:126-253 | the same of the method, for any building failure, adapter answers, duration and failing commits |
| OutboxDrainer.OutboxDrainerWorker.DrainBatch | src/iara/workers/outbox_drainer.py:103-124 | one poll with any outcomes keeps the invariant, adds no work and touches only fetched rows; if its commits succeed it raises nothing, moves exactly the served rows and lowers the work by their number |
| OutboxDrainer.ProcessOneIsARun | src/iara/workers/outbox_drainer.py:126-253 | processing a command, whatever fails in it, is a run of the drainer's timed steps |
| OutboxDrainer.PassLowersWork | src/iara/workers/outbox_drainer.py:103-253 | a pass never adds to the sum of (max_retries − retry_count + 1) over pending rows; with committing transactions it lowers it by the rows fetched, and leaves a fetched row unchanged exactly if it can be built, has retries left and its provider has no adapter |
| OutboxDrainer.FetchesAreBounded | src/iara/workers/outbox_drainer.py:73-124 | whenever polls come and whatever fails, the rows fetched by faultless polls are in all at most the work there was |
| OutboxDrainer.DrainsDry | src/iara/workers/outbox_drainer.py:73-124 | as many faultless polls that find something due as there is work, among any other polls, bring every row to a terminal status |
| FollowUpScheduler.FollowUpRepository.EnqueueRaw | src/iara/persistence/repositories/follow_up.py:34-75 | a new key appends the item, a known one changes nothing |
| FollowUpScheduler.FollowUpRepository.FetchDue | src/iara/persistence/repositories/follow_up.py:77-101 | due pending items by trigger time up to the limit; none left out is earlier than one returned |
| FollowUpScheduler.FollowUpRepository.Increment | src/iara/persistence/repositories/follow_up.py:152-172 | one attempt more of that item and of no other, returned; 0 for a missing item; when each item is due stays |
| FollowUpScheduler.FollowUpRepository.Mark | src/iara/persistence/repositories/follow_up.py:103-150 | no fetch at any later time returns the item; its counts and all other items stay |
| FollowUpScheduler.FollowUpRepository.MarkOptedOut | src/iara/persistence/repositories/follow_up.py:174-200 | every pending item of the conversation is opted out and counted, no other item changes, none becomes or ceases to be due |
| FollowUpScheduler.PromoteExactly | src/iara/workers/follow_up_scheduler.py:99-203 | for any failing commits: skipped if opted out or at the limit; otherwise one attempt more, one pending row under key:attempt:n unless there, then sent, failed exactly at the limit, or left pending; which exception escapes |
| FollowUpScheduler.FollowUpSchedulerWorker.PromoteItem | src/iara/workers/follow_up_scheduler.py:99-203 | the same of the method; the tables end as the scheduler's steps leave them |
| FollowUpScheduler.FollowUpSchedulerWorker.ProcessBatch | src/iara/workers/follow_up_scheduler.py:80-98 | one poll fetches due items and keeps the invariant whatever commits fail; if none does, each fetched item is skipped or sent with its row and no other is touched |
| FollowUpScheduler.PromoteAllDelivers | src/iara/workers/follow_up_scheduler.py:120-203 | a fault-free batch skips or sends each fetched item, one attempt and one row each, and touches no other item |
| AgentGraph.ToolExecutorLoop | src/iara/graph/nodes/tool_executor.py:64-105 | one result per call, in order, and the writes of each call in turn |
| AgentGraph.LoopCheck | src/iara/graph/nodes/guardrails.py:175-198 | true exactly if one of the last three responses is similar |
| AgentGraph.VisitCounts | src/iara/graph/edges.py:12-127 | each node adds exactly one to step_count and lowers the bound on visits left |
| AgentGraph.LlmCallsBounded | src/iara/graph/nodes/agent.py:118-132 | the LLM calls of a run from any node and step count are bounded by what the guard leaves |
| AgentGraph.RunTerminates | src/iara/graph/builder.py:112-160 | every run ends, at END or by a failing dispatch; at most max(0, ⌊(8−s)/2⌋) LLM calls from step count s, at most 15 visits from 0 |
| AgentGraph.UnmappedExactly | src/iara/graph/edges.py:111-127 | a run leaves the graph by the unmapped route if and only if its dispatch node had a response to send and the insert failed; every other run ends at END |
| AgentGraph.InvokeKeepsCall | src/iara/tools/gateway.py:60-159 | each return of gateway and executor, and each exception, gives a result for the call that was made |
| AgentEffects.InvokeExactly | src/iara/tools/gateway.py:60-159 | the status of a call, and the row or item it writes with every field, in terms of what it meets: nothing is written for an unregistered, inactive or disapproved tool |
| AgentRuns.EarlyEnds | src/iara/graph/edges.py:12-46 | a rejected message, an admin command and a carried-in error end the run after one or two nodes with nothing written |
| AgentRuns.EndsAtAgent | src/iara/graph/edges.py:62-78 | an LLM that raises, or a human called earlier, ends the run at the agent with nothing written |
| AgentRuns.AnswersAtOnce | src/iara/graph/builder.py:112-160 | a message answered at once passes exactly seven nodes and leaves one response row with the text guardrails let through |
| AgentRuns.EscalatesAndEnds | src/iara/graph/nodes/guardrails.py:121-153 | a text that repeats or hedges ends in two more nodes at a human, with nothing written |
| AgentRuns.UnmappedRun | src/iara/graph/builder.py:155-159 | a run whose answer passes guardrails while the insert fails breaks at its sixth node |
| AgentRuns.RelentlessRun | src/iara/graph/nodes/agent.py:118-132 | the bounds are attained: an LLM that only calls tools is asked exactly four times, and the run gives up after exactly fifteen nodes |
| AgentGraph.RunGraph | src/iara/graph/builder.py:112-160 | the invocation loop reaches the final configuration of the run within the bound |
| AgentTranscript.ReplyTags | src/iara/graph/nodes/tool_executor.py:113-133 | whatever the gateway does, the tool messages are exactly the non-empty call ids, in order |
| AgentTranscript.FlattenWellFormed | src/iara/graph/nodes/agent.py:168-226 | completed rounds form a well-formed transcript exactly if all call ids are non-empty |
| AgentTranscript.TranscriptExact | src/iara/graph/nodes/agent.py:168-226 | at every agent entry of every run the appended messages are well-formed if and only if the LLM named every call |
| AgentEffects.ResultTellsWrites | src/iara/tools/executor.py:73-246 | a result other than success wrote nothing, and exactly which table holds what after a success |
| AgentEffects.RestartedTools | src/iara/graph/nodes/tool_executor.py:68-80 | an executor stopped after j calls and started again leaves what one execution leaves that met the first outcomes up to j and the later ones after |
| AgentEffects.ReplaySafety | src/iara/graph/nodes/command_dispatch.py:53-69 | executing a node any number of times more leaves both tables as after the first execution |
| AgentEffects.ReplayExactly | src/iara/persistence/repositories/outbox.py:46-65 | one more execution is invisible in every store if and only if it attempts no write the first did not make |
| AgentEffects.GuardedOutput | src/iara/graph/nodes/guardrails.py:96-172 | every response row of every run is the fixed refusal or marker-free, off the blocklist, not looping and not hedging; never with a human requested, nor in a run handed a sent response, an error or a call for a human |
| AgentEffects.HumanMeansSilence | src/iara/graph/edges.py:95-108 | a run that requests a human at any point enqueues no response |
| AgentEffects.GuardrailsExactly | src/iara/graph/nodes/guardrails.py:77-161 | what becomes of a response, by its stripped text: unchanged if empty, the refusal if blocked, the escalation and a human if it repeats one of the last three or hedges, itself otherwise; and what is remembered |
| AgentEffects.ResponseExactly | src/iara/graph/nodes/command_dispatch.py:36-69 | from guardrails on, exactly when a response is enqueued and with which text, key, tenant, provider, status and time; otherwise the outbox is untouched |
| AgentEffects.WritesPerRun | src/iara/tools/executor.py:73-246 | a run adds at most one response row and one row or item per table and tool call id the LLM used, changes no old row, and keeps keys unique |
| Conversation.CallsPerConversation | src/iara/workers/job_consumer.py:213-231 | all jobs of a conversation together make at most max(0, ⌊(8−s)/2⌋) LLM calls from step count s, four from 0 |
| Conversation.OneAnswerPerConversation | src/iara/workers/job_consumer.py:213-231 | all jobs of a conversation together enqueue at most one response, none if one was sent before |
| Conversation.FirstAnswerIsLast | src/iara/workers/job_consumer.py:213-231 | the first message answered at once is the only one ever answered in its conversation |
| Conversation.FirstJobUsesAllCalls | src/iara/workers/job_consumer.py:213-231 | a first job whose LLM only calls tools makes four calls, and no later job makes any |
| GraphDelivery.JointVisits | src/iara/persistence/services/outbox_service.py:32-114 | a visit does to state and tables what the node does, and leaves clock and workers |
| GraphDelivery.JointIsDelivery | src/iara/persistence/services/outbox_service.py:32-114 | whatever a run writes between the workers' steps, the tables are ones the pipeline reaches by its own steps |
| GraphDelivery.PostsPerKey | src/iara/provider/chatwoot/mcp_adapter.py:413-472 | one run's response, and each tool call, causes at most (M + lost commits)·R write POSTs, however nodes and workers interleave |
| Markers.StripInternalMarkers | src/iara/graph/nodes/guardrails.py:164-172 | the loop computes the specified stripping |
| Markers.StripEachIsOnePass | src/iara/graph/nodes/guardrails.py:164-172 | filtering marker after marker equals one pass that keeps the lines with none |
| Markers.SplitLines | src/iara/graph/nodes/guardrails.py:168-170 | splitting gives newline-free lines that join to the text again |
| Markers.StrippingIsSound | src/iara/graph/nodes/guardrails.py:25-32 | the result is the join of exactly the lines in which none of the six markers appears in any casing, in order, without the white space at its ends; it shows no marker, and stripping is idempotent |
| Slots.FindNextFreeStart | src/iara/provider/scheduling/google_calendar.py:246-278 | the sweep returns the least free start at or after the range start, for any periods |
| Slots.CountFreeSlots | src/iara/provider/scheduling/google_calendar.py:210-243 | the count is the number of free grid slots |
| Slots.PositiveCountFits | src/iara/provider/scheduling/google_calendar.py:234-278 | if the count is positive the earliest start fits the range; it precedes every free grid slot |
| Slots.FittingStartCounts | src/iara/provider/scheduling/google_calendar.py:234-278 | every range the earliest start fits has a free grid slot if and only if that start lies on the grid |
| Slots.OffGridStart | src/iara/provider/scheduling/google_calendar.py:234-278 | an off-grid start that fits although no grid slot is free |
| Slots.BusierIsNoBetter | src/iara/provider/scheduling/google_calendar.py:234-278 | another busy period never raises the count nor moves the start earlier |
| QuietHours.NextNonQuietIsEarliest | src/iara/tools/catalog/followup.py:26-42 | the adjusted time is the earliest non-quiet instant from the given one, at most ten hours on |
| QuietHours.NextNonQuietIsMonotone | src/iara/tools/catalog/followup.py:34-42 | adjusting is idempotent and never reorders triggers |
| QuietHours.QuietExactly | src/iara/tools/catalog/followup.py:26-31 | quiet is exactly from 22:00 to 08:00 |
| QuietHours.TriggerIsAwake | src/iara/tools/catalog/followup.py:94-176 | the trigger is the first instant outside quiet hours from the explicit time, an hour from now if unreadable, or the non-negative delay from now |
| Redaction.RedactString | src/iara/security/redaction.py:142-156 | the loop applies every substitution; the result matches no pattern if substitutions settle |
| Redaction.RedactDictLoop | src/iara/security/redaction.py:159-187 | the loop computes the recursive specification |
| Redaction.RedactListLoop | src/iara/security/redaction.py:190-210 | the loop computes the recursive specification |
| Redaction.DictIsClean | src/iara/security/redaction.py:159-210 | the placeholder stands under every sensitive field and no string leaf matches a pattern, at any depth |
| Redaction.DictMirrors | src/iara/security/redaction.py:159-210 | keys and list lengths are those of the input down to the cut below depth ten; a string leaf is untouched, or run through all substitutions exactly if a pattern matches |
| Redaction.DictTwice | src/iara/security/redaction.py:159-210 | redacting again changes nothing |
| Redaction.PinDataNeverMatches | src/iara/security/redaction.py:41-112 | the entry pinData recognises no field; the set without it is equivalent |
| Redaction.CutMarkerIsNotSensitive | src/iara/security/redaction.py:102-112 | the key that marks a cut is not itself recognised as sensitive |
| TenantCache.TenantResolver.Lookup | src/iara/tenancy/resolver.py:121-134 | serves exactly entries younger than the TTL with a usable status; fails closed on blank keys and unusable entries |
| TenantCache.BuildExactly | src/iara/tenancy/resolver.py:136-164 | a record resolves exactly if it has id and account and its status is absent, active or sandbox; the context is that record's column by column; which failure otherwise |
| TenantCache.TenantResolver.Complete | src/iara/tenancy/resolver.py:136-164 | the same; caches exactly the resolved contexts, under the time the resolve began, and a failure leaves the cache |
| TenantCache.TenantResolver.Invalidate | src/iara/tenancy/resolver.py:167-173 | the next lookup of the key misses at any time, lookups of other keys see no difference |
| TenantCache.HitsAreRecent | src/iara/tenancy/resolver.py:121-173 | under every interleaving a hit is the context of a record the table held less than the TTL before the resolve began, with an absent, active or sandbox status |
| TenantCache.ServedForTtl | src/iara/tenancy/resolver.py:127-134 | an entry is served unchanged exactly until it is the TTL old, unless invalidated or replaced |
| TenantCache.MissesAreCurrent | src/iara/tenancy/resolver.py:136-164 | a context built on a miss is that of a record the table held after its resolve began, with such a status |
| TenantCache.InvalidateExactly | src/iara/tenancy/resolver.py:167-173 | invalidation forces fresh data in every continuation if and only if no resolve in flight holds a servable record that builds differently |
| TenantCache.InvalidateRace | src/iara/tenancy/resolver.py:136-173 | a concrete interleaving that brings the old record back |
| Publishing.PublishService.CreateDraft | src/iara/config_publishing/publisher.py:126-136 | stores the draft and leaves the register |
| Publishing.PublishService.DeactivateAll | src/iara/config_publishing/publisher.py:230-231 | clears every flag and changes no content |
| Publishing.PublishService.Publish | src/iara/config_publishing/publisher.py:223-250 | succeeds exactly if the draft exists and has config data; then the new last entry is current and holds the draft's id, config and tag and the publisher; a failed call changes nothing |
| Publishing.PublishService.GetActivePublication | src/iara/config_publishing/publisher.py:303-307 | the reversed scan returns the current entry of the register |
| Publishing.PublishService.Rollback | src/iara/config_publishing/publisher.py:384-401 | refines making the entry of that id current, or fails and changes nothing |
| Publishing.PublishService.KanbanStages | src/iara/config_publishing/registry.py:58-84 | the stages of the current entry if it has any, or the eight defaults |
| Publishing.ActiveIsLastActivated | src/iara/config_publishing/publisher.py:223-401 | over every sequence of calls exactly one entry is active once anything is published: the one activated last |
| Publishing.HistoryOnlyGrows | src/iara/config_publishing/publisher.py:223-250 | the history only grows, with fixed contents |
| Publishing.PublishedAsDrafted | src/iara/config_publishing/publisher.py:223-250 | a published entry holds the draft as last written in every continuation, and its stages are the ones read while it is the last activated |
| Publishing.RollbackRestores | src/iara/config_publishing/publisher.py:384-401 | rolling back to what was active makes readers see it again, whatever happened in between |

## Left out

- More than one drainer or scheduler: their fetches lock nothing, and the code promises nothing for it.
- Database-failure fallbacks, including running a job without a lease when acquiring fails with another error.
- HTTP, JSON-RPC, token signing, media download, message queues, web and admin front ends, settings, logging and metrics.
- The LLM's text, regular-expression engines, the similarity ratio and Unicode: arbitrary parameters; lower-casing is per character, so the context rule for final sigma is not captured.
- ISO date parsing: times are integers; malformed busy periods, which the source skips, are taken to be filtered out before.
- Slots.CountFreeSlots: asks for a positive slot length (the source uses 30 minutes; with zero its loop would not end).
- The stub branches for an absent LLM, gateway, outbox or follow-up repository, which serve the repository's tests.
- Media, context and memory nodes beyond their step and error routing, the texts of the command assistant, and the hold record of the human-in-the-loop node.
- Text of tool messages and parameters of commands: a tool message keeps its call id, a command one content string.
- Command builders, policy tables, capability resolution, the eligibility rules and the scheduling hook after a delivered command: case splits or record construction.
- The database-backed paths of the publishing service, and sharing of a returned publication record with the stored one: records are values here.
- `mark_confirmed`, `mark_failed` and `fetch_pending` of the outbox, which the drainer does not use.
- OutboxDrainer.DrainsDry: asks for an adapter for every row; rows without one stay pending and can fill the batch.
- GraphDelivery.JointIsDelivery: a node's visit is one step, so no worker moves between two tool calls of one visit.
- Conversation.OneAnswerPerConversation: a job runs to its end or to the unmapped route; a process that dies after the response's insert and before the checkpoint is not covered.
- Redaction.DictIsClean: assumes, like DictTwice, that string redaction yields pattern-free text; SettlesIsPatternFree gives a pairwise condition for it.
- LeaseTable.LeaseRepository.Acquire: runs without interference; LeaseProtocol interleaves its statements.
