# Continuous batching, VMM page tables and tool-call pauses

A Dafny model of the serving core of the repository, with proofs of what it is
meant to guarantee:

* the continuous-batching scheduler (`scheduler.py`, `request.py`): queues,
  preemption, budgets, chunked prefill, speculative drafts, streaming sessions,
  recovery from failed KV loads;
* the VMM allocator for KV caches (`edmm_allocator.py`): page tables whose
  physical backing is swapped under stable virtual addresses;
* the layout of attention and Mamba views over one raw buffer (`attn_utils.py`);
* the tool-call hook (`edmm_hook.py`): pauses, responses, speculative handles.

`dafny verify dfyconfig.toml` verifies the project.

## How it is built

What the source updates in place is a class here: `Request`, `Scheduler`,
`Allocator`, `Allocation`, `EdmmSchedulerHook`, `Tensor`. Their methods follow
the source statement by statement, loops included, and each is proved equal to
a function on values (`Model()` of the object before and after). Those functions
are in `SchedulerSpec` (scheduler), `InvalidBlocks`, `MambaSplit`, `PageTable`
and `ToolCallHook`. Everything else is proved about the functions.

| part | modules |
|---|---|
| values and operations | Seqs, Arithmetic, Requests, MambaSplit, InvalidBlocks, SchedulerSpec |
| one call of `schedule` | Urgency, QueuePartition, Frames, Accounting, Planning, Admission, ScheduleStep, StepCounts, WaitingLine, RequestFates, LineOrder, StandStill, EncoderInputs |
| the engine and its invariant | Engine, EngineStep, Receiving, Reporting, Recovering, Finishing, Interventions, ReportStep, RecoveryPolicy |
| results about whole runs | Runs, StepResults, Delivery, Reasons, SessionStory, EndNotes, DelayedFrees, Loads, Eligibility, Streaming, ArrivalOrder, PriorityOrder, Progress, Holders, Termination, LoraBound, ToolWait, ToolRuns, EncoderRefunds, SessionLimits, Traces, SessionExamples |
| classes of the scheduler | RequestObject, SchedulerObject, ScheduleMethod, UpdateMethod, EngineMethod |
| GPU memory and the hook | KvLayout, PageTable, Vmm, ToolCallHook, HandleOwnership |

`Engine` fixes what a run is. Its events are a step (`schedule`), the report on
that step (`update_from_output`), new drafts, `add_request`, `finish_requests`,
`reset_prefix_cache` and a change of the pause state. Requests are added and
aborted at any time; a report follows its step before the next step, drafts
follow the report, and running requests are preempted by a reset only between
steps. Every answer of a component that is not part of this model is an
arbitrary value in the event, constrained only by what that component promises:

* KV manager: slots are granted or refused, a refusal changes nothing, a cache
  hit is a proper prefix of the request's tokens with correct KV;
* connector: loads are asynchronous or not, may stay undecided, may fail, may
  delay the release of blocks; asynchronous loads do not share blocks, no request
  is received and sent in one report, and nothing is loaded when chunks are
  aligned for Mamba layers (scheduler.py:286-288, 2148-2175 assert so);
* encoder cache: room is never granted beyond the compute budget;
* `check_stop`: a stop token, `max_model_len` or `max_tokens` ends a request;
* model runner: no token for a prefill chunk that is not the last, otherwise a
  prefix of the scheduled drafts and one more token;
* callers: ids are new except for chunks of a session, prompts are not empty and
  shorter than `max_model_len`, sessions get no drafts, and the next chunk of a
  session is not empty and stays below `max_model_len`.

`EngineMethod.Perform` closes the circle: whatever legal event comes next in a
reachable state, the corresponding method of the `Scheduler` object may be
called and leaves the object in the state that the run has next.

## Where the code does something else

* The encoder budget that a preemption gives back is overwritten when the
  request that caused it has encoder inputs itself (scheduler.py:478, 527).
  `RefundOverwritten` says exactly when and how much one iteration loses;
  `EncoderBalancesIff` sums this up for every step of every run, and with FCFS
  nothing is lost; `RefundLost` is a legal run after which a step loses half of
  the budget, with encoder plans that could not have been others
  (`ImagesAnswered`).
* An empty chunk of a session trips the assertion at scheduler.py:670, and only
  an empty one does (`ContinuedSessionHasTokens`, `EmptyChunk`).
* The second loop admits a chunk of a session without regard to the model length
  (`WholeChunkIff`), the first loop stops at the last position. So a chunk is
  computed to its end exactly if it is admitted whole or stays below the model
  length (`ChunkFitsIff`). Otherwise, at the last position the session stands
  still in every step (`StandsStill`; `OverlongSession` is one that does so for
  ever); beyond it, it is scheduled with a negative count (`BeyondTheEnd`,
  `NegativeCount`), and scheduler.py:1348 asserts the contrary. Empty chunks and
  chunks up to or beyond the model length are excluded from legal runs.
* A Mamba chunk can jump over the last cache position, but only with blocks of
  one token, where the guard takes the last token for decoding
  (`ChunkStep`, `DecodesPastCacheExample`).
* Padding an attention view is sound exactly when a page holds all that lies
  behind the first dimension (`PaddedSoundIff`). A page is made for one block, so
  with a K/V dimension in front, where the page stride falls on K/V, elements can
  collide (`PaddedCollides`), as a comment in attn_utils.py:256 warns.
* Pausing a request that is already paused forgets its speculative handles, and
  this is the only way a pause loses any (`PauseConservesIff`).
* The scheduler looks for a tool response and resumes in two critical sections.
  The response is still there exactly if nobody resumed or cleaned up the request
  in between, or a new response came after that (`StillThereAtResume`); a cleanup
  in between leaves nothing to resume (`CleanupInBetween`).
* The docstring of edmm_hook.py:47-50 has running requests paused from the
  output path. Nothing in the repository does that, so the protocol starts with
  a request that is enqueued as WAITING_FOR_TOOL_CALL.

## Model

| member | source | states |
|---|---|---|
| `Runs.KvAgrees` | vllm-integration/vllm_v1_core_sched/scheduler.py:929-967 | Over every synchronous run (chunks, prefix hits, drafts with any number rejected, preemption, resumption): between steps the KV at the computed positions of an unfinished request is that of its own leading tokens, and a running one has `num_computed_tokens < num_tokens`; while a step is in flight this holds for the tokens followed by the scheduled drafts |
| `Runs.OneQueueEach` | vllm-integration/vllm_v1_core_sched/scheduler.py:1614-1618 | In every reachable state an unfinished request is in exactly one queue, RUNNING iff in `running`, blocked only in `skipped_waiting`; a finished one is in none; `running` respects its limit |
| `Runs.EveryStepBalances` | vllm-integration/vllm_v1_core_sched/scheduler.py:825-836 | In every step of every run: token budget + scheduled tokens = maximum, nobody is scheduled twice, scheduled and preempted ids are disjoint, all counts are positive, encoder budget + scheduled embeds is at most the maximum, resumed requests were not in the previous step, and "Invalid request status" is not raised |
| `Runs.FinishedAreForgotten` | vllm-integration/vllm_v1_core_sched/scheduler.py:1843-1864 | Without a connector no reachable state knows a finished request |
| `Runs.HasFinishedIsExact` | vllm-integration/vllm_v1_core_sched/scheduler.py:1885-1895 | In every reachable state more requests are known than queued iff some known request is finished, so `has_finished_requests` is true iff finished ids are to be sent or such a request is known |
| `Runs.KeptOnlyWhenDelayed` | vllm-integration/vllm_v1_core_sched/scheduler.py:1829-1859 | A request that is finished and still known after an event was so before it, or its free was delayed by the connector or by an unfinished load |
| `DelayedFrees.KeptWhileNeeded` | vllm-integration/vllm_v1_core_sched/scheduler.py:1829-1864 | Over every run, after each event: a request that ends stays known, with its blocks, iff the connector delays the free or its load was not reported yet; a finished one that was kept stays as it is until the connector reports it, and then request and blocks are gone |
| `EndNotes.EveryEndIsToldOnce` | vllm-integration/vllm_v1_core_sched/scheduler.py:1843-1859 | After every run the requests that have ended are exactly those that `finished_req_ids` of some step told the worker and those that the next step will tell, and none is told twice |
| `Runs.SessionUpdateKeepsComputed` | vllm-integration/vllm_v1_core_sched/scheduler.py:993-1031 | In every reachable state, continuing a session that awaits input keeps exactly the computed tokens, drops the last sampled one, makes prompt and all tokens the same and lowers the counter by one |
| `ReportStep.RunKeepsInv` | vllm-integration/vllm_v1_core_sched/scheduler.py:329-1931 | The engine invariant (partition, budgets of the run queue, readiness and KV of every request, loads) holds after every legal run |
| `ReportStep.NextKeepsInv` | vllm-integration/vllm_v1_core_sched/scheduler.py:329-1931 | Each event (step, report, drafts, add, abort, reset, pause) keeps that invariant |
| `Delivery.ExactlyOnceDelivery` | vllm-integration/vllm_v1_core_sched/scheduler.py:1474-1523 | Over every run with preemptions, recovered load failures and aborts: what was delivered for a request that is not a session is its `_output_token_ids`, its tokens are prompt and output, and at most one message has a finish reason, the last one |
| `Delivery.ReportDelivers` | vllm-integration/vllm_v1_core_sched/scheduler.py:1347-1523 | One report delivers exactly the tokens it appends, also for a request that stops and is forgotten, and ends the request iff it stopped |
| `Reasons.ReportSays` | vllm-integration/vllm_v1_core_sched/scheduler.py:1383-1523 | Word for word what a report says about a request in flight: the tokens up to the first that ends it, and with that one `Error` iff the grammar rejected, otherwise `Stop` iff it is a stop token, otherwise `Length` iff a limit is reached; no message without tokens |
| `Reasons.OthersAreTold` | vllm-integration/vllm_v1_core_sched/scheduler.py:2280-2350 | Of all other requests a report names only those that the "fail" policy ends, in one message with `Error` and no tokens |
| `Reasons.EveryEndHasItsReason` | vllm-integration/request.py:349-357 | Over every run, for each request that is not a session: no output before the last token met an end, `Stop` is given only if the last token is a stop token, `Length` only if it is none and a limit is reached, and otherwise only `Error` |
| `SessionStory.EverySessionHasItsStory` | vllm-integration/vllm_v1_core_sched/scheduler.py:1756-1778 | In every reachable state, of each unfinished session: the objects added to it are, in order, those consumed followed by its queue; no end marker is among the consumed; the client got one answer for each chunk consumed; prompt and tokens are chunks and answers in turn, each answer but the open one without its last token; arrival time and stop tokens are those of the last chunk |
| `SessionStory.ReportTurns` | vllm-integration/vllm_v1_core_sched/scheduler.py:1632-1648 | What a report makes of each request in flight: it keeps running, or takes exactly the next chunk of its session and queues, or awaits one if there is none; the end marker ends it, and so does any end of a request that is not a session |
| `Streaming.CounterIsExact` | vllm-integration/vllm_v1_core_sched/scheduler.py:1873-1883 | `num_waiting_for_streaming_input` is the number of sessions awaiting input in every reachable state, each of them only in `skipped_waiting` with an empty queue, so the unpaused count is that of the other unfinished requests |
| `ArrivalOrder.ArrivalOrderKept` | vllm-integration/vllm_v1_core_sched/scheduler.py:480-484 | FCFS without blocked statuses, LoRA or sessions: over whole runs `running` followed by `waiting` is the unfinished requests in the order of `add_request` |
| `ArrivalOrder.VictimsArrivedLast` | vllm-integration/vllm_v1_core_sched/scheduler.py:480-484 | Every preemption victim arrived after every request that is still running afterwards |
| `PriorityOrder.VictimsLeastUrgent` | vllm-integration/vllm_v1_core_sched/scheduler.py:456-484 | In every step of every run under PRIORITY, no preempted request is more urgent than one that is still running after the step |
| `Progress.OldestIsScheduled` | vllm-integration/vllm_v1_core_sched/scheduler.py:366-499 | Each step schedules a token for the oldest unfinished request when every request fits alone |
| `Progress.FirstGetsRoom` | vllm-integration/vllm_v1_core_sched/scheduler.py:443-487 | The oldest running request is never its own victim: it gets its slots |
| `Termination.EventShrinks` | vllm-integration/vllm_v1_core_sched/scheduler.py:366-499 | No event but a step raises what is left for a request and those ahead of it, and each step lowers it by at least one |
| `Termination.NobodyStarves` | vllm-integration/vllm_v1_core_sched/scheduler.py:329-922 | From any reachable state, a request with k others ahead of it is finished after (k + 1) * (max_model_len + 1)^2 steps, whatever is added, aborted or preempted meanwhile |
| `Termination.ReceivingShrinks` | vllm-integration/vllm_v1_core_sched/scheduler.py:1650-1666 | A report that generates tokens lowers (max_model_len - num_tokens, num_tokens - num_computed_tokens), read as one number, of a request that goes on; one without tokens leaves it as it is |
| `Holders.HoldersAreRunning` | vllm-integration/vllm_v1_core_sched/scheduler.py:929-949 | In every reachable FCFS state only running requests hold KV blocks |
| `LoraBound.LorasNeverExceed` | vllm-integration/vllm_v1_core_sched/scheduler.py:571-584 | Over every run without encoder inputs or Mamba splits the running requests use at most `max_loras` LoRAs |
| `LoraBound.LoraAssertionHolds` | vllm-integration/vllm_v1_core_sched/scheduler.py:534-542 | So the assertion on `scheduled_loras` holds in every step of every such run |
| `LoraBound.NobodyPassedOver` | vllm-integration/vllm_v1_core_sched/scheduler.py:366-548 | In every step of every run without Mamba splits and encoder inputs: whenever waiting requests are considered, every running request has been scheduled in this step |
| `EncoderRefunds.EncoderBalancesIff` | vllm-integration/vllm_v1_core_sched/scheduler.py:468-527 | In every step of every run encoder budget + scheduled embeds = maximum - what was lost, which is never negative: the balance is exact iff no refund was overwritten, and always with FCFS |
| `EncoderRefunds.RefundOverwritten` | vllm-integration/vllm_v1_core_sched/scheduler.py:468-527 | An iteration keeps that balance iff it does not schedule encoder inputs after a refund; otherwise it loses precisely the refund |
| `EncoderRefunds.RefundLost` | vllm-integration/vllm_v1_core_sched/scheduler.py:474-527 | A legal run with PRIORITY after which one step loses half of the encoder budget |
| `EncoderRefunds.ImagesAnswered` | vllm-integration/vllm_v1_core_sched/scheduler.py:1096-1257 | The encoder plans of that run and of the step after it are the only ones that `_try_schedule_encoder_inputs` can answer for prompts that end with an image of two positions |
| `SessionLimits.ContinuedSessionHasTokens` | vllm-integration/vllm_v1_core_sched/scheduler.py:654-670 | The assertion `num_new_tokens > 0` holds for a continued session iff its new chunk is not empty |
| `SessionExamples.EmptyChunk` | vllm-integration/vllm_v1_core_sched/scheduler.py:654-670 | A session in a reachable state that awaits input, for which the empty chunk leaves nothing to schedule |
| `SessionLimits.WantsToTheEnd` | vllm-integration/vllm_v1_core_sched/scheduler.py:385-398 | A request without drafts is planned for by the first loop at every position up to its last token iff it has no token left or fewer tokens than the model length |
| `SessionLimits.ChunkFitsIff` | vllm-integration/vllm_v1_core_sched/scheduler.py:385-398 | In every reachable state: a session continued with a chunk and admitted with a first plan of n tokens, and then left running, gets its chunk computed, given enough steps, iff n is the whole chunk or the computed tokens and the chunk stay below the model length; the same condition says when no later count is zero or negative |
| `SessionLimits.WholeChunkIff` | vllm-integration/vllm_v1_core_sched/scheduler.py:654-670 | The first plan of a continued session, made by the second loop without regard to the model length, is the whole chunk iff the chunk is within the token budget and the long-prefill threshold |
| `StandStill.StandsStill` | vllm-integration/vllm_v1_core_sched/scheduler.py:366-441 | In any step, whatever the other components answer, a running request at the last position of the model is not scheduled, and unless somebody is preempted it is still running afterwards, unchanged |
| `SessionExamples.OverlongSession` | vllm-integration/vllm_v1_core_sched/scheduler.py:366-441 | A legal run, a chunk that is too long, and then whatever legal steps: the session stays in `running` and its last token is never computed |
| `StandStill.BeyondTheEnd` | vllm-integration/vllm_v1_core_sched/scheduler.py:393-499 | A running request beyond the last position of the model, without encoder inputs, block alignment or lack of slots, is scheduled with a negative count, and the token budget grows by it |
| `SessionExamples.NegativeCount` | vllm-integration/vllm_v1_core_sched/scheduler.py:393-499 | A legal run, a chunk that is too long, a legal step and the report on it: the next step schedules -1 tokens and has 4 left of a budget of 3, so the assertion at line 1348 fails on the report |
| `SessionLimits.RunningWantSign` | vllm-integration/vllm_v1_core_sched/scheduler.py:385-398 | With budget left, the count wanted for a running request with tokens left, before encoder inputs and block alignment, is positive iff its next position is below the last one of the model, zero there, and negative beyond |
| `SessionLimits.RunningAlwaysWants` | vllm-integration/vllm_v1_core_sched/scheduler.py:385-398 | As long as chunks fit the model length, the count wanted for every running request, before encoder inputs and block alignment, is positive while budget is left |
| `ScheduleStep.SchedulePassOk` | vllm-integration/vllm_v1_core_sched/scheduler.py:364-823 | Both loops together keep the partition, balance the books, plan only what fits each request, and rewrite only scheduling data |
| `EngineStep.ScheduleBalances` | vllm-integration/vllm_v1_core_sched/scheduler.py:344-836 | The accounting of one call of `schedule`, from any state that satisfies the invariant |
| `StepResults.EveryCountIsAllowed` | vllm-integration/vllm_v1_core_sched/scheduler.py:385-441 | In every step of every run each request gets no more than it has left, than the long-prefill threshold and, when running, than fits the model length; it was granted slots for that and the look-ahead, or for the whole request; its computed count grows by it from what was computed, cached or loaded; and exactly the drafts that lie within are scheduled |
| `StepResults.CountsAreMaximal` | vllm-integration/vllm_v1_core_sched/scheduler.py:385-425 | Nor one token less, unless the budget is used up by those scheduled before, or by encoder inputs and block alignment; without chunked prefill no waiting request is cut short by the budget |
| `StepResults.ChunksStayAligned` | vllm-integration/vllm_v1_core_sched/scheduler.py:300-326 | With block alignment a step takes each request from a block boundary to a block boundary or beyond the last cache position, which it steps over iff `DecodesPastCache` |
| `StepResults.DraftsAreSet` | vllm-integration/vllm_v1_core_sched/scheduler.py:1692-1712 | After new drafts an unfinished request beyond its prefill has those given for it, one in its prefill has none, and all others keep theirs |
| `StepResults.DraftsReachTheStep` | vllm-integration/vllm_v1_core_sched/scheduler.py:501-517 | What the next step schedules of them for a running request are the first ones, as many as its count covers |
| `StepResults.EveryRequestHasItsFate` | vllm-integration/vllm_v1_core_sched/scheduler.py:364-823 | What becomes of every request in every step of every run: a running one is preempted and starts over, only after a refusal of slots, or is scheduled unless no token may be given to it; one that waits is admitted as new or resumed, starts to load, is set aside because what it waits for is not there, its LoRA has no place or the connector cannot tell yet, or is not reached, and then tokens or places are used up or a head cannot be served |
| `StepResults.LineKeepsItsOrder` | vllm-integration/vllm_v1_core_sched/scheduler.py:544-823 | FCFS, in every step of every run: those considered are the first of `skipped_waiting` followed by `waiting`, and those of them that were set aside keep their places in front of the rest; victims go to the front, the last one first |
| `StepResults.NobodyJumpsTheLine` | vllm-integration/vllm_v1_core_sched/scheduler.py:1620-1630 | PRIORITY, in every step of every run: whoever is admitted comes first, by priority, arrival and id, of all that still wait and were not set aside |
| `StepResults.LastStepIsRemembered` | vllm-integration/vllm_v1_core_sched/scheduler.py:878-879 | `prev_step_scheduled_req_ids` are those of the last step, or none after a reset of running requests, over whole runs |
| `WaitingLine.DecisionFor` | vllm-integration/vllm_v1_core_sched/scheduler.py:549-740 | What the second loop may decide about the head and exactly when: set aside, load, admit, or wait |
| `Eligibility.CountsTheEligible` | vllm-integration/vllm_v1_core_sched/scheduler.py:1873-1883 | In every reachable state `get_num_unfinished_requests` is the number of requests that a step may schedule: nobody while all are paused, the running ones while new ones are, otherwise all but the sessions awaiting input |
| `Eligibility.ScheduledWereEligible` | vllm-integration/vllm_v1_core_sched/scheduler.py:344-363 | Whoever a step schedules was one of them |
| `EngineStep.ScheduledAreRunning` | vllm-integration/vllm_v1_core_sched/scheduler.py:784-804 | Everything scheduled is running afterwards |
| `EngineStep.StepKeepsInv` | vllm-integration/vllm_v1_core_sched/scheduler.py:905-991 | `schedule` and the advance after it keep the engine invariant |
| `EngineStep.AfterScheduleKv` | vllm-integration/vllm_v1_core_sched/scheduler.py:951-967 | After the advance, positions up to `num_computed_tokens` hold the KV of tokens followed by drafts |
| `Accounting.MakeRoomBooks` | vllm-integration/vllm_v1_core_sched/scheduler.py:443-487 | While slots are sought, the books stay balanced, what is scheduled stays before `req_index`, and budgets only grow |
| `Accounting.PreemptVictimBooks` | vllm-integration/vllm_v1_core_sched/scheduler.py:454-484 | Taking a victim back out of this step keeps the books, and it is not scheduled any more |
| `Accounting.BehindWithoutVictim` | vllm-integration/vllm_v1_core_sched/scheduler.py:456-481 | The `req_index` repair: everything scheduled stays in front of the index and the asker is not passed over, whichever position the victim leaves |
| `Accounting.RunningStepBooks` | vllm-integration/vllm_v1_core_sched/scheduler.py:366-532 | One iteration of the first loop keeps the books |
| `Planning.RunningLoopInv` | vllm-integration/vllm_v1_core_sched/scheduler.py:366-532 | The first loop keeps readiness, KV and plans of all requests |
| `Planning.ScheduleRunningSound` | vllm-integration/vllm_v1_core_sched/scheduler.py:493-517 | The drafts scheduled are those that fit behind the tokens of the request |
| `Admission.WaitingLoopInv` | vllm-integration/vllm_v1_core_sched/scheduler.py:548-819 | The second loop keeps them |
| `Admission.PromoteReady` | vllm-integration/vllm_v1_core_sched/scheduler.py:2104-2146 | A promoted request is ready to be scheduled: something is left to compute |
| `Admission.AdmitBooks` | vllm-integration/vllm_v1_core_sched/scheduler.py:784-813 | Admitting a waiting request keeps the books |
| `Frames.RunningLoopFramed` | vllm-integration/vllm_v1_core_sched/scheduler.py:366-532 | The first loop changes no tokens, ends nobody and keeps counter and pause state |
| `Frames.WaitingLoopFramed` | vllm-integration/vllm_v1_core_sched/scheduler.py:548-819 | Nor does the second |
| `QueuePartition.RunningLoopKeeps` | vllm-integration/vllm_v1_core_sched/scheduler.py:366-532 | The first loop keeps the queue partition |
| `QueuePartition.WaitingLoopKeeps` | vllm-integration/vllm_v1_core_sched/scheduler.py:548-823 | So does the second, counting the requests set aside in this step |
| `QueuePartition.PromoteFacts` | vllm-integration/vllm_v1_core_sched/scheduler.py:2104-2146 | Promotion touches only the promoted request, which ends WAITING or PREEMPTED |
| `QueuePartition.MakeRoomKeepsAsker` | vllm-integration/vllm_v1_core_sched/scheduler.py:443-491 | A request that got its slots is still running |
| `QueuePartition.ExactlyOneQueue` | vllm-integration/vllm_v1_core_sched/scheduler.py:1614-1618 | What the partition means for one request |
| `ReportStep.ReportKeepsInv` | vllm-integration/vllm_v1_core_sched/scheduler.py:1283-1551 | `update_from_output` keeps the engine invariant |
| `ReportStep.ReportStages` | vllm-integration/vllm_v1_core_sched/scheduler.py:1347-1551 | Only running requests stop, so it amounts to: recover, treat each request, leave `running`, fail, look at transfers |
| `Reporting.UpdateAllInv` | vllm-integration/vllm_v1_core_sched/scheduler.py:1347-1526 | The loop over `num_scheduled_tokens` keeps the invariant for the requests treated so far and those still in flight |
| `Reporting.TreatedReady` | vllm-integration/vllm_v1_core_sched/scheduler.py:1398-1485 | A request that went on, finished, took its next chunk or awaits input is ready for what comes next |
| `Receiving.ReconcileFacts` | vllm-integration/vllm_v1_core_sched/scheduler.py:1371-1381 | Rejected drafts are given back exactly: what counts as computed are the tokens kept before the new one |
| `Receiving.KvAfterReceive` | vllm-integration/vllm_v1_core_sched/scheduler.py:1371-1410 | When no generated token was trimmed, after a report the KV of what counts as computed is that of the old tokens and the new ones |
| `Receiving.GoesOn` | vllm-integration/vllm_v1_core_sched/scheduler.py:1650-1666 | A request that does not stop is below the model length and has a token left to compute |
| `Receiving.SessionContinues` | vllm-integration/vllm_v1_core_sched/scheduler.py:1002-1031 | Without drafts a session update leaves prompt = all tokens and keeps every computed token |
| `Requests.CutAtFirstStop` | vllm-integration/vllm_v1_core_sched/scheduler.py:1650-1666 | Tokens are cut at the first one that `check_stop` accepts |
| `Requests.AppendUntilStopFacts` | vllm-integration/vllm_v1_core_sched/scheduler.py:1653-1666 | What is appended is a prefix of what was generated, and goes to output and all tokens alike |
| `Recovering.HandleInvalidOk` | vllm-integration/vllm_v1_core_sched/scheduler.py:2280-2350 | `_handle_invalid_blocks` only lowers computed counts, by at least what this step scheduled, and only of reported requests |
| `Recovering.RecoveredMid` | vllm-integration/vllm_v1_core_sched/scheduler.py:2280-2350 | It leaves every request usable: the KV below the new count is that of its own tokens |
| `InvalidBlocks.ExactlyTheAffected` | vllm-integration/vllm_v1_core_sched/scheduler.py:2215-2278 | Exactly the requests with an invalid block in their previously computed prefix are reported; no computed count grows, the others keep theirs |
| `InvalidBlocks.MarkedIffHeld` | vllm-integration/vllm_v1_core_sched/scheduler.py:2230-2245 | Exactly the invalid blocks in computed prefixes are marked |
| `InvalidBlocks.FirstHolderRecomputes` | vllm-integration/vllm_v1_core_sched/scheduler.py:2236-2262 | The first request that holds an invalid block is cut at or below its start, and exactly there if it is its first invalid one; with eviction on, the block and all after the cut are evicted |
| `InvalidBlocks.EveryBlockIsRecomputed` | vllm-integration/vllm_v1_core_sched/scheduler.py:2208-2278 | Some request recomputes each invalid block that was found |
| `InvalidBlocks.SharedHolderFallsBack` | vllm-integration/vllm_v1_core_sched/scheduler.py:2264-2276 | A request whose invalid blocks are all recomputed by earlier ones goes back to what it had before the step |
| `InvalidBlocks.UnsharedAreTruncated` | vllm-integration/vllm_v1_core_sched/scheduler.py:2247-2258 | Without shared blocks every affected request is cut strictly below that |
| `InvalidBlocks.ValidPrefixIsKept` | vllm-integration/vllm_v1_core_sched/scheduler.py:2247-2276 | Each request keeps exactly the tokens in front of its first invalid block that nobody before it recomputes; without such a block, what it had, or had before the step |
| `InvalidBlocks.NoValidBlockIsLost` | vllm-integration/vllm_v1_core_sched/scheduler.py:2254 | No block in front of the first invalid one of a request is given up |
| `InvalidBlocks.EvictedIff` | vllm-integration/vllm_v1_core_sched/scheduler.py:2261-2263 | A block is evicted iff eviction is on and it lies at or behind the position where its holder is cut |
| `InvalidBlocks.TotalIsLost` | vllm-integration/vllm_v1_core_sched/scheduler.py:2255-2258 | Without shared blocks the reported number of affected tokens is what the requests lost |
| `RecoveryPolicy.RunningRecovered` | vllm-integration/vllm_v1_core_sched/scheduler.py:2317-2350 | `_handle_invalid_blocks`, for each running request: what it keeps, and that it fails iff it holds an invalid block |
| `RecoveryPolicy.LoadRecovered` | vllm-integration/vllm_v1_core_sched/scheduler.py:2295-2350 | Likewise for each request being loaded: with recomputation it is noted as a failed load, otherwise it fails |
| `RecoveryPolicy.EveryReportRecovers` | vllm-integration/vllm_v1_core_sched/scheduler.py:2280-2350 | Both hold for every report of every run |
| `Finishing.FinishKeepsInv` | vllm-integration/vllm_v1_core_sched/scheduler.py:1780-1841 | `finish_requests` keeps the invariant |
| `Finishing.FinishLeavesQueues` | vllm-integration/vllm_v1_core_sched/scheduler.py:1813-1826 | After `finish_requests` each queue is what it was without the requests finished now, in the same order |
| `Finishing.TransfersKeepInv` | vllm-integration/vllm_v1_core_sched/scheduler.py:2148-2175 | Finished transfers keep the invariant |
| `Loads.LoadsEndWhenReported` | vllm-integration/vllm_v1_core_sched/scheduler.py:2148-2175 | Whatever event follows a run: exactly the loads that a report names count as arrived from then on; a load ends only in a step and only when it has arrived, or with its request; until then it is not touched |
| `Loads.ArrivedMeansReported` | vllm-integration/vllm_v1_core_sched/scheduler.py:2158-2175 | A load counts as arrived only if some report of the run named it while it was waiting for its KV, where it has been ever since |
| `Interventions.AddKeepsInv` | vllm-integration/vllm_v1_core_sched/scheduler.py:1756-1778 | So does `add_request`, for new requests and for chunks of sessions |
| `Interventions.DraftKeepsInv` | vllm-integration/vllm_v1_core_sched/scheduler.py:1692-1712 | So do new drafts |
| `Interventions.ResetKeepsInv` | vllm-integration/vllm_v1_core_sched/scheduler.py:1897-1931 | So does a reset with preemption of all running requests |
| `RequestFates.ResetStartsOver` | vllm-integration/vllm_v1_core_sched/scheduler.py:1907-1931 | Such a reset puts all running requests, in their order, in front of `waiting`, each without blocks, drafts and computed tokens; nobody else is touched |
| `EngineMethod.Perform` | vllm-integration/vllm_v1_core_sched/scheduler.py:329-1931 | In every reachable state each method of the scheduler object may be called, and leaves the object in the next state of the run; so what is proved of runs holds of the object |
| `EngineMethod.QueuesClosed` | vllm-integration/vllm_v1_core_sched/scheduler.py:1774 | In such a state every queued object is the one known under its id, once |
| `ScheduleMethod.Schedule` | vllm-integration/vllm_v1_core_sched/scheduler.py:329-922 | `schedule`, in place: new state and output are those of the specification |
| `ScheduleMethod.RunningRequests` | vllm-integration/vllm_v1_core_sched/scheduler.py:364-532 | Its first loop |
| `ScheduleMethod.MakeRoomFor` | vllm-integration/vllm_v1_core_sched/scheduler.py:443-487 | The inner loop: allocate, preempting until it works or the request itself is the victim |
| `ScheduleMethod.PreemptOne` | vllm-integration/vllm_v1_core_sched/scheduler.py:454-484 | One round of it |
| `ScheduleMethod.LeastUrgentRunning` | vllm-integration/vllm_v1_core_sched/scheduler.py:457-460 | The victim under PRIORITY: nobody running is less urgent, and everybody before it in `running` is more urgent |
| `ScheduleMethod.WaitingRequests` | vllm-integration/vllm_v1_core_sched/scheduler.py:544-819 | The second loop |
| `ScheduleMethod.WaitingIteration` | vllm-integration/vllm_v1_core_sched/scheduler.py:548-819 | Its body |
| `ScheduleMethod.Decide` | vllm-integration/vllm_v1_core_sched/scheduler.py:571-740 | LoRA limit, cached tokens, plan and slots of the request at the head |
| `ScheduleMethod.PromoteIfBlocked` | vllm-integration/vllm_v1_core_sched/scheduler.py:2104-2146 | `_try_promote_blocked_waiting_request` |
| `ScheduleMethod.PromoteLoaded` | vllm-integration/vllm_v1_core_sched/scheduler.py:2070-2102 | `_update_waiting_for_remote_kv` |
| `ScheduleMethod.PeekHead` | vllm-integration/vllm_v1_core_sched/scheduler.py:1620-1630 | Which queue is looked at, and its head |
| `ScheduleMethod.SmallestOf` | vllm-integration/request.py:300-311 | The minimum of a priority queue under `Request.__lt__`: nobody in the queue comes before it |
| `Urgency.FirstLeastUrgentIff` | vllm-integration/vllm_v1_core_sched/scheduler.py:457-460 | A position of `running` is the chosen one iff it is the first of the least urgent requests; there is exactly one |
| `Urgency.SmallestIsMinimum` | vllm-integration/request.py:300-311 | The fold that keeps the smaller of two requests ends with one that nobody comes before |
| `Urgency.PeekComesFirst` | vllm-integration/vllm_v1_core_sched/scheduler.py:1620-1630 | Under PRIORITY the request considered next comes before every other one in `waiting` and in `skipped_waiting` |
| `ScheduleMethod.ScheduledLoras` | vllm-integration/vllm_v1_core_sched/scheduler.py:534-541 | The LoRAs scheduled by the first loop |
| `ScheduleMethod.UpdateAfterSchedule` | vllm-integration/vllm_v1_core_sched/scheduler.py:951-991 | `_update_after_schedule`, with the KV the worker writes |
| `UpdateMethod.UpdateFromOutput` | vllm-integration/vllm_v1_core_sched/scheduler.py:1283-1551 | `update_from_output`, in place: new state and messages are those of the specification |
| `UpdateMethod.UpdateRequests` | vllm-integration/vllm_v1_core_sched/scheduler.py:1347-1526 | Its loop |
| `UpdateMethod.UpdateRequest` | vllm-integration/vllm_v1_core_sched/scheduler.py:1349-1526 | The body of the loop |
| `UpdateMethod.HandleInvalidBlocks` | vllm-integration/vllm_v1_core_sched/scheduler.py:2280-2350 | `_handle_invalid_blocks` |
| `UpdateMethod.RepairBatch` | vllm-integration/vllm_v1_core_sched/scheduler.py:2177-2278 | `_update_requests_with_invalid_blocks` |
| `UpdateMethod.RepairRequest` | vllm-integration/vllm_v1_core_sched/scheduler.py:2215-2276 | The scan and truncation of one request |
| `UpdateMethod.UpdateFromTransfers` | vllm-integration/vllm_v1_core_sched/scheduler.py:2148-2175 | `_update_from_kv_xfer_finished` |
| `SchedulerObject.Scheduler.AddRequest` | vllm-integration/vllm_v1_core_sched/scheduler.py:1756-1778 | `add_request` |
| `SchedulerObject.Scheduler.FinishRequests` | vllm-integration/vllm_v1_core_sched/scheduler.py:1780-1841 | `finish_requests`: two passes over the ids, in place |
| `SchedulerObject.Scheduler.PreemptRequest` | vllm-integration/vllm_v1_core_sched/scheduler.py:929-949 | `_preempt_request` |
| `SchedulerObject.Scheduler.ResetPrefixCache` | vllm-integration/vllm_v1_core_sched/scheduler.py:1907-1931 | `reset_prefix_cache` |
| `SchedulerObject.Scheduler.UpdateDraftTokenIds` | vllm-integration/vllm_v1_core_sched/scheduler.py:1692-1712 | `update_draft_token_ids` |
| `SchedulerObject.Scheduler.HandleStoppedRequest` | vllm-integration/vllm_v1_core_sched/scheduler.py:1632-1648 | `_handle_stopped_request` |
| `SchedulerObject.Scheduler.UpdateRequestAsSession` | vllm-integration/vllm_v1_core_sched/scheduler.py:993-1031 | `_update_request_as_session` |
| `SchedulerObject.Scheduler.FreeRequest` | vllm-integration/vllm_v1_core_sched/scheduler.py:1843-1864 | `_free_request` |
| `SchedulerObject.Scheduler.RemoveAll` | vllm-integration/vllm_v1_core_sched/scheduler.py:1821-1826 | Dropping requests from a queue keeps the order of the rest |
| `SchedulerObject.Scheduler.GetNumUnfinishedRequests` | vllm-integration/vllm_v1_core_sched/scheduler.py:1873-1883 | `get_num_unfinished_requests` |
| `SchedulerObject.Scheduler.HasFinishedRequests` | vllm-integration/vllm_v1_core_sched/scheduler.py:1885-1895 | `has_finished_requests` |
| `SchedulerObject.EndAll` | vllm-integration/vllm_v1_core_sched/scheduler.py:1802-1839 | Finishing one request at a time, in any order, is finishing all of them |
| `RequestObject.Request.UpdateWithOutput` | vllm-integration/vllm_v1_core_sched/scheduler.py:1650-1666 | `_update_request_with_output`: the loop appends up to and including the first stopping token |
| `RequestObject.Request.AppendOutputTokenIds` | vllm-integration/request.py:215-224 | `append_output_token_ids`: both lists grow by the same tokens |
| `RequestObject.Request.Less` | vllm-integration/request.py:300-311 | `__lt__`, for requests with different ids |
| `RequestObject.Request.ContinueWith` | vllm-integration/vllm_v1_core_sched/scheduler.py:1002-1031 | The request's part of a session update |
| `RequestObject.Request.TakeDrafts` | vllm-integration/vllm_v1_core_sched/scheduler.py:501-517 | Drafts that fit are taken, and the list is emptied either way |
| `MambaSplit.MambaBlockAlignedSplit` | vllm-integration/vllm_v1_core_sched/scheduler.py:279-327 | `_mamba_block_aligned_split` |
| `MambaSplit.ChunkStep` | vllm-integration/vllm_v1_core_sched/scheduler.py:300-326 | One chunk from an aligned position: never more than offered, progress for an offer of a whole block, aligned unless past the cache position, which is jumped over iff `DecodesPastCache`; less than a block of the offer is given up below it, only the rest when it is within reach, and nothing behind it |
| `MambaSplit.PrefillStaysAligned` | vllm-integration/vllm_v1_core_sched/scheduler.py:300-326 | A whole prefill, for every sequence of offers, with and without the EAGLE prune: every computed count up to the last cache position is block-aligned and that position is visited before anything beyond |
| `MambaSplit.PrefillReachesCache` | vllm-integration/vllm_v1_core_sched/scheduler.py:300-326 | With a block offered each time the cache position is reached |
| `MambaSplit.DecodesPastCacheExample` | vllm-integration/vllm_v1_core_sched/scheduler.py:299-300 | The excepted case exists: blocks of one token, and the last token treated as decoding |
| `EncoderInputs.TrySchedule` | vllm-integration/vllm_v1_core_sched/scheduler.py:1096-1257 | `_try_schedule_encoder_inputs`: the window is at most what was asked; every input with an embedding in it is cached, selected, or shares its identifier with a selected one; every selected one overlaps the window and got room in the cache when its turn came, with the budget and the pending embeds of that moment; the budget falls by exactly what is to be computed; and only a blocking input shortens the window |
| `EncoderInputs.Plan` | vllm-integration/vllm_v1_core_sched/scheduler.py:400-416 | So its answers satisfy what `schedule` relies on, and are among those |
| `EncoderInputs.CutWindow` | vllm-integration/vllm_v1_core_sched/scheduler.py:1189-1221 | When the window is cut at an input, everything selected before still overlaps it |
| `KvLayout.AttentionTensor` | vllm-integration/vllm_v1_worker_gpu/attn_utils.py:244-273 | The attention branch of `_reshape_kv_cache`: logical shape as asked, every element of the buffer once; padded with the block dimension outermost, block b stays in page b and nothing collides iff a page holds a block |
| `KvLayout.AttentionView` | vllm-integration/vllm_v1_worker_gpu/attn_utils.py:244-273 | Permuting by `stride_order` and then `inv_order` restores the logical shape, and the view is a bijection onto the buffer |
| `KvLayout.ReorderTwice` | vllm-integration/vllm_v1_worker_gpu/attn_utils.py:244-248 | The two permutations undo each other |
| `KvLayout.InverseOrder` | vllm-integration/vllm_v1_worker_gpu/attn_utils.py:245-248 | `inv_order` is the inverse |
| `KvLayout.PermutedDot` | vllm-integration/vllm_v1_worker_gpu/attn_utils.py:273 | Permuting a view moves no element |
| `KvLayout.PaddedView` | vllm-integration/vllm_v1_worker_gpu/attn_utils.py:252-269 | The padded view is injective and in bounds, each element in the page of its block |
| `KvLayout.InPagesIff` | vllm-integration/vllm_v1_worker_gpu/attn_utils.py:252-269 | With the block dimension outermost, every block lies in its page and no two elements share a place iff a page holds a block |
| `KvLayout.PaddedSoundIff` | vllm-integration/vllm_v1_worker_gpu/attn_utils.py:252-269 | Padding the first dimension of the physical shape, of size two or more, gives an injective view iff a page holds all that lies behind that dimension: a block if it is the block dimension, all blocks of K if it is the K/V dimension |
| `KvLayout.PaddedCollides` | vllm-integration/vllm_v1_worker_gpu/attn_utils.py:256-264 | A shape that starts with K/V, with pages as large as a block: the view fits the buffer, and two elements share a place |
| `KvLayout.ContiguousTight` | vllm-integration/vllm_v1_worker_gpu/attn_utils.py:272 | A contiguous view visits every element once |
| `KvLayout.HybridElement` | vllm-integration/vllm_v1_worker_gpu/attn_utils.py:328-336 | In the hybrid layout K and V of block b fill exactly the b-th chunk of 2 * hidden elements |
| `KvLayout.HybridTight` | vllm-integration/vllm_v1_worker_gpu/attn_utils.py:328-336 | The hybrid relayout is a bijection onto the same buffer |
| `KvLayout.UpdateHybridLayout` | vllm-integration/vllm_v1_worker_gpu/attn_utils.py:310-336 | `_update_hybrid_attention_layout`: in place, only the K/V tensors change, and each stays a bijection |
| `KvLayout.MambaViews` | vllm-integration/vllm_v1_worker_gpu/attn_utils.py:275-294 | The loop over the states of a Mamba layer |
| `KvLayout.MambaElement` | vllm-integration/vllm_v1_worker_gpu/attn_utils.py:279-293 | An element of state i in page p lies in the part of that page that belongs to the state |
| `KvLayout.MambaDisjoint` | vllm-integration/vllm_v1_worker_gpu/attn_utils.py:275-294 | Distinct (state, page, element) triples get disjoint bytes, inside their page and the buffer |
| `Vmm.Allocator.AllocateVmmKvCache` | vllm-integration/vllm_v1_worker_gpu/edmm_allocator.py:153-201 | A zeroed tensor of whole pages, one new handle each; nothing else changes |
| `Vmm.Allocator.RemapBlock` | vllm-integration/vllm_v1_worker_gpu/edmm_allocator.py:277-308 | Exactly one page of one tensor changes, to what the new handle holds; the old handle is returned; an unknown tensor or page is an error without effect |
| `Vmm.Allocator.RemapAndBack` | vllm-integration/vllm_v1_worker_gpu/edmm_allocator.py:277-308 | Remapping the returned handle restores all contents and the table |
| `Vmm.Allocator.FreeVmmKvCache` | vllm-integration/vllm_v1_worker_gpu/edmm_allocator.py:338-347 | Unmaps the tensor and releases each of its handles once; other tensors keep their contents |
| `Vmm.Allocator.CreatePhysicalHandle` | vllm-integration/vllm_v1_worker_gpu/edmm_allocator.py:311-329 | A handle never seen before, that backs no page |
| `Vmm.Allocator.ReleasePhysicalHandle` | vllm-integration/vllm_v1_worker_gpu/edmm_allocator.py:332-335 | Releasing a handle that backs no page changes no tensor; an unknown or released handle is an error without effect |
| `Vmm.Allocator.Store` | vllm-integration/vllm_v1_worker_gpu/edmm_allocator.py:188-192 | A store through the mapping is a store into the plain byte arrays |
| `Vmm.Gpu.BackRange` | vllm-integration/vllm_v1_worker_gpu/edmm_allocator.py:163-177 | The page loop: every page of the range gets a new handle of its size |
| `PageTable.LoadIsModel` | vllm-integration/vllm_v1_worker_gpu/edmm_allocator.py:191-192 | Reading byte i of a live tensor through the handle table equals the plain per-page byte array |
| `PageTable.RemapGood` | vllm-integration/vllm_v1_worker_gpu/edmm_allocator.py:284-305 | Remapping changes exactly that page of the plain model |
| `PageTable.RemapBack` | vllm-integration/vllm_v1_worker_gpu/edmm_allocator.py:304-308 | Table and handles are restored by the returned handle |
| `PageTable.WriteGood` | vllm-integration/vllm_v1_worker_gpu/edmm_allocator.py:191-192 | A write changes one byte of the plain model, although handles may be anywhere |
| `PageTable.FreeGood` | vllm-integration/vllm_v1_worker_gpu/edmm_allocator.py:338-347 | Freeing one tensor leaves the others as they are |
| `PageTable.AllocateGood` | vllm-integration/vllm_v1_worker_gpu/edmm_allocator.py:163-201 | Allocating one leaves the others as they are |
| `HandleOwnership.RemapConserves` | vllm-integration/vllm_v1_worker_gpu/edmm_allocator.py:304-305 | A remap trades one handle for another: each stays in exactly one place |
| `HandleOwnership.AllocateConserves` | vllm-integration/vllm_v1_worker_gpu/edmm_allocator.py:163-177 | Each created handle is in exactly one place after an allocation |
| `HandleOwnership.FreeConserves` | vllm-integration/vllm_v1_worker_gpu/edmm_allocator.py:338-347 | and after a free |
| `HandleOwnership.PauseConservesIff` | vllm-integration/vllm_v1_core_sched/edmm_hook.py:86-93 | Pausing conserves handles iff the entry it overwrites, if any, holds none |
| `HandleOwnership.LeaveConserves` | vllm-integration/vllm_v1_core_sched/edmm_hook.py:113-173 | Resume moves the handles of a request to the caller, cleanup to the released ones |
| `HandleOwnership.Edmm.Allocate` | vllm-integration/vllm_v1_worker_gpu/edmm_allocator.py:133-201 | The new tensor is there with new handles, which are all that was created; each handle is still in exactly one place |
| `HandleOwnership.Edmm.Free` | vllm-integration/vllm_v1_worker_gpu/edmm_allocator.py:338-347 | The tensor is gone and exactly its handles are released; each handle is still in exactly one place |
| `HandleOwnership.Edmm.Pause` | vllm-integration/vllm_v1_core_sched/edmm_hook.py:76-93 | The request is paused with no handles; when it was not paused before, each handle is still in exactly one place |
| `HandleOwnership.Edmm.Remap` | vllm-integration/vllm_v1_worker_gpu/edmm_allocator.py:258-308 | A remap of a known page succeeds and trades the caller's handle for the old one, any other is an error without effect; each handle is still in exactly one place |
| `HandleOwnership.Edmm.ReleaseHandle` | vllm-integration/vllm_v1_worker_gpu/edmm_allocator.py:332-335 | Nothing is released twice |
| `HandleOwnership.Edmm.Resume` | vllm-integration/vllm_v1_core_sched/edmm_hook.py:113-132 | Resume returns the pause, if there is one, forgets it and hands its handles to the caller |
| `HandleOwnership.Edmm.Cleanup` | vllm-integration/vllm_v1_core_sched/edmm_hook.py:138-166 | Cleanup releases all that the request owned |
| `HandleOwnership.Edmm.CleanupAll` | vllm-integration/vllm_v1_core_sched/edmm_hook.py:168-173 | `cleanup_all` releases all speculative handles |
| `ToolCallHook.ResponseVisible` | vllm-integration/vllm_v1_core_sched/edmm_hook.py:103-118 | In every interleaving a response is visible exactly from its submission, which may precede the pause, to the next resume or cleanup |
| `ToolCallHook.PauseVisible` | vllm-integration/vllm_v1_core_sched/edmm_hook.py:92-118 | Likewise for pauses |
| `ToolCallHook.PauseRemembers` | vllm-integration/vllm_v1_core_sched/edmm_hook.py:76-101 | A pause holds the decision taken with it and exactly the handles attached since |
| `ToolCallHook.ResumeForgets` | vllm-integration/vllm_v1_core_sched/edmm_hook.py:116-118 | After a resume neither the pause nor any earlier response remains; other requests keep theirs |
| `ToolCallHook.PromotedAfterResponse` | vllm-integration/vllm_v1_core_sched/scheduler.py:2132-2140 | A request becomes WAITING only after the scheduler saw a response submitted after the last resume or cleanup |
| `ToolCallHook.NoLostWakeUp` | vllm-integration/vllm_v1_core_sched/scheduler.py:2135-2137 | A pending response is found the next time the scheduler looks, and only then |
| `ToolRuns.WokenIff` | vllm-integration/vllm_v1_core_sched/scheduler.py:2132-2140 | In every step of every run of engine and hook together, with other threads calling the hook also in the middle of the step: a request stops waiting for a tool call iff the scheduler looks at it at a moment when a response is pending, submitted after its last resume or cleanup |
| `ToolRuns.WokenOnlyThere` | vllm-integration/vllm_v1_core_sched/scheduler.py:2132-2140 | Whatever happens in such a run, this is the only way to stop waiting without ending |
| `ToolRuns.WakingConsumes` | vllm-integration/vllm_v1_core_sched/scheduler.py:2135-2138 | Waking consumes the response: the scheduler resumes behind that look, and a response that is pending after the step was submitted after the resume |
| `ToolRuns.ResponseWakes` | vllm-integration/vllm_v1_core_sched/scheduler.py:2132-2140 | A legal run in which a request is woken |
| `ToolCallHook.StillThereAtResume` | vllm-integration/vllm_v1_core_sched/scheduler.py:2136-2138 | The response that was seen is there at the resume iff nobody else resumed or cleaned up the request since, or a new response came after the last time that happened |
| `ToolCallHook.CleanupInBetween` | vllm-integration/vllm_v1_core_sched/scheduler.py:2136-2138 | A legal run in which it is not there |
| `ToolCallHook.EdmmSchedulerHook.SubmitToolResponse` | vllm-integration/vllm_v1_core_sched/edmm_hook.py:103-106 | `submit_tool_response` |
| `ToolCallHook.EdmmSchedulerHook.IsToolResponseReady` | vllm-integration/vllm_v1_core_sched/edmm_hook.py:108-111 | `is_tool_response_ready` |
| `ToolCallHook.EdmmSchedulerHook.OnToolCallPause` | vllm-integration/vllm_v1_core_sched/edmm_hook.py:76-101 | `on_tool_call_pause` |
| `ToolCallHook.EdmmSchedulerHook.OnToolCallResume` | vllm-integration/vllm_v1_core_sched/edmm_hook.py:113-132 | `on_tool_call_resume` |
| `ToolCallHook.EdmmSchedulerHook.CleanupRequest` | vllm-integration/vllm_v1_core_sched/edmm_hook.py:138-166 | `cleanup_request`: forgets the request and releases each of its handles that is not released yet; no tensor changes |

## Left out

- Runs.KvAgrees: does not model that a failed load leaves wrong KV behind. `_handle_invalid_blocks` is modelled and keeps the statement, but the KV of a failed block counts as if it were correct until it is recomputed; what is proved about failed blocks is in InvalidBlocks.
- Runs.SessionUpdateKeepsComputed: sessions get no drafts. With drafts a stop can trim tokens below the computed count (scheduler.py:1661 after 1381), and the statement is not what the code does.
- Delivery.ExactlyOnceDelivery: is about requests that are not sessions; a session clears its output with every chunk, and what it delivers is in SessionStory.
- ArrivalOrder.ArrivalOrderKept: needs FCFS, no LoRA, no connector and no request that is blocked or streaming when added; with skipped requests the order is a different one.
- Progress.OldestIsScheduled: also without Mamba splits and encoder inputs, which may leave nothing to schedule, with chunked prefill on, and when slots are refused only while another request holds blocks.
- Termination.NobodyStarves: under the same conditions, unpaused, and without resets of running requests during the counted steps.
- StepResults.CountsAreMaximal: as long as no scheduled request was taken back, which happens only under PRIORITY; the budget it gives back comes too late for those already scheduled.
- StepResults.EveryRequestHasItsFate: which running requests are still scheduled in a step that preempts somebody is not said beyond the books and the order of victims.
- LoraBound.LorasNeverExceed: without encoder inputs and Mamba splits, which may pass a running request over while its LoRA stays in `running`.
- Streaming.CounterIsExact: sessions take no drafts, as above.
- MambaSplit.PrefillStaysAligned: under the condition that no chunk falls into the excepted case (`DecodesPastCache`).
- KvLayout.PaddedView: the block dimension is the outermost one and there is no split into kernel blocks, as the source assumes; without that assumption see PaddedSoundIff.
- KvLayout.UpdateHybridLayout: the dimensions after K/V and block are a dense view of one block.
- EncoderInputs.TrySchedule: decoder-only models, without the EAGLE shift of the computed tokens; inputs are sorted and do not overlap.
- Vmm.Allocator.RemapBlock: the new handle is of the page's size and backs no page, as its caller must see to.
- ToolCallHook.EdmmSchedulerHook.CleanupRequest: no handle that is released backs a page of a live tensor. The driver would put off such a release until the page is unmapped, which the model of the driver does not have; in the system as a whole it cannot come to it (HandleOwnership: every handle is in one place).
- SessionLimits.ChunkFitsIff: the counts after the first plan are those before encoder inputs and block alignment, and the session is not preempted; a preempted one is admitted again without regard to the model length.
- RequestObject.Request.Less: requests with the same id are compared by address in the source.
- Asynchronous scheduling and pipeline parallelism (`num_output_placeholders`, frames in flight, discarded tokens): most of that state is set elsewhere.
- A resumable request that stops while PREEMPTED: needs two steps in flight, which the runs here do not have.
- KV manager, encoder cache manager, request queues, connectors, `check_stop`, block hasher: only what they promise. FCFS queues are sequences, `prepend_requests` puts requests back in the order in which they were set aside, priority queues are lists with a minimum.
- Blocks are counted by the KV manager only; which request holds blocks and what KV they contain is in the model, block numbers appear only in the recovery from failed loads.
- Prefix-cache contents, block hashes, eviction, cascade attention, common prefix blocks.
- Routing of messages to several clients, and the order in which the messages of requests that fail together are sent (the source iterates over a set).
- Pooling requests, encoder-decoder models, routed experts, logprobs, prompt logprobs, statistics, KV events, tracing, timestamps.
- Grammars: whether one is ready and whether it rejects the new tokens are answers; bitmasks and `update_draft_token_ids_in_output` are not modelled.
- Contents and positions of multimodal features of sessions; `max_tokens` of a session, which the source does not update with a chunk either.
- Which decision the hook takes from the CPU load is modelled, sampling the load and detecting the sentinel are not. What happens to the state that scheduler.py:2138 drops is outside the hook's boundary.
- Failing driver calls, contexts, access flags, synchronisation, reference counts of handles in the driver.
- Attention backends, metadata, sharing of layers, data types beyond their size, and `cache_engine_patched.py`.
- Benchmarks, tests, CUDA sources and results.
