# Checkpoint recovery for Temporal activities: a Dafny model

This project models the checkpoint/resume protocol of a repository that runs long agent tasks as Temporal activities. It has three parts.

- **Generic runner and adapters.**
  - `run_adapter` restores an `AgentCheckpoint` from the last heartbeat the host handed back.
  - It decides between resume, forced restart (the adapter cannot use checkpoints) and fresh start.
  - It sends one initial heartbeat, then sets up the adapter and drains its step stream. After each `StepResult` it overwrites the checkpoint and heartbeats it at once.
  - Two adapters implement the adapter contract:
    - the sleeping adapter never resumes and yields `sleep_1 … sleep_n`;
    - the LangGraph adapter continues its superstep counter from the checkpoint, and resumes the graph's pending work from its own store.
- **The research workflow.** It runs the agent activity in a loop. Each activity input carries the latest approval signal as its resume value. When the agent reports an interrupt, the workflow waits 30 minutes for an approval, then either expires with a fixed message or runs the activity again.
- **Order fulfilment.** The workflow runs payment, inventory, optional packing, an approval wait and delivery. Each activity gets its own retry policy.
  - Payment checks the card's `MM/YY` expiry against the current month.
  - Inventory fails on attempts 1–4 while the service is down.
  - Packing resumes after the last item it heartbeated.

The host is not modelled as code. Temporal, the LangGraph engine and the LLM nodes appear as parameters and oracles:

- **Heartbeat details.** `Runner.ActivityInfo` and the packing `details` hold the payload the host hands back.
- **Retry policy.** `Host.Execute` reads a retry policy over the sequence of per-attempt outcomes. The host stops at the first success, at a failure the policy does not retry, or when the attempt limit is spent. A policy without a limit is bounded by a host `horizon`.
- **Graph engine.** `LangGraph.GraphStore` is an oracle. It holds the per-thread snapshots (`next`, `checkpoint_id`, `values`) and an `engine` function from a stored state and a stream input to the updates it streams and the exception, if any, the stream raises after them.
- **Research host.** A finite sequence of `ResearchWorkflow.Turn`s decides, for each pass, which signals arrive, what each attempt returns and whether a signal beats the timeout.
- **Order host.** `OrderWorkflow.OrderEnv` supplies the current month, the packing crash points and when approvals arrive.

Stateful pieces are classes, proved against specification functions:

- The adapters are classes with a ghost lifecycle and a ghost history of the steps they yielded:
  - `Shared.Phase` (Created, Ready, Running, Exhausted, Raised) is the lifecycle;
  - the async generator `run` becomes `Start` followed by repeated `Next`, each of which yields a step, ends the stream or raises.
- The two workflows are classes whose fields the signal handlers overwrite.
- `ResearchAgentWorkflow.Run` and `OrderWorkflow.Run` are proved equal to `RunSpec` and `OrderSpec`. The properties of the workflows are lemmas about those functions.
- The runner's loop and the packing loop are `while` loops proved against `Snapshots` and `PackOutcome`.

Where the code and its documentation differ, the model follows the code:

- **Sleeping restart.** A retried sleeping run starts again from a fresh checkpoint. Its first heartbeat has count 0 whatever the previous attempt reached, so the count the host sees does go back (`Runner.RunSleepingAgent`).
- **Early approvals.** The research workflow stores an approval as soon as it arrives, including one sent while the activity runs, and never clears it. Every later interrupt therefore passes the wait at once (`ResearchWorkflow.ApprovalNeverCleared`).
- **Setup argument.** After a forced restart the runner passes `None` to `setup`, but on a fresh start it passes the fresh checkpoint (`Runner.Decide`).
- **Pack message.** The packing result reports the total item count even when the resumed attempt packed fewer items or none (`OrderActivities.ResumeSkipsPacked`).
- **Unreachable approval path.** The LangGraph adapter's output always has `interrupted` false (`LangGraph.LangGraphAdapter.GetFinalOutput`). So with this adapter the research workflow's approval path is reachable only if some other activity result reports an interrupt. The workflow is modelled over any activity result.
- **Missing record fields.** `langgraph_agent/shared.py` declares only `AgentCheckpoint`, `AgentInput(query)` and `AgentOutput(final_report, thread_id, superstep_count)`. The other records and fields that the core reads are declared with the field sets and defaults their uses require:
  - `StepResult`, `ApprovalResponse`, `SleepingInput` and `SleepingOutput`;
  - `needs_approval` and `resume_value` on `AgentInput`;
  - `interrupted` and `interrupt_value` on `AgentOutput`;
  - `items_to_pack` on `Order`, and `PackingCheckpoint`.

## Model

| member | source | states |
|---|---|---|
| Shared.RecordDefaults | langgraph_agent/shared.py:6-13 | A fresh checkpoint has no checkpoint id, count 0 and no node. Supplied checkpoint and step fields are kept. `checkpoint_id` of a step, `needs_approval`/`resume_value` of an input, `interrupted`/`interrupt_value` of an output and `feedback` of an approval take their defaults. The sleeping input defaults to 30 s and 4 steps. |
| AdapterBase.Agent.Setup | langgraph_agent/adapters/base.py:27-37 | Setup takes the thread id and optional checkpoint, records the checkpoint for the run and moves the adapter from Created to Ready with nothing yielded. |
| AdapterBase.Agent.Start | langgraph_agent/adapters/base.py:39-52 | Starting the run moves the adapter to Running, keeps the setup state and records the input. |
| AdapterBase.Agent.Next | langgraph_agent/adapters/base.py:39-52 | Each pull does one of three things. It yields one `StepResult`, appended to the history. It ends the stream (Exhausted). Or it raises the stream's exception (Raised) with the history unchanged. The exception a stream will raise is fixed once it starts. A measure strictly decreases, so the stream is finite. |
| AdapterBase.Agent.GetFinalOutput | langgraph_agent/adapters/base.py:54-60 | The final output may be read only once the stream is exhausted, and it is the adapter's accumulated output. |
| AdapterBase.Agent.SupportsCheckpointing | langgraph_agent/adapters/base.py:21-25 | An adapter supports checkpoint resumption exactly when it is the LangGraph adapter. |
| Sleeping.SleepingAdapter.constructor | langgraph_agent/adapters/sleeping.py:22-26 | A new adapter has no steps, no sleep time, 30 s per step and 4 steps. |
| Sleeping.SleepingAdapter.Setup | langgraph_agent/adapters/sleeping.py:32-39 | Setup resets the completed steps and the sleep total to zero, whatever checkpoint it is given. |
| Sleeping.SleepingAdapter.Start | langgraph_agent/adapters/sleeping.py:41-44 | The run takes its step length and step count from the input and starts at step 1. |
| Sleeping.SleepingAdapter.Next | langgraph_agent/adapters/sleeping.py:46-55 | Step i (1 ≤ i ≤ n) yields `(i, "sleep_i", None)`, sets the steps completed to i and adds one step length to the total. After step n the stream ends. It never raises. |
| Sleeping.SleepingAdapter.GetFinalOutput | langgraph_agent/adapters/sleeping.py:57-62 | After the run, steps completed equals max(n, 0), the total equals that count times the step length, and one step was yielded per completed step. |
| Sleeping.SleepingAdapter.SupportsCheckpointing | langgraph_agent/adapters/sleeping.py:28-30 | The sleeping adapter does not support checkpoint resumption. |
| Sleeping.SleepStepNamesDistinct | langgraph_agent/adapters/sleeping.py:51-55 | Different sleeping steps carry different names. |
| LangGraph.FinalReport | langgraph_agent/adapters/langgraph.py:95-99 | The report is the `final_report` value when the state has it, and `""` otherwise. |
| LangGraph.NodeName | langgraph_agent/adapters/langgraph.py:74-81 | An update's node name is the first key of the update dict, and `"unknown"` for an empty dict or an update that is not a dict. |
| LangGraph.GraphStepsContinue | langgraph_agent/adapters/langgraph.py:74-91 | Steps of a stream from count b are numbered b+1, b+2, … in strictly increasing order, and each carries the checkpoint id the engine persisted for it. |
| LangGraph.LangGraphAdapter.constructor | langgraph_agent/adapters/langgraph.py:22-27 | A new adapter has an empty thread id, counter 0 and is not resuming. |
| LangGraph.LangGraphAdapter.Setup | langgraph_agent/adapters/langgraph.py:33-54 | Setup sets the thread id. The counter becomes the checkpoint's superstep count when there is a checkpoint and is unchanged otherwise. `resuming` holds exactly when the store's state for the thread has pending `next` nodes. |
| LangGraph.LangGraphAdapter.Start | langgraph_agent/adapters/langgraph.py:56-73 | The run streams what the engine produces from the thread's stored state and the stream input, counting from the setup counter. The input (`StreamInput`) is `None` when resuming, and otherwise a fresh state holding the query with empty messages, search results, analysis and report. |
| LangGraph.LangGraphAdapter.Next | langgraph_agent/adapters/langgraph.py:71-91 | While updates remain, each pull yields the next one (see `Advance`). Once they are used up, the stream raises the engine's exception if it has one, with the history and the store unchanged, and ends otherwise. |
| LangGraph.LangGraphAdapter.Advance | langgraph_agent/adapters/langgraph.py:74-91 | An update increments the counter and yields it with the update's node name and the checkpoint id the engine persisted for it. The store records that snapshot, and the update leaves the pending list. |
| LangGraph.LangGraphAdapter.GetFinalOutput | langgraph_agent/adapters/langgraph.py:93-105 | The output has the report from the store's final values, the setup thread id and the setup count plus the number of updates. It is never interrupted. |
| LangGraph.LangGraphAdapter.SupportsCheckpointing | langgraph_agent/adapters/langgraph.py:29-31 | The LangGraph adapter supports checkpoint resumption. |
| Runner.CheckpointFromRaw | langgraph_agent/runner.py:26 | A raw record becomes a checkpoint exactly when it has only the dataclass's keys, a string `thread_id`, and each present field of its declared type; otherwise the result is a TypeError. Present fields keep the values given. Absent fields take their defaults. |
| Runner.CheckpointRawRoundTrip | langgraph_agent/runner.py:23-26 | A checkpoint serialised to a raw record converts back to the same checkpoint. |
| Runner.RestoreCheckpoint | langgraph_agent/runner.py:19-26 | Restoring gives nothing exactly when the heartbeat details are empty. |
| Runner.RestoreLastHeartbeat | langgraph_agent/runner.py:19-26 | Restoring from details whose first element is a checkpoint, or its raw form, gives that checkpoint. |
| Runner.Decide | langgraph_agent/runner.py:56-85 | Resume happens iff a checkpoint was restored and the adapter supports checkpoints, and forced restart iff one was restored and it does not. Resume uses the restored checkpoint for setup and as the working checkpoint. Forced restart passes `None` to setup with a fresh working checkpoint. Fresh start passes the fresh checkpoint to setup. |
| Runner.ApplyStep | langgraph_agent/runner.py:98-101 | One step overwrites the working checkpoint's count and node with the step's number and name. It replaces the checkpoint id only when the step carries a non-empty one, and keeps the thread id. |
| Runner.FoldFields | langgraph_agent/runner.py:96-101 | After the steps, the working checkpoint keeps the thread id and has the last step's number and name. Its checkpoint id is the last non-empty id a step carried, or the original id if none carried one. |
| Runner.SnapshotIsPrefixFold | langgraph_agent/runner.py:96-110 | The k-th step heartbeat is the checkpoint after applying steps 1..k. |
| Runner.HeartbeatAt | langgraph_agent/runner.py:98-110 | The k-th step heartbeat carries step k's number and name and the thread id. |
| Runner.DriveSteps | langgraph_agent/runner.py:96-117 | The loop pulls until the stream ends (Exhausted) or raises (Raised). It sends exactly one heartbeat per yielded step, each the working checkpoint after that step, and returns the exception the stream raised, if any. |
| Runner.RunAdapter | langgraph_agent/runner.py:50-128 | A malformed heartbeat payload fails before any heartbeat or setup. Otherwise there is one initial heartbeat with the decided working checkpoint, then setup with the decided argument, then one heartbeat per step. If the stream raises, the result is that exception, after the heartbeats of the steps before it. Otherwise the result is the adapter's final output. |
| Runner.SleepingHeartbeats | langgraph_agent/activities.py:22-25 | On a sleeping run, the heartbeat for step k is `(workflow id, None, k, "sleep_k")`. |
| Runner.SleepingFinished | langgraph_agent/adapters/sleeping.py:46-62 | An exhausted sleeping adapter has yielded exactly the steps 1..n and reports n steps and n times the step length. |
| Runner.RunSleepingAgent | langgraph_agent/activities.py:22-25 | Whatever the host hands back, a sleeping run heartbeats a fresh checkpoint and then steps 1..n with count k, and returns n steps and n times the step length. |
| Runner.RunLangGraphAgent | langgraph_agent/activities.py:16-19 | A LangGraph run heartbeats the restored checkpoint (or a fresh one) and then one checkpoint per update, counting on from the restored count. The store ends at the last persisted state. If the engine's stream raises, the result is that exception. Otherwise the output carries the store's report, the thread id and the final count (`GraphRunReported`). |
| Runner.GraphRunEnded | langgraph_agent/runner.py:94-128 | What the runner reports for a LangGraph agent, stated over the engine's updates: the heartbeats, the final thread state, and the raised exception or the final output. |
| Runner.GraphHeartbeatsIncrease | langgraph_agent/runner.py:57-110 | On a LangGraph run, the k-th heartbeat after the initial one has the restored count plus k, so the counts the host sees strictly increase. |
| Host.ExecuteFromMeaning | langgraph_agent/workflow.py:52-60 | The host's verdict, given the attempts already made, follows the same three cases as `Host.ExecuteMeaning`. |
| Host.ExecuteMeaning | langgraph_agent/workflow.py:52-60 | **Succeeded:** the first success, after only retried failures and within the attempt limit. **Gave up:** a failure whose type is non-retryable or that used the last attempt. **Still retrying:** every attempt given failed and was retried. |
| Host.SingleAttempt | order_fulfillment/workflow.py:36 | With `maximum_attempts=1` the verdict is the first attempt's result. |
| Text.ParseInt | order_fulfillment/activities.py:13 | `int` succeeds exactly on a non-empty digit string, optionally after one `-` or `+`, and gives its decimal value, negated after `-`. Anything else, `""` included, is a ValueError. |
| Text.ParseIntOfNatToString | order_fulfillment/activities.py:30 | `int(str(n)) == n` for every n ≥ 0. |
| Text.NatToStringInjective | order_fulfillment/activities.py:36 | Different attempt numbers give different strings. |
| Text.Split | order_fulfillment/activities.py:13 | `split` returns at least one piece, none containing the separator, and joining the pieces with it gives back the string. |
| Text.SplitPair | order_fulfillment/activities.py:13 | Splitting `a/b`, where neither a nor b contains `/`, gives exactly `[a, b]`. |
| ResearchWorkflow.ActivityAttempts | langgraph_agent/workflow.py:47-61 | A decided activity took 1 to 5 attempts, and five attempts always decide it. An `AuthenticationError` on the first attempt is final. |
| ResearchWorkflow.IssuedInputs | langgraph_agent/workflow.py:32-45 | Every activity input carries the original query and `needs_approval`. At most one input is issued per turn, and any ended run issued at least one. |
| ResearchWorkflow.ActivityInput | langgraph_agent/workflow.py:34-45 | Each pass's input keeps the workflow's query and `needs_approval`. It has a resume value exactly when an approval is recorded, and then that value holds the approval's `approved` and `feedback`. |
| ResearchWorkflow.ResumeFollowsApproval | langgraph_agent/workflow.py:37-44 | The k-th input's `resume_value` is the approval recorded by then, and from the second input on that approval is present. |
| ResearchWorkflow.OutcomeOfLastTurn | langgraph_agent/workflow.py:63-80 | Earlier passes were interrupts that looped back. A completed run returns the last non-interrupted result's report. An expired run had an interrupt with no approval at any point and issued no further activity. A failed run carries the activity's error. |
| ResearchWorkflow.ApprovalNeverCleared | langgraph_agent/workflow.py:74-86 | Once an approval is recorded the run never expires and the approval stays recorded. |
| ResearchWorkflow.ResearchAgentWorkflow.constructor | langgraph_agent/workflow.py:21-22 | A workflow starts with no approval. |
| ResearchWorkflow.ResearchAgentWorkflow.ApproveResearch | langgraph_agent/workflow.py:24-27 | The signal overwrites the approval with `(approved, feedback)`. |
| ResearchWorkflow.ResearchAgentWorkflow.DeliverSignals | langgraph_agent/workflow.py:24-27 | After a batch of signals the approval equals the specification's "last signal wins" value. |
| ResearchWorkflow.ResearchAgentWorkflow.Run | langgraph_agent/workflow.py:29-86 | The loop's outcome, issued inputs and final approval equal `RunSpec` over the turns, starting from the approval held when the run begins. |
| OrderActivities.ParseExpiry | order_fulfillment/activities.py:13-14 | A successful parse split the expiry at `/` into exactly two pieces. The first parses to the month and the second to the year minus 2000. Any other input is a ValueError. |
| OrderActivities.ParsedExpiryHasOneSlash | order_fulfillment/activities.py:13 | A parsable expiry contains exactly one `/`. The text before it parses to the month, and the text after it to the year minus 2000. |
| OrderActivities.ParseExpiryOfParts | order_fulfillment/activities.py:13-14 | Two `/`-free integer strings joined by `/` parse to month = the first and year = 2000 + the second. |
| OrderActivities.ParseExpiryOfCard | order_fulfillment/activities.py:13-14 | `MM/YY` spelled with two digits each parses to year 2000+YY and month MM. |
| OrderActivities.CardExpiredIsEarlierMonth | order_fulfillment/activities.py:16 | For valid months, a card is expired exactly when its month is before the current one. A card expiring this month is accepted. |
| OrderActivities.AcceptedStaysAcceptedEarlier | order_fulfillment/activities.py:16 | A card accepted in some month is accepted in every earlier month. |
| OrderActivities.ProcessPayment | order_fulfillment/activities.py:10-19 | A successful payment returns "Payment processed for order <id>". |
| OrderActivities.PaymentOfCard | order_fulfillment/activities.py:13-19 | Payment with card `MM/YY` succeeds exactly when not (year < now.year, or same year and month < now.month). Otherwise it fails with "Invalid credit card expiry". |
| OrderActivities.ReserveInventory | order_fulfillment/activities.py:22-40 | Reservation fails exactly when the service is down and the attempt is at most 4. |
| OrderActivities.InventoryUnderRetries | order_fulfillment/activities.py:25-40 | With the service down and unlimited retries, attempt 5 succeeds with "(recovered after 5 attempts)", and fewer attempts leave the host retrying. With one attempt allowed, a down service gives up with "(attempt 1)" and a working one succeeds on attempt 1. |
| OrderActivities.DeliverOrder | order_fulfillment/activities.py:44-47 | Delivery returns "Order <id> delivered": the order id between that fixed prefix and suffix. |
| OrderActivities.LastProcessedIndex | order_fulfillment/activities.py:64-68 | A `PackingCheckpoint` yields its index. A raw record succeeds exactly when it has exactly the two fields and an integer (or boolean) index, and then yields that integer (a boolean as 1 or 0). Anything else is a TypeError. |
| OrderActivities.PackingRawRoundTrip | order_fulfillment/activities.py:64-68 | A checkpoint in raw form restores the same index as the object. |
| OrderActivities.StartIndex | order_fulfillment/activities.py:60-68 | Packing starts at 0 without heartbeat details, and at `last_processed_idx + 1` with them. A bad payload propagates its error. |
| OrderActivities.ItemAt | order_fulfillment/activities.py:75 | Indexing succeeds exactly for −n ≤ idx < n, with Python's negative indexing. |
| OrderActivities.PackOrderItems | order_fulfillment/activities.py:50-88 | The loop's result and heartbeats equal `PackOutcome` of the items and heartbeat details. |
| OrderActivities.PackedMessage | order_fulfillment/activities.py:88 | The packing result is "Packed <n> items", where `int` reads n back as the list's length. |
| OrderActivities.PackHeartbeatsInOrder | order_fulfillment/activities.py:74-86 | From start index s, the heartbeats are `(s+k, items[s+k])` for each remaining item, and their indices strictly increase. |
| OrderActivities.ResumeSkipsPacked | order_fulfillment/activities.py:60-88 | A fresh attempt heartbeats every item. Resuming from the heartbeat of item i packs only the items after i. The result is "Packed <total> items" either way, and the raw payload behaves like the object. |
| OrderWorkflow.ResumeOutcome | order_fulfillment/activities.py:60-88 | Resuming from the heartbeat of item j−1 heartbeats exactly items j.. and reports all items packed. |
| OrderWorkflow.HostPackingProgress | order_fulfillment/workflow.py:50-56 | Across retried attempts that each resume from the last heartbeat the host received:<br>• the heartbeats the host receives are the items in order, each once;<br>• success comes only after the last item, with what a successful attempt returns;<br>• the attempts stay within the limit of 10. |
| OrderWorkflow.PackingAcrossAttempts | order_fulfillment/workflow.py:48-56 | Whatever the crash points, packing under ten attempts heartbeats each item once, in order, and succeeds only with every item packed. |
| OrderWorkflow.CallsFollowScript | order_fulfillment/workflow.py:32-72 | Activities run in the order payment, inventory, packing (only if there are items), delivery. Each activity before the last succeeded, so a failure stops the run before any later activity. |
| OrderWorkflow.ActivitiesFollowScript | order_fulfillment/workflow.py:32-56 | The specification `Activities` meets the same properties as `ScheduleActivities`, whatever the host does. |
| OrderWorkflow.EachCallFits | order_fulfillment/workflow.py:32-70 | Each of the four calls runs under its own policy and never exceeds that policy's attempt limit. |
| OrderWorkflow.PolicyChoice | order_fulfillment/workflow.py:32-56 | Payment gets one attempt. Inventory is unlimited exactly when the service is down, and gets one attempt otherwise. Packing gets ten and delivery the default. No call exceeds its policy's limit. |
| OrderWorkflow.ApprovalGatesDelivery | order_fulfillment/workflow.py:58-72 | Without an approval by the timeout the run returns "Order expired" and never schedules delivery. Delivery only follows an approval, runs at most once and last. A fulfilled run returns "Order fulfilled". |
| OrderWorkflow.DeliveredOnFirstAttempt | order_fulfillment/workflow.py:66-70 | Under the default policy, the delivery that runs succeeds on its first attempt with "Order <id> delivered". |
| OrderWorkflow.PackedOrderHeartbeats | order_fulfillment/workflow.py:48-56 | Packing heartbeats are `(k, items[k])` in order. A run that got past packing received one for every item. |
| OrderWorkflow.ExpiredCardStopsAtPayment | order_fulfillment/workflow.py:32-37 | An expired card stops the run at payment after its single attempt, with the expiry error. |
| OrderWorkflow.OutageRecovers | order_fulfillment/workflow.py:38-46 | With the service down, nothing to pack and an approval in time, inventory succeeds on attempt 5 and the order is fulfilled. |
| OrderWorkflow.OrderWorkflow.constructor | order_fulfillment/workflow.py:19-20 | A workflow starts unapproved. |
| OrderWorkflow.OrderWorkflow.ApproveOrder | order_fulfillment/workflow.py:22-24 | The signal sets `approved`, whatever it was, so it is idempotent. |
| OrderWorkflow.OrderWorkflow.ScheduleActivities | order_fulfillment/workflow.py:32-56 | The calls before the wait follow the order payment, inventory, packing (only if there are items). Every call before the last succeeded. Nothing failed exactly when all of them ran and succeeded. The packing heartbeats are `(k, items[k])` in order, one per item once nothing failed. The result equals the specification `Activities`. |
| OrderWorkflow.OrderWorkflow.Run | order_fulfillment/workflow.py:26-72 | The run's outcome, calls, packing heartbeats and final `approved` flag equal `OrderSpec`, starting from the flag held when the run begins. |

## Left out

**Runtime and SDK**
- The background heartbeat loop, its cancellation and the `finally` cleanup (runner.py:87-92, 130-135) are asyncio concurrency. They only re-send the current checkpoint, whose values the model's per-step heartbeats already carry.
- Temporal's retry scheduling is not modelled as code. Backoff intervals, `start_to_close_timeout`, `heartbeat_timeout` and heartbeat throttling are left out. The host is an oracle that hands back the last heartbeat it received.
- Retry policies are modelled by their maximum attempts and non-retryable type names only.
- Approval signals are not timed. Signals that arrive while an activity runs are applied when it returns, and signals after a run has ended are not modelled. Whether the approval beats the 30-minute or 30-second timeout is a host input.
- `Runner.RunAdapter`: only the step stream can raise, and only after the updates it delivered. Exceptions from `setup`, from `get_final_output`, or from building the graph and its checkpointer are not modelled. The sleeping stream never raises.
- A worker crash is modelled only for packing. Payment, inventory and delivery fail only through their own errors.

**Bounded modelling**
- The research loop consumes a finite sequence of turns. A policy without a limit gets a finite `horizon` of attempts. Runs that reach either bound end as `OutOfTurns`, `Retrying` or `StillRetrying` instead of going on.
- `Runner.CheckpointFromRaw` rejects raw fields of the wrong type with TypeError. Python's dataclass would store them unchecked.

**Values and types**
- `Text.ParseInt` does not model Python `int`'s whitespace and underscore handling. Its non-ASCII digit handling is not modelled either.
- The final state values are modelled as a map of string channels.
- Floating-point rounding of `total_sleep_time` is not modelled. Seconds are exact reals.
- The wall clock in `process_payment` is the parameter `now`.
- A boolean `last_processed_idx` in a raw packing payload counts as 1 or 0, as Python's `bool` is an `int`.

**Other code**
- The LangGraph engine, its SQLite checkpointer and the LLM nodes (langgraph_agent/graph.py) are the `LangGraph.GraphStore` oracle.
- `asyncio.sleep`, `rich` console output and logging are not modelled.
- langgraph_agent/activities.py is modelled only as `Runner.RunSleepingAgent` and `Runner.RunLangGraphAgent`.
- The scripts, noxfile.py and the package `__init__.py` files are not part of this model.
