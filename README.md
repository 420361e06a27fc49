# FastA2A-Agno-Llamaindex, modelled in Dafny

FastA2A-Agno-Llamaindex runs two A2A task services. One is backed by an Agno
agent and the other by a LlamaIndex completion model. Three orchestration
scripts chain tasks across the two services. This project models those scripts
and the two workers, and proves what they do.

- **Waiters.** The three orchestrators poll `get_task` in a loop.
  - `orchestrate.py` has a bounded waiter. Running replies and retried server
    errors share one budget of 60 attempts, with sleeps of 2 and 5 seconds.
  - `orchestrate_parallel.py` and `orchestrate_expert.py` have unbounded
    waiters.

  Each loop is an imperative `method`. It is proved equal to a function
  (`BoundedWait`, `UnboundedWait`, `ExpertWait`) over the outcomes the
  `get_task` calls observe: the same result, calls and delays. The function is built from one classification per
  outcome: finish, raise, or retry after a delay. The first outcome that is not
  a retry decides the wait. When the observed outcomes run out before that, the
  wait is `Pending`.
- **Workflows.** Each workflow is a `method` that submits prompts in the order
  the script does. It is proved equal to a chain function. That function gives,
  for the outcomes of the waits, the tasks submitted, in order, and the
  result. The workflows are:
  - the 4-step collaborative workflow;
  - the parallel fan-out with a synthesis;
  - the two-round debate;
  - the 5-phase expert consultation.

  Lemmas over arbitrary wait outcomes then state:
  - which earlier results each prompt embeds;
  - where each chain stops;
  - what it returns;
  - that the finishing order inside a task group does not matter.
- **Expert consultation.** `CollaborativeOrchestrator` is a `class`. Its
  `conversation_history` grows by one truncated entry per phase that returns.
  It also keeps the log of the tasks it has submitted.
- **Workers.** The two workers are classes over a shared `TaskStore`. Each
  store write is logged, and the store is the initial tasks with every logged
  write applied. `run_task` and `cancel_task` are proved against that log.
  Round-trip lemmas connect the two sides:
  - the prompt a worker selects is the one the orchestrator sent;
  - the answer an orchestrator reads back is the one the worker stored.

Modules, in dependency order:
- `Strings`: substring tests, Python-style truncation and `str(n)`.
- `Schema`: the A2A wire types.
- `Polling`: the classification and the waits built on it.
- `Workflow`: the services, the prompts and task submission.
- `Orchestrate`, `OrchestrateParallel`, `OrchestrateExpert`: the orchestration
  scripts.
- `Storage`, `Worker`, `Agno`, `LlamaIndex`: the store and the two workers.

## Model

| member | source | states |
|---|---|---|
| Schema.ReplyText | FastA2A-Agno-Llamaindex/orchestrate.py:18 | `artifacts[0]["parts"][0]["text"]` is found exactly when the first artifact's first part is a text part, and it is that part's text. |
| Schema.FirstText | FastA2A-Agno-Llamaindex/agno_worker.py:31-32 | `next(...)` finds nothing exactly when no part is a text part. Otherwise it gives the text of a text part with no text part before it. |
| Schema.TaskMessage | FastA2A-Agno-Llamaindex/orchestrate.py:43-46 | The message sent has role "user" and exactly one part. |
| Schema.AnswerArtifact | FastA2A-Agno-Llamaindex/agno_worker.py:58-62 | The artifact a worker stores has index 0, `lastChunk` set and exactly one part. |
| Schema.TaskMessagePromptRoundTrip | FastA2A-Agno-Llamaindex/agno_worker.py:31-32 | A worker's prompt selection applied to a submitted message gives back exactly the prompt sent. |
| Schema.AnswerArtifactRoundTrip | FastA2A-Agno-Llamaindex/orchestrate.py:18 | An orchestrator reading a stored answer artifact gets exactly the worker's answer. |
| Strings.Contains | FastA2A-Agno-Llamaindex/orchestrate.py:30 | `sub in s` holds only when `sub` is no longer than `s`. |
| Strings.Truncate | FastA2A-Agno-Llamaindex/orchestrate_expert.py:34-35 | A text of at most the limit is kept as it is. A longer one becomes its first `limit` characters and then "...". The result is never longer than limit + 3. |
| Strings.TruncateKeepsPrefix | FastA2A-Agno-Llamaindex/orchestrate_expert.py:34-35 | The truncated text starts with as much of the original as the limit allows. |
| Strings.DecimalString | FastA2A-Agno-Llamaindex/orchestrate.py:38 | `str(n)` of a natural number is a non-empty string of decimal digits. |
| Strings.DecimalStringReadsBack | FastA2A-Agno-Llamaindex/orchestrate.py:38 | Reading the digits of `str(n)` back, most significant first, gives `n`. |
| Strings.DecimalStringOf120 | FastA2A-Agno-Llamaindex/orchestrate.py:38 | `str(60 * 2)` is "120". |
| Polling.Settle | FastA2A-Agno-Llamaindex/orchestrate_parallel.py:8-20 | A loop without a limit makes at most one call per observed outcome. It is still pending exactly when every observed outcome asks to poll again. |
| Polling.SettleDecidedAt | FastA2A-Agno-Llamaindex/orchestrate_parallel.py:8-20 | After k retries and a deciding outcome at k, the loop has made k + 1 calls and slept as the k retries said, and its result is what outcome k decides. |
| Polling.SettleUndecided | FastA2A-Agno-Llamaindex/orchestrate_parallel.py:8-20 | When only retries are observed, the loop is pending after one call and one sleep per outcome. |
| Polling.SettleWithin | FastA2A-Agno-Llamaindex/orchestrate.py:11-38 | The bounded loop makes at most `limit` calls. Once `limit` outcomes are observed it is never pending. |
| Polling.SettleWithinDecidedAt | FastA2A-Agno-Llamaindex/orchestrate.py:11-36 | Below the limit, the first deciding outcome decides, exactly as without a limit. |
| Polling.SettleWithinTimesOut | FastA2A-Agno-Llamaindex/orchestrate.py:11-38 | `limit` retries in a row end in the timeout exception, after `limit` calls and `limit` sleeps. |
| Polling.SettleWithinUndecided | FastA2A-Agno-Llamaindex/orchestrate.py:11-34 | Fewer than `limit` outcomes, all of them retries, leave the bounded loop pending. |
| Polling.SettleWithinIsWindowedSettle | FastA2A-Agno-Llamaindex/orchestrate.py:8-38 | The bounded loop is the unbounded one run on the first `limit` outcomes. The one difference: where that one is still pending after `limit` polls, the bounded one raises the timeout. |
| Polling.SettleWithinShape | FastA2A-Agno-Llamaindex/orchestrate.py:8-38 | A bounded loop ends in exactly one of three ways: a deciding outcome below the limit, the timeout after `limit` retries, or pending when the observation is used up. |
| Workflow.Show | FastA2A-Agno-Llamaindex/orchestrate_parallel.py:103-110 | An f-string renders a present result as itself and a missing one as "None". |
| Workflow.Render | FastA2A-Agno-Llamaindex/orchestrate.py:63-69 | The prompt text starts with its template's label in brackets and has at least one line per embedded value. |
| Workflow.SendTaskToService | FastA2A-Agno-Llamaindex/orchestrate.py:40-50 | Exactly one task is submitted, carrying a "user" message with the prompt as its one text part, and its id is returned. |
| Workflow.SubmittedPromptReachesWorker | FastA2A-Agno-Llamaindex/orchestrate.py:42-47 | The prompt a worker selects from a submitted task is the rendered prompt. |
| Orchestrate.IsServerError | FastA2A-Agno-Llamaindex/orchestrate.py:30 | A text the `except` clause retries has at least three characters. |
| Orchestrate.PlainTextNoServerError | FastA2A-Agno-Llamaindex/orchestrate.py:30 | A text with neither a '5' nor an 'S' is never retried as a server error. |
| Orchestrate.FailedMessage | FastA2A-Agno-Llamaindex/orchestrate.py:21-22 | The message starts with the service name. After "<service> task failed: " it reads back the error text, or the placeholder when there is none. |
| Orchestrate.CanceledMessage | FastA2A-Agno-Llamaindex/orchestrate.py:24 | The message is the service name followed by 18 more characters. |
| Orchestrate.TimeoutMessage | FastA2A-Agno-Llamaindex/orchestrate.py:38 | After the service name comes " task timed out after ", `str(60 * 2)` and " seconds". |
| Orchestrate.Handle | FastA2A-Agno-Llamaindex/orchestrate.py:29-36 | The `except` clause never returns. It retries after 5 seconds exactly on a server error, and otherwise re-raises the same message. |
| Orchestrate.PollStep | FastA2A-Agno-Llamaindex/orchestrate.py:13-36 | One iteration returns only for a completed reply with text, and returns that text. A reply that is still running means polling again after 2 seconds. |
| Orchestrate.BoundedWait | FastA2A-Agno-Llamaindex/orchestrate.py:6-38 | The waiter calls `get_task` at most 60 times. With 60 observed outcomes it always returns or raises. |
| Orchestrate.WaitForTaskCompletion | FastA2A-Agno-Llamaindex/orchestrate.py:6-38 | The `while attempts < max_attempts` loop, with its `try`/`except`, computes the bounded wait: the same result, calls and sleeps. |
| Orchestrate.PollStepCases | FastA2A-Agno-Llamaindex/orchestrate.py:13-34 | Only a completed reply's text is returned. A 2-second sleep follows exactly a running reply. Every other retry sleeps 5 seconds. |
| Orchestrate.BoundedWaitShape | FastA2A-Agno-Llamaindex/orchestrate.py:11-38 | The waiter ends in one of three ways: the first deciding outcome within 60 calls, the timeout after 60 retries, or pending. In each case the sleeps are those of the retries before. |
| Orchestrate.SuccessOnlyOnCompleted | FastA2A-Agno-Llamaindex/orchestrate.py:17-18 | A successful wait returns the text of its last reply, and that reply is "completed". |
| Orchestrate.SleepsFollowTheReplies | FastA2A-Agno-Llamaindex/orchestrate.py:26-33 | There is one sleep per call, except perhaps the last. Each sleep is 2 s exactly after a running reply, and 5 s otherwise. |
| Orchestrate.TimeoutQuotes120Seconds | FastA2A-Agno-Llamaindex/orchestrate.py:38 | The timeout message is "<service> task timed out after 120 seconds". |
| Orchestrate.ServerErrorsShareTheBudget | FastA2A-Agno-Llamaindex/orchestrate.py:26-38 | Any mix of running replies and server errors in 60 calls times out after exactly 60 calls. The sleeps are 5 s for each server error and 2 s for each running reply. |
| Orchestrate.OtherErrorsEscapeAtOnce | FastA2A-Agno-Llamaindex/orchestrate.py:29-36 | A `get_task` exception that is not a server error ends the wait at once, with that exception. |
| Orchestrate.FirstCompletedReplyWins | FastA2A-Agno-Llamaindex/orchestrate.py:17-18 | The first completed reply after only retries decides the wait: k + 1 calls and k sleeps. |
| Orchestrate.FailedReplyRetriedOnServerErrorText | FastA2A-Agno-Llamaindex/orchestrate.py:19-34 | A "failed" reply whose error text mentions "500" or "Internal Server Error" is caught by the loop's own `except` and retried after 5 s. |
| Orchestrate.FailedPrefixPlain | FastA2A-Agno-Llamaindex/orchestrate.py:22 | For "Agno" and "LlamaIndex", the fixed part of the failure message holds neither server-error marker. |
| Orchestrate.NoErrorDetailsPlain | FastA2A-Agno-Llamaindex/orchestrate.py:21 | "No error details available" is not a server error. |
| Orchestrate.FailedMessageNoServerError | FastA2A-Agno-Llamaindex/orchestrate.py:21-22 | For the two services, the failure message is a server error only if the reply's error text is one. |
| Orchestrate.FailedReplyEscapes | FastA2A-Agno-Llamaindex/orchestrate.py:19-36 | A "failed" reply without a server-error text is re-raised as "<service> task failed: <error or placeholder>". |
| Orchestrate.CanceledReplyEscapes | FastA2A-Agno-Llamaindex/orchestrate.py:23-36 | A "canceled" reply is re-raised as "<service> task was canceled", whatever its error entry and artifacts hold. |
| Orchestrate.CollaborativeChain | FastA2A-Agno-Llamaindex/orchestrate.py:61-138 | The chain sends one to four tasks, on the route LlamaIndex, Agno, LlamaIndex, Agno. Every wait but the last returned, and the last wait's outcome is the chain's. |
| Orchestrate.OrchestrateCollaborativeWorkflow | FastA2A-Agno-Llamaindex/orchestrate.py:52-138 | The four steps, each awaited before the next is sent, produce the collaborative chain for the four waits' outcomes: the same tasks and the same result. |
| Orchestrate.ChainStopsAtFirstFailure | FastA2A-Agno-Llamaindex/orchestrate.py:71-138 | The chain sends steps up to its first failing one, on the route LlamaIndex, Agno, LlamaIndex, Agno. Its result is that step's outcome. Only a run of all four steps succeeds. |
| Orchestrate.ChainPromptsEmbedEarlierResults | FastA2A-Agno-Llamaindex/orchestrate.py:63-133 | Step 1 embeds the topic. Step 2 embeds the analysis. Step 3 embeds the synthesis. Step 4 embeds the feedback and then the synthesis. |
| OrchestrateParallel.FailedMessage | FastA2A-Agno-Llamaindex/orchestrate_parallel.py:16 | The message is the service name followed by 12 more characters, with no error details. |
| OrchestrateParallel.CanceledMessage | FastA2A-Agno-Llamaindex/orchestrate_parallel.py:18 | The message is the service name followed by 18 more characters. |
| OrchestrateParallel.PollStep | FastA2A-Agno-Llamaindex/orchestrate_parallel.py:9-20 | One iteration returns only the text of a completed reply. It polls again exactly on a running reply. A `get_task` exception passes unchanged. |
| OrchestrateParallel.UnboundedWait | FastA2A-Agno-Llamaindex/orchestrate_parallel.py:6-20 | The waiter makes at most one call per observed outcome. |
| OrchestrateParallel.WaitForTaskCompletion | FastA2A-Agno-Llamaindex/orchestrate_parallel.py:6-20 | The `while True` loop computes the unbounded wait: the same result, calls and sleeps. |
| OrchestrateParallel.PollStepCases | FastA2A-Agno-Llamaindex/orchestrate_parallel.py:9-20 | The waiter returns exactly on a completed reply with text. It sleeps 2 s exactly on a running reply. It raises "<service> task failed" or "<service> task was canceled", and passes `get_task`'s exceptions through. |
| OrchestrateParallel.UnboundedWaitShape | FastA2A-Agno-Llamaindex/orchestrate_parallel.py:8-20 | The wait is pending exactly while all replies are running, with no attempt limit. Otherwise the last call decides, after one 2 s sleep per running reply. |
| OrchestrateParallel.FirstCompletedReplyWins | FastA2A-Agno-Llamaindex/orchestrate_parallel.py:13-14 | The first completed reply after running ones is the result. |
| OrchestrateParallel.GetTaskErrorsPropagate | FastA2A-Agno-Llamaindex/orchestrate_parallel.py:9 | A `get_task` exception ends the wait on its first occurrence, even a server error. |
| OrchestrateParallel.LastTagged | FastA2A-Agno-Llamaindex/orchestrate_parallel.py:90-96 | It has no contract of its own, since one makes its proofs too costly. `LastTaggedIsLast` states its result: the value of the last entry with the tag, or None when no entry has it. |
| OrchestrateParallel.LastTaggedIsLast | FastA2A-Agno-Llamaindex/orchestrate_parallel.py:90-96 | An extracted value is absent exactly when no entry carries the tag. Otherwise it is the value of the last entry with that tag. |
| OrchestrateParallel.ExtractResults | FastA2A-Agno-Llamaindex/orchestrate_parallel.py:90-96 | The `for service, result in results` loop leaves each variable at its tag's last value. |
| OrchestrateParallel.ExtractionIgnoresOrder | FastA2A-Agno-Llamaindex/orchestrate_parallel.py:76-96 | Where a tag occurs once, every permutation of the results list extracts the same value. |
| OrchestrateParallel.CollectedExtracts | FastA2A-Agno-Llamaindex/orchestrate_parallel.py:76-96 | In either finishing order, "agno" extracts the Agno result and "llama" the LlamaIndex one. |
| OrchestrateParallel.GroupStop | FastA2A-Agno-Llamaindex/orchestrate_parallel.py:85-87 | A group whose members do not both return raises exactly when one of them raised, with the first member's exception first. |
| OrchestrateParallel.ParallelChain | FastA2A-Agno-Llamaindex/orchestrate_parallel.py:66-124 | A run sends 2, 4 or 5 tasks, always starting with the first group's two. A successful run sent all five. |
| OrchestrateParallel.Process | FastA2A-Agno-Llamaindex/orchestrate_parallel.py:46-64 | One `process_with_*` call submits one task and returns its wait's outcome. |
| OrchestrateParallel.ParallelProcessingWorkflow | FastA2A-Agno-Llamaindex/orchestrate_parallel.py:34-124 | The workflow produces the parallel chain for the five waits' outcomes and the finishing order: the same tasks and the same result. |
| OrchestrateParallel.ParallelSendsGroupTwice | FastA2A-Agno-Llamaindex/orchestrate_parallel.py:66-87 | The first group's two tasks are sent again by the second group. The second group is sent exactly when both first-group waits returned. |
| OrchestrateParallel.ParallelSynthesisOrder | FastA2A-Agno-Llamaindex/orchestrate_parallel.py:101-124 | The workflow succeeds exactly when all five waits do. Its fifth task is the Agno synthesis, embedding the Agno result and then the LlamaIndex one. It returns `(final, agno, llama)`. |
| OrchestrateParallel.ParallelIgnoresCompletionOrder | FastA2A-Agno-Llamaindex/orchestrate_parallel.py:76-96 | The order in which the second group finishes changes nothing. |
| OrchestrateParallel.ParallelStopsAtFailedGroup | FastA2A-Agno-Llamaindex/orchestrate_parallel.py:66-87 | A group that does not return both results ends the run with its group outcome. No task is sent after it. |
| OrchestrateParallel.AwaitPair | FastA2A-Agno-Llamaindex/orchestrate_parallel.py:155-168 | A round's two waits give the Agno and the LlamaIndex outcomes of the tasks already sent. |
| OrchestrateParallel.DebateChain | FastA2A-Agno-Llamaindex/orchestrate_parallel.py:155-242 | A debate sends 2 or 4 tasks, always starting with the two openings. A successful debate sent all four. |
| OrchestrateParallel.DebateWorkflow | FastA2A-Agno-Llamaindex/orchestrate_parallel.py:126-242 | The debate produces the debate chain for the four waits' outcomes and both finishing orders: the same tasks and the same result. |
| OrchestrateParallel.DebateAfterRoundOne | FastA2A-Agno-Llamaindex/orchestrate_parallel.py:170-242 | After a first round in which both sides returned, all four tasks are sent, and the second round decides the result. |
| OrchestrateParallel.DebateCrossReferences | FastA2A-Agno-Llamaindex/orchestrate_parallel.py:185-213 | The refinements are sent exactly when both openings returned. Each refinement leads with its own side's round-1 answer and then the other side's. |
| OrchestrateParallel.DebateReturnsRoundTwo | FastA2A-Agno-Llamaindex/orchestrate_parallel.py:215-242 | The debate succeeds exactly when all four waits do. It then returns the round-2 pair. |
| OrchestrateExpert.Entry | FastA2A-Agno-Llamaindex/orchestrate_expert.py:32-36 | The entry keeps the service name. Its prompt is at most 103 characters and its response at most 203. |
| OrchestrateExpert.EntryTruncates | FastA2A-Agno-Llamaindex/orchestrate_expert.py:32-36 | An entry keeps the service name. It cuts the prompt at 100 and the response at 200 characters, adding "..." only to a cut text. |
| OrchestrateExpert.EntryKeepsPrefixes | FastA2A-Agno-Llamaindex/orchestrate_expert.py:34-35 | A logged prompt is at most 103 characters and a logged response at most 203. Each starts with as much of the original as fits. |
| OrchestrateExpert.PollStep | FastA2A-Agno-Llamaindex/orchestrate_expert.py:27-41 | One iteration returns only the text of a completed reply. It polls again exactly on a running reply. A `get_task` exception passes unchanged. |
| OrchestrateExpert.ExpertWait | FastA2A-Agno-Llamaindex/orchestrate_expert.py:26-41 | The wait calls `get_task` at most once per observed outcome. `ExpertWaitShape` states the rest. |
| OrchestrateExpert.PollStepCases | FastA2A-Agno-Llamaindex/orchestrate_expert.py:27-41 | The loop returns exactly on a completed reply with text. It sleeps 2 s exactly on a running reply. It raises "<service> task failed" or "<service> task canceled". |
| OrchestrateExpert.ExpertWaitShape | FastA2A-Agno-Llamaindex/orchestrate_expert.py:26-41 | The wait is pending exactly while all replies run, with no attempt limit. Otherwise only running replies precede the deciding one. |
| OrchestrateExpert.AwaitTask | FastA2A-Agno-Llamaindex/orchestrate_expert.py:26-41 | The `while True` loop computes the expert wait: the same result, calls and sleeps. |
| OrchestrateExpert.Returned | FastA2A-Agno-Llamaindex/orchestrate_expert.py:177-184 | A successful consultation returns the five results with the history. An exception is passed on unchanged. |
| OrchestrateExpert.CollaborativeOrchestrator.constructor | FastA2A-Agno-Llamaindex/orchestrate_expert.py:10-13 | A new orchestrator has an empty history and has not submitted any task. |
| OrchestrateExpert.CollaborativeOrchestrator.SendTaskAndWait | FastA2A-Agno-Llamaindex/orchestrate_expert.py:15-41 | One task is submitted and awaited. On success exactly one truncated entry is appended. A failure leaves the history as it was. |
| OrchestrateExpert.CollaborativeOrchestrator.ConsultFrom | FastA2A-Agno-Llamaindex/orchestrate_expert.py:53-175 | Phases k to 5 append to the log and the history what the phase-by-phase consultation says, and return its result. |
| OrchestrateExpert.CollaborativeOrchestrator.ExpertConsultationWorkflow | FastA2A-Agno-Llamaindex/orchestrate_expert.py:43-184 | A consultation appends the consultation chain's tasks and entries to the orchestrator's state and returns its result with the whole history. |
| OrchestrateExpert.PhasePrompt | FastA2A-Agno-Llamaindex/orchestrate_expert.py:55-171 | Every phase's prompt embeds the question first. Phase k < 4 embeds k earlier results; the fact check embeds one. |
| OrchestrateExpert.ExpertChain | FastA2A-Agno-Llamaindex/orchestrate_expert.py:53-184 | A consultation sends one to five tasks. It logs one entry per returned phase, so one task more than entries unless it succeeds. A success logs all five. |
| OrchestrateExpert.ExpertFrom | FastA2A-Agno-Llamaindex/orchestrate_expert.py:53-175 | From phase k on, at most 5 - k tasks are sent. Entries are one fewer than tasks unless the run succeeds, and a success logs 5 - k entries. |
| OrchestrateExpert.ExpertFromIsChain | FastA2A-Agno-Llamaindex/orchestrate_expert.py:53-175 | The phase-by-phase consultation, from any phase it reaches, does what the closed-form chain leaves from that phase on. |
| OrchestrateExpert.ExpertChainStops | FastA2A-Agno-Llamaindex/orchestrate_expert.py:53-175 | The consultation stops at its first phase that does not return, sending phases on the route's services. It logs one entry per returned phase, under that phase's name. It succeeds exactly when all five phases return. |
| OrchestrateExpert.ExpertPromptsEmbedEarlierResults | FastA2A-Agno-Llamaindex/orchestrate_expert.py:55-171 | Each phase's prompt embeds the question and the earlier results in the f-string's order. Phase 3 has the strategy before the research. Phase 4 has research, strategy, feedback. Phase 5 has the explanation. |
| OrchestrateExpert.ExpertEntriesLogPhases | FastA2A-Agno-Llamaindex/orchestrate_expert.py:30-36 | Each entry belongs to a returned phase. It holds that phase's name, the prompt its task carried and its result, truncated. |
| OrchestrateExpert.ExpertFinalAnswerIsPhaseFour | FastA2A-Agno-Llamaindex/orchestrate_expert.py:177-183 | `final_answer` is the phase-4 explanation, not the fact check. Each other field is its own phase's result. |
| OrchestrateExpert.ConsultTwice | FastA2A-Agno-Llamaindex/orchestrate_expert.py:13 | The history is set up once and never reset. Two successful consultations leave ten entries, the first consultation's five first, and the second result carries all ten. |
| Storage.Updated | FastA2A-Agno-Llamaindex/agno_worker.py:55-63 | A write replaces the state, and the artifacts only when some are given. It keeps the history. |
| Storage.ApplyOne | FastA2A-Agno-Llamaindex/agno_worker.py:35 | One `update_task` changes only its own task's record. It changes nothing for an id the store does not hold. |
| Storage.Apply | FastA2A-Agno-Llamaindex/agno_worker.py:35-63 | A sequence of writes keeps the set of stored task ids. |
| Storage.LastWriteToTaskWins | FastA2A-Agno-Llamaindex/agno_worker.py:35-63 | Of two writes to a task, the second decides its state, whatever it is. The artifacts are the second write's when it carries some, else the first write's, else the task's own. The history and every other task are unchanged. |
| Storage.ApplyOthers | FastA2A-Agno-Llamaindex/agno_worker.py:66 | Writes to other tasks leave a task's record as it was. |
| Storage.TaskStore.UpdateTask | FastA2A-Agno-Llamaindex/agno_worker.py:35 | For a held task, the record is overwritten and the write logged. For any other id, `found` is false and nothing changes. The store remains its initial tasks with every logged write applied. |
| Worker.RunWrites | FastA2A-Agno-Llamaindex/agno_worker.py:35-63 | A run writes "working" first, then one write to the same task, "completed" or "failed". |
| Worker.RunLeavesTerminalRecord | FastA2A-Agno-Llamaindex/agno_worker.py:35-63 | A run leaves its task "completed" with exactly the answer artifact, or "failed" with its artifacts as they were. It keeps the history, and other tasks are untouched. |
| Worker.CompletedRunReadsBack | FastA2A-Agno-Llamaindex/agno_worker.py:55-63 | An orchestrator reads back exactly the answer of a completed run. |
| Worker.CancelOverridesAnyState | FastA2A-Agno-Llamaindex/agno_worker.py:65-66 | A cancel sets "canceled" over any state, a terminal one included. It keeps artifacts and history. |
| Worker.CancelAfterCompletedRun | FastA2A-Agno-Llamaindex/agno_worker.py:55-66 | A completed task that is then canceled ends "canceled", still holding its answer. |
| Agno.FirstPresent | FastA2A-Agno-Llamaindex/agno_worker.py:41-48 | With no attribute present, the fallback `str(response)` is the answer. |
| Agno.AgnoAnswer | FastA2A-Agno-Llamaindex/agno_worker.py:41-48 | The answer is one of the response's present attributes, or `str(response)`. |
| Agno.AgnoAnswerProbesInOrder | FastA2A-Agno-Llamaindex/agno_worker.py:41-48 | The answer is the first present attribute in the order `text`, `content`, `message`, with `str(response)` last. |
| Agno.AgnoAnswerPriority | FastA2A-Agno-Llamaindex/agno_worker.py:41-44 | A present `text` wins whatever else the response has. Without `text`, a present `content` wins. |
| Agno.AgnoResult | FastA2A-Agno-Llamaindex/agno_worker.py:37-53 | There is an answer exactly when the agent did not raise, and it is the extracted one. |
| Agno.AgnoWorker.constructor | FastA2A-Agno-Llamaindex/agno_worker.py:24-26 | The worker keeps the store it is given. |
| Agno.AgnoWorker.RunTask | FastA2A-Agno-Llamaindex/agno_worker.py:29-63 | Without a text part the outcome is `NoTextPart`, for a task the store lacks `TaskMissing`, and nothing is written. Otherwise the outcome is `Ran`: the run logs exactly the run's writes for the agent's reply to the selected prompt, and the store becomes them applied. |
| Agno.AgnoWorker.CancelTask | FastA2A-Agno-Llamaindex/agno_worker.py:65-66 | Exactly one "canceled" write is made to a held task. An unknown id changes nothing. |
| Agno.AgnoWorker.BuildMessageHistory | FastA2A-Agno-Llamaindex/agno_worker.py:68 | The message history is the task history unchanged. |
| Agno.AgnoWorker.BuildArtifacts | FastA2A-Agno-Llamaindex/agno_worker.py:69 | No artifacts, whatever the result. |
| LlamaIndex.LlamaAnswer | FastA2A-Agno-Llamaindex/llamaindex_worker.py:44 | The answer is `completion.text` when present, else the completion itself. |
| LlamaIndex.LlamaAnswerPrefersText | FastA2A-Agno-Llamaindex/llamaindex_worker.py:44 | With `text` present the rest of the completion does not matter. Without it the completion itself is the answer. |
| LlamaIndex.LlamaResult | FastA2A-Agno-Llamaindex/llamaindex_worker.py:39-49 | There is an answer exactly when the model did not raise, and it is the extracted one. |
| LlamaIndex.LlamaIndexWorker.constructor | FastA2A-Agno-Llamaindex/llamaindex_worker.py:25-27 | The worker keeps the store it is given. |
| LlamaIndex.LlamaIndexWorker.RunTask | FastA2A-Agno-Llamaindex/llamaindex_worker.py:30-61 | Without a text part the outcome is `NoTextPart`, for a task the store lacks `TaskMissing`, and nothing is written. Otherwise the outcome is `Ran`: the run logs exactly the run's writes for the model's reply to the selected prompt, and the store becomes them applied. |
| LlamaIndex.LlamaIndexWorker.CancelTask | FastA2A-Agno-Llamaindex/llamaindex_worker.py:63-64 | Exactly one "canceled" write is made to a held task. An unknown id changes nothing. |
| LlamaIndex.LlamaIndexWorker.BuildMessageHistory | FastA2A-Agno-Llamaindex/llamaindex_worker.py:66-67 | The message history is the task history unchanged. |
| LlamaIndex.LlamaIndexWorker.BuildArtifacts | FastA2A-Agno-Llamaindex/llamaindex_worker.py:69-70 | No artifacts, whatever the result. |

## Left out

- **Network and HTTP.** The A2A clients and HTTP are not modelled. So are the
  configuration (`config.py`), the `serve_*.py` entry points and the A2A
  library's broker.
  - A submitted task gets the next position in a submission log as its id.
  - What each `get_task` call of a task observes is a given sequence of
    outcomes.
  - When the observed outcomes run out before a waiter decides, the result is
    `Pending`. The real loop would call `get_task` again.
- **Sleeping and printing.** `anyio.sleep` is recorded as the list of delays a
  wait takes. Every `print`, including the `initial_prompt[:60]` and
  `prompt[:60]` echoes, is left out.
- **Agno agent and LlamaIndex model.** Both are parameters: a function from
  prompt to reply. Their retrieval, their prompts' semantics and, for
  LlamaIndex, the thread hop of `to_thread.run_sync` are not modelled.
- **Prompt prose.** The fixed wording of each f-string is replaced by a
  template label. A prompt is modelled by which results it embeds and in what
  order. Hence the expert history's 100-character cut applies to the rendered
  label form, not to the original wording.
- **Concurrency in task groups.** A task group is modelled as both members
  running to their end, one after the other. The finishing order, which
  decides the order of the shared result list, is a parameter. Not modelled:
  - interleaving;
  - the `ExceptionGroup` anyio raises;
  - cancelling a sibling when one member fails.

  The model's group outcome is the first member's exception, else the
  second's.
- **LlamaIndex.LlamaAnswer: the fallback is modelled as a string.**
  `getattr(completion, "text", completion)` falls back to the completion
  object itself, and Python stores that object as the part's text. The model
  gives the completion as a string (`Completion.itself`).
- **The result list's element type.** It is `(tag, result)` with `result` a
  string. Python would accept any value.
- **Aliasing of `conversation_history`.**
  - The dictionary returned by `expert_consultation_workflow` holds the
    orchestrator's live list. Entries of a later consultation therefore also
    show in an earlier result.
  - The model returns the history as it is at return time.
  - `OrchestrateExpert.ConsultTwice` states the orchestrator's own history
    instead.
- **The task store.** The store comes from the A2A library and is not part of
  this model. Its `update_task` is assumed to:
  - overwrite the state;
  - overwrite the artifacts only when given;
  - keep the history;
  - fail with a lookup error, changing nothing, for an unknown id.

  The tasks a store was created with are a ghost parameter.
- **Exceptions escaping `run_task` and `cancel_task`.** There are two cases.
  - `next` finds no text part, or the store lacks the task: the outcome
    (`NoTextPart`, `TaskMissing`) stands for an exception escaping `run_task`
    before any write.
  - `update_task` raises on its second call: this is not modelled. The first
    call has already shown that the task exists, so under the assumption above
    the second call succeeds.
- **Response attributes in the Agno worker.** Each of `text`, `content` and
  `message` is modelled as present with a string value, or absent.
  - An attribute present with the value `None` would be returned as `None`.
    The model does not represent that.
  - `str(response.message)` and `str(response)` are given in the response's
    model as strings.
- **A completed reply without text.** If a "completed" reply has no
  `artifacts[0]["parts"][0]["text"]`, the lookup raises. The model uses one
  fixed message for this, "list index out of range". Python's message differs
  between a missing list element and a missing key. Neither contains "500" or
  "Internal Server Error", so the bounded waiter re-raises it either way.
- **State names.** The orchestrators compare the state's wire literal. The
  model compares the `TaskState` constructor. `StateName` gives the literal
  where a message quotes it.
- **OrchestrateExpert.CollaborativeOrchestrator.ExpertConsultationWorkflow.**
  The five phases are written in the script one after the other. They are
  modelled by the recursive method
  `OrchestrateExpert.CollaborativeOrchestrator.ConsultFrom`, one phase per
  call, with the same prompts, services, names and order.
- **State transitions.** The A2A state machine has no transition out of a
  terminal state. The model follows the code and does not enforce it:
  - `cancel_task` overwrites any state, "completed" and "failed" included;
  - a run overwrites whatever state its task had.
- **Retry budget.** The bounded waiter's budget counts polls and retried
  server errors together, 60 in all. There is no separate transport-retry
  budget and no wall-clock deadline. The 120 seconds in the timeout message is
  `60 * 2` and does not measure the actual time slept.
- **`main` functions and the workflow summary printer.** `main` in each script
  and `print_workflow_summary` only print. They are not modelled.
