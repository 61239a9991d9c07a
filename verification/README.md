# z3cli runtime: verified models

Dafny models of the request runtime behind `z3cli --serve` and of the self-contained algorithms it
relies on, with proofs of what they guarantee. Each module follows one component; objects that the
program updates in place are classes here, and each of their methods is proved equal to a function
whose consequences are then proved over whole runs.

- `ExecutionBudget.dfy`: admission counters, high-water marks and semaphores, any number of tasks,
  and semaphores replaced in mid-flight.
- `ToolNesting.dfy`: chats whose spawn calls keep a tool slot while their subagents wait for another
  one; `ToolDeadlock.dfy`: when this deadlocks.
- `RequestLifecycle.dfy`: the life of a chat request and its accounting, on the same budget.
- `RuntimeRefs.dfy`: what is remembered about a request and how it is forgotten.
- `RequestMetrics.dfy`: latency windows and percentiles.
- `WriteReview.dfy`, `ReviewProtocol.dfy`: file snapshots, change detection and rollback; reviews
  under commands, cancellations, timeouts and overlapping hooks.
- `Compaction.dfy`: the conversation window, tool-call pairing, token bounds and repeated passes.
- `DeferredTools.dfy`: tools revealed on demand, ranked search.
- `DuplicateFix.dfy`: capping duplicate training rows.
- `ShellFraming.dfy`: marker framing of shell commands and its parser; `Utf8.dfy`: text decoded
  chunk by chunk.
- `InventorySidecar.dfy`: request and reply correlation with a restartable process.
- `OracleRouting.dfy`: profile ranking and target resolution.
- `Endpoint.dfy`: backend, node and base URL, what commands write to the session file, and where
  resuming it leads.
- `Basics.dfy`, `Decimal.dfy`, `Text.dfy`: options, decimal numerals, trimming and lower-casing.

`dafny verify dfyconfig.toml` checks all of it.

## Where the code does less than it seems to promise

Each of these is proved with its exact condition.

- Replacing a budget's semaphore while calls are in flight allows more calls than the maximum,
  chats or tool calls, exactly when a slot is in use and the queue can supply them
  (`ReconfigureIff`). A chat that waits at that moment can be one of them; a waiting tool call cannot
  (`ChatsAndToolsDiffer`): it is stranded, exactly when no slot is on its way to a waiter
  (`ReconfigureStrands`, `StrandedForever`).
- A resumed session brings its own high-water marks, which then are the run's maxima exactly if they
  were the maxima at that moment (`MarksSurviveIff`); a mark can even be below its counter.
- Chats that delegate can deadlock the tool budget, exactly when there are, for every tool slot, a
  chat to spawn a subagent and a place in the queue for its call (`StuckIff`). Deeper nesting adds
  nothing, as nested spawns are not budgeted; with one chat at a time and two slots, the defaults,
  it cannot happen.
- The engine ends a review hook after 30 seconds while a review waits 90, so by default a review
  timeout never rolls anything back: the hook is killed and unreviewed changes stay (`TimeoutIff`,
  `UnattendedKilled`, `EndSafe`).
- A review that opens between the decision on another one and the moment its hook resumes turns that
  decision into an acceptance; that window is the only way in which changes are kept against the
  last word on them (`OverlapIff`, `RejectedButKept`). A cancel of any request, or a timeout of any
  review, overwrites a pending accept, and an accept that arrives after a cancel but before the hook
  resumes wins: the last word counts (`KeptIff`).
- Output and directory come back from the shell exactly when no read begins inside a character of
  them; each read is decoded by itself, so a cut character is lost (`FramingRoundTrip`,
  `CutLosesOutput`).
- A resumed session overwrites the request counters while requests are live (`RestoreIff`).
- A `/use` that fails because its model is spawn-only or gated has already changed the endpoint, and
  nothing of that reaches the session file (`UpToDateIff`, `RefusedUseIsForgotten`).
- A session file gives the backend only as `/backend` and `/use` left it. A resume goes to a
  remembered llama.cpp node even if the session had switched back to studio, and back to studio if
  the node it had picked is gone (`SaveResumeIff`, `SameRegistryIff`, `SwitchBackIsForgotten`,
  `NodeGoneIsForgotten`).
- Running the duplicate fixer on its own output overwrites recorded weights above the cap
  (`WeightSurvivesIff`). With held-out payloads the reported number of duplicates after the fix is
  too low by their number (`DuplicatesAfterIff`).
- A cancel that arrives between the end of a request and its removal from the dispatcher's table
  leaves a cancel mark behind (`ForgottenIff`, `MarkStaysBehind`). A write context prepared for a
  call that no request owns, as a subagent's, outlives every request (`OutlivesIff`, `OrphanStays`).

## Conventions

- A body under the budget lock never suspends, so it is one atomic step and the lock is never
  contended. A released slot goes to a waiter at once if there is one, and a slot whose waiter is
  cancelled or times out before it resumes goes back to its semaphore. `asyncio.wait_for` begins the
  acquisition at once, as it does from Python 3.12.
- The environment is a parameter: arrival, cancellation and timeouts are events that may happen in
  any order; the summarizer, path resolution, the keyword router and the tool hint are given.
- Rational arithmetic replaces floating point: 10n/37, budget * num/den and p*n/100.
- A tool-call id may be used again once its hook is over, but no two hooks wait under one id. The
  engine makes ids up from round and position when the model gives none
  (src/core/engine.py:1663), so two chats could in fact wait under the same one; `ReviewProtocol`
  does not cover that.
- A payload is identified with its hash, and a shuffle is any sequence of exchanges.
- Malformed UTF-8 is replaced as CPython decodes it: one replacement for each maximal broken sequence.

## Model

| member | source | states |
|---|---|---|
| ExecutionBudget.Budget.Reserve | src/app/serve.py:944-959 | admits exactly while inflight + queued is below max + depth, and leaves the counters as the ledger step does; a refusal only counts backpressure |
| ExecutionBudget.Budget.Rollback | src/app/serve.py:961-965 | gives a reservation back |
| ExecutionBudget.Budget.Enter | src/app/serve.py:977-982 | turns a reservation into a call in flight and raises the in-flight high-water mark |
| ExecutionBudget.Budget.Release | src/app/serve.py:984-988 | ends a call and frees a slot of the semaphore in use now, leaving every replaced one alone |
| ExecutionBudget.Budget.Reconfigure | src/app/serve.py:929-935 | clamps the policy and installs a fresh, full semaphore; the counters stay |
| ExecutionBudget.Budget.RestoreMarks | src/app/shared_runtime.py:860-871 | overwrites both marks and the rejection count, whatever the counters are |
| ExecutionBudget.GuardsNeverMask | src/app/serve.py:964-965 | in every reachable state the `> 0` guards let the decrement happen |
| ExecutionBudget.Step | src/app/serve.py:944-988 | every step of every interleaving keeps counters = tasks by phase; the slot surplus changes only at a reconfiguration or when a stale slot is lost |
| ExecutionBudget.Ledger | src/app/serve.py:944-988 | over any run without reconfiguration: free + in flight + granted = max, in flight <= max, queued = reserved tasks not entered, in flight + queued <= max + depth |
| ExecutionBudget.Drained | src/app/serve.py:2526-2532 | once every task of a run without reconfiguration has ended, the counters are zero and exactly max slots are free |
| ExecutionBudget.HighWater | src/app/serve.py:956-958 | since it was last restored each mark is the highest of the restored value and the values its counter rose to |
| ExecutionBudget.MarksExact | src/app/serve.py:944-982 | without a resume each mark is the exact maximum of its counter over the whole run |
| ExecutionBudget.MarksSurviveIff | src/app/shared_runtime.py:864-871 | after a resume this stays so, whatever happens later, exactly when the restored marks are the maxima so far |
| ExecutionBudget.SteadyRun | src/app/serve.py:944-960 | between reconfigurations the surplus never grows and pending calls stay below max(capacity, pending at the start) |
| ExecutionBudget.SurplusAfterReconfigure | src/app/serve.py:929-988 | after a swap: free + in use = new max + in use at the swap - stale slots lost since |
| ExecutionBudget.DrainedAfterSwap | src/app/serve.py:984-988 | once every task has ended after a swap, new max + in use at the swap - stale slots lost since are free |
| ExecutionBudget.OvercommitIff | src/app/serve.py:944-988 | for the chat and the tool budget alike: more calls than the maximum can get in flight exactly when a slot is in surplus and the capacity, or the number of present pending calls, exceeds the maximum, where tool calls that wait on a replaced semaphore do not count |
| ExecutionBudget.ReconfigureIff | src/app/shared_runtime.py:872-881 | for both budgets: reconfiguring allows over-commitment exactly when a slot is in use at the swap and the new depth is positive or pending calls, not counting tool calls that wait, exceed the new maximum |
| ExecutionBudget.ChatsAndToolsDiffer | src/app/serve.py:967-976 | with one call running and one waiting, a swap to maximum 1 and no queue lets both be in flight if they are chats, which try again, but not if they are tool calls |
| ExecutionBudget.NeverServedIff | src/app/serve.py:1014-1021 | some run still serves a tool call that waits on a replaced semaphore exactly if a slot of that semaphore is on its way to a waiter |
| ExecutionBudget.ReconfigureStrands | src/app/serve.py:929-935 | after a swap no run without its own cancellation serves a waiting tool call, exactly when no slot was on its way to a waiter at the swap |
| ExecutionBudget.StrandedForever | src/app/serve.py:1014-1027 | a stranded tool call never gets a slot, whatever else happens, until it is cancelled |
| ToolNesting.ToolBudgetBridge.CallTool | src/app/serve.py:718-732 | an uninterrupted tool call leaves counters and semaphore as they were, on every path; it runs exactly when admitted, given a slot and not killed |
| ToolNesting.RunInv | src/app/serve.py:990-1027 | over any run of delegating chats: in flight, queued and granted counts match the chains of calls, every slot is accounted for, nesting stays within its limit |
| ToolNesting.NestsTo | src/core/subagent.py:376-407 | subagents can nest as deeply as the limit allows once there is a first one |
| ToolDeadlock.StuckShape | src/app/serve.py:680-699 | the agents can never get a slot taken or returned again, without a timeout or cancel, exactly when every slot is held by a spawn whose subagent is in the queue |
| ToolDeadlock.ProgressIff | src/app/serve.py:896-908 | with a call queued, some slot can still be taken or returned exactly while fewer spawns wait for a nested call than there are slots |
| ToolDeadlock.StuckForever | src/app/serve.py:990-1027 | without timeouts or cancels a deadlock never ends |
| ToolDeadlock.StuckIff | src/core/subagent.py:376-407 | a deadlock is reachable exactly when subagents may be spawned and max tools <= min(chats, queue depth); nested spawns bypass the budget, so depth does not matter |
| RequestLifecycle.Lifecycle.Reserve | src/app/serve.py:2501-2508 | counts the request and reserves; a refusal sets its final status |
| RequestLifecycle.Lifecycle.AcquireSlot | src/app/serve.py:967-976 | the acquisition loop ends with the first round that finds the request cancelled or a slot |
| RequestLifecycle.Lifecycle.Acquire | src/app/serve.py:2510-2518 | enters with a slot and records the time in the queue, or ends cancelled without touching the budget |
| RequestLifecycle.Lifecycle.CompleteRun | src/app/serve.py:2520-2524 | records status, tool time and the remaining model time |
| RequestLifecycle.Lifecycle.Finalize | src/app/serve.py:2526-2549 | returns exactly what the request holds (slot, reservation or nothing), adds one to exactly one outcome counter and records status and times |
| RequestLifecycle.Accounting | src/app/serve.py:2501-2561 | in every reachable state requests = success + error + reject + cancel + queued + in flight |
| RequestLifecycle.ClassifiedOnce | src/app/serve.py:2534-2542 | each outcome counter counts the requests recorded with that outcome, and a recorded outcome never changes |
| RequestLifecycle.ExactlyOneDone | src/app/serve.py:2564-2596 | an admitted request that ended without being killed has exactly one done; live, rejected and killed ones have none |
| RequestLifecycle.RestoreIff | src/app/shared_runtime.py:884-893 | restored counters keep the balance for good exactly when they leave open as many requests as are live at that moment |
| RuntimeRefs.ServeState.MarkRequestCancelled | src/app/serve.py:1036-1056 | marks the request, stops exactly the engines bound to it, sets the event of exactly the prompts that wait for it, and refuses all answers |
| RuntimeRefs.ServeState.BindRequestEngine | src/app/serve.py:1063-1066 | adds the engine to those of the request and changes no other request |
| RuntimeRefs.MarkExact | src/app/serve.py:1036-1056 | which engines a cancellation stops, which prompts it wakes and which answers it refuses; nothing is forgotten by it |
| RuntimeRefs.MarkAllExact | src/app/serve.py:4213-4218 | the end of the backend stops the engines of every registered request and wakes whatever prompt waits |
| RuntimeRefs.StopsIff | src/app/serve.py:1055-1056 | for every event: an engine is newly stopped exactly by the cancellation of a request it is bound to |
| RuntimeRefs.CancelStops | src/app/serve.py:1055-1076 | over any run: an engine bound and not unbound when its live request is cancelled is stopped |
| RuntimeRefs.PromptsExact | src/app/serve.py:1228-1235 | what opening a permission or review prompt sets, and that only the prompt of the call is closed |
| RuntimeRefs.ServeState.ClearRequestRuntimeRefs | src/app/serve.py:1086-1107 | removes the request from every table and slot, in place |
| RuntimeRefs.ClearExact | src/app/serve.py:1086-1107 | nothing mentions the request afterwards, the contexts of the calls it owns are gone, and every other entry is unchanged |
| RuntimeRefs.ForgottenIff | src/app/serve.py:4221-4240 | over any run: a request that is not live is mentioned exactly if its last dispatch or cancellation fell between its end and the dispatcher dropping it, and then only in the cancel set |
| RuntimeRefs.MarkStaysBehind | src/app/serve.py:4165-4176 | a run that leaves such a mark |
| RuntimeRefs.OutlivesIff | src/app/serve.py:1193-1194 | every write context belongs to a call of a live request up to the first event that prepares one for an unowned call or removes its owner entry, and exactly such an event leaves one that goes with no request |
| RuntimeRefs.OrphanStays | src/app/serve.py:1091-1098 | such a context stays, whichever requests end, until it is handled |
| RuntimeRefs.DispatchNotCancelled | src/app/serve.py:4241-4254 | a new chat starts neither cancelled nor mentioned, even under a reused id |
| RequestMetrics.Metrics.Record | src/app/serve.py:1115-1133 | appends one clamped sample to each window, trims it to the limit and keeps the last status and times |
| RequestMetrics.Metrics.RecordAll | src/app/serve.py:1109-1133 | after any run from empty windows each holds exactly the figures of the last min(n, limit) requests, oldest first, none negative |
| RequestMetrics.Percentile | src/app/serve.py:246-253 | returns a sample r with at least p% of the samples <= r and fewer than p% below it; 0 for no samples, the minimum for p <= 0 |
| RequestMetrics.PercentilesOrdered | src/app/serve.py:1138-1145 | that definition has one solution and is monotone in p, so p50 <= p95 |
| WriteReview.TargetsNamed | src/app/write_review.py:91-114 | a value is collected exactly if it is the trimmed text under a path key, in the list of paths, or in a header of a patch |
| WriteReview.WritesIff | src/app/write_review.py:13-24 | a call counts as writing exactly if its name contains one of nine words, in any case, or it carries contents, a patch or edits |
| WriteReview.ValuesInOrder | src/app/write_review.py:103-120 | path keys come first, then the list of paths, then patch headers |
| WriteReview.DistinctOrder | src/app/write_review.py:103-120 | repeats are dropped in favour of the first mention |
| WriteReview.CollectTargetPaths | src/app/write_review.py:103-120 | exactly the paths a call names, in the order of first mention, each once |
| WriteReview.PrepareWriteContext | src/app/write_review.py:123-152 | a context exactly when the tool looks like a writing one and some path it names resolves; one faithful snapshot per distinct resolved file, in order |
| WriteReview.DetectChanges | src/app/write_review.py:155-171 | lists the changes of the snapshots against the disk, in order |
| WriteReview.ChangesExact | src/app/write_review.py:155-171 | a change is listed exactly for each tracked path whose contents differ, once, with both contents and the right status |
| WriteReview.NoChangesIff | src/app/write_review.py:155-171 | nothing is listed exactly when all tracked paths agree with their snapshots |
| WriteReview.RestoreWriteContext | src/app/write_review.py:243-254 | rewinds the files in place, one by one |
| WriteReview.RewoundExact | src/app/write_review.py:243-254 | every tracked path is back at its snapshot and no other path changes |
| WriteReview.DetectAfterRestore | src/app/write_review.py:155-254 | for any tool effect, detecting after restoring finds nothing, and each path is as before the call or untouched |
| ReviewProtocol.ReviewPrompt.Open | src/app/serve.py:1319-1323 | a review takes over the shared slot with a fresh event and resets the shared action to accept |
| ReviewProtocol.ReviewPrompt.Decide | src/app/serve.py:3111-3126 | sets action and event only for the pending review id |
| ReviewProtocol.ReviewPrompt.MarkCancelled | src/app/serve.py:1048-1054 | any cancel of a request overwrites the shared action; the pending event is set exactly if it was or if the pending review is of that request |
| ReviewProtocol.ReviewPrompt.CancelPending | src/app/serve.py:1180-1188 | rejects and wakes the pending review |
| ReviewProtocol.CancelWakesOwn | src/app/serve.py:1048-1054 | a cancellation wakes the review in the slot exactly if it is of that request, and no other hook |
| ReviewProtocol.CancelRollsBack | src/app/serve.py:1048-1054 | so the review in the slot is rolled back once its own request is cancelled |
| ReviewProtocol.DecidesNamed | src/app/serve.py:3111-3126 | a review command decides the review in the slot exactly if it names it, and no other |
| ReviewProtocol.ShutdownWakes | src/app/serve.py:1180-1188 | the end of the backend wakes the review in the slot to be rolled back, and no other |
| ReviewProtocol.AfterTool | src/app/serve.py:1279-1292 | after a tool: nothing to review, an immediate rollback for a cancelled request, or a waiting hook, each exactly under its condition |
| ReviewProtocol.StepInv | src/app/serve.py:1271-1345 | unless a review opens over a decided one, a decided hook owns the slot and its action is the last word on its review |
| ReviewProtocol.EndSafe | src/app/serve.py:1279-1345 | a hook that returns leaves the snapshot contents or an accepted verdict; a killed one does so exactly when that already held |
| ReviewProtocol.KeptIff | src/app/serve.py:1341-1345 | changes are kept exactly when the last word was accept; otherwise the files are at their snapshots |
| ReviewProtocol.KeptWasAccepted | src/app/serve.py:1271-1345 | over those runs changes survive a review only if an accept command named it |
| ReviewProtocol.ReviewSafety | src/app/serve.py:1271-1345 | over whole runs in which no review opens over a decided one, every returning hook leaves its files at the snapshot unless an accept command named its review |
| ReviewProtocol.OverlapIff | src/app/serve.py:1319-1345 | opening a review makes it possible that changes are kept against the last word on them exactly when another hook is decided and has not resumed |
| ReviewProtocol.OverlapKeepsUnaccepted | src/app/serve.py:1319-1345 | if that other review was never accepted, the run goes on to keep its changes without any accept |
| ReviewProtocol.RejectedButKept | src/app/serve.py:1319-1345 | a run from the start in which a rejected file stays |
| ReviewProtocol.TimeoutIff | src/core/engine.py:1775-1781 | from any start, some run rolls back after a review timeout exactly if reviews time out and the engine's limit on a hook is absent or longer |
| ReviewProtocol.UnattendedKilled | src/core/engine.py:1775-1781 | unless the engine's limit is longer, an unattended review of a created file ends killed with the file in place |
| Compaction.EstimateMessageTokens | src/core/compaction.py:38-64 | the accumulating loop computes the sum over all parts of a message |
| Compaction.EstimateMonotone | src/core/compaction.py:31-35 | the estimate is the length over 3.7 rounded down, at least one unless the text is empty, so it grows with the text |
| Compaction.MessageEstimate | src/core/compaction.py:38-64 | a message costs four tokens plus the estimate of each text it holds: reasoning, content or blocks, names and arguments of calls |
| Compaction.SplitWindow | src/core/compaction.py:240-273 | the backward walk yields the system message, the part before the cut and the tail from it |
| Compaction.CutMeaning | src/core/compaction.py:250-270 | everything is kept with fewer than k user messages; otherwise the tail starts at the k-th user message from the end |
| Compaction.TailMeaning | src/core/compaction.py:240-273 | the tail holds exactly the configured number of user messages if there are so many, nothing is replaced if there are fewer, and nothing is kept if none is to be |
| Compaction.Partition | src/core/compaction.py:240-273 | system, replaced part and tail concatenate to the input |
| Compaction.SplitKeepsPairs | src/core/compaction.py:250-270 | a split never separates a tool result from a call of the same turn |
| Compaction.Compact | src/core/compaction.py:275-348 | the new list and the reported counts, including the cases that change nothing |
| Compaction.CompactsIff | src/core/compaction.py:232-330 | an unforced compaction happens exactly if a budget is set, the tokens reach budget times ratio, something is replaced and the summary is not blank; else the list is unchanged |
| Compaction.CompactedPaired | src/core/compaction.py:332-336 | if each tool result follows its call within one turn, this still holds after compaction |
| Compaction.TokensAfter | src/core/compaction.py:332-348 | tokens after = before - replaced + recap, and the bound for bounded summary and header |
| Compaction.NotAgain | src/core/compaction.py:232-238 | no new compaction is due whenever that bound is below the threshold |
| Compaction.SplitAgain | src/core/compaction.py:240-273 | a compacted list splits into the same system and tail around the recap |
| Compaction.Fixpoint | src/core/compaction.py:275-348 | any number of further passes, forced or not, keeps system and tail around exactly one recap |
| DeferredTools.ToolMatches | src/core/deferred_tools.py:66-82 | the accumulated score of a tool |
| DeferredTools.ScoreWeights | src/core/deferred_tools.py:66-82 | the score is three per term found in the name plus one per term found in the description |
| DeferredTools.MatchesIff | src/core/deferred_tools.py:66-82 | a tool matches exactly when a non-empty term occurs in its name or description |
| DeferredTools.Clamp | src/core/deferred_tools.py:184-189 | the limit is 8 by default and always within 1..32 |
| DeferredTools.Rank | src/core/deferred_tools.py:206-212 | appending and sorting yields all matching tools by descending score, ties in list order |
| DeferredTools.RankingUnique | src/core/deferred_tools.py:206-213 | there is only one such ranking |
| DeferredTools.DeferredToolBridge.HandleSearch | src/core/deferred_tools.py:182-222 | returns the first entries of the ranking, as many as the limit (8 if none is given, at least 1, at most 32) and makes exactly their names visible |
| DeferredTools.DeferredToolBridge.Reveal | src/core/deferred_tools.py:119-127 | makes exactly the known names visible and returns those that are new, once each |
| DeferredTools.DeferredToolBridge.CallTool | src/core/deferred_tools.py:143-154 | forwards exactly the calls of visible tools |
| DeferredTools.DeferredToolBridge.GetTools | src/core/deferred_tools.py:131-141 | lists exactly the visible tools of the wrapped list, in its order |
| DeferredTools.Serve | src/core/deferred_tools.py:119-223 | over any session a call is forwarded exactly when its name is core or was returned by an earlier search or reveal |
| DuplicateFix.GroupedRows | scripts/fix_oracle_training_duplicates.py:127-131 | one group per payload, its rows in order |
| DuplicateFix.FixedSplitRows | scripts/fix_oracle_training_duplicates.py:134-182 | the output holds for each payload the right number of copies and is as long as they add up to; the report gives exact totals, and how many payloads have groups of each size |
| DuplicateFix.DuplicatesAfterIff | scripts/fix_oracle_training_duplicates.py:179-180 | the reported duplicates after the fix are those of the output exactly when no payload is held out |
| DuplicateFix.Multiplicity | scripts/fix_oracle_training_duplicates.py:149-158 | output multiplicity is min(input, cap), min(input, 1) when collapsing, 0 for held-out payloads |
| DuplicateFix.OutputLength | scripts/fix_oracle_training_duplicates.py:149-182 | the output is as long as those numbers add up to over the payloads |
| DuplicateFix.Recorded | scripts/fix_oracle_training_duplicates.py:103-124 | each row is the first of its group and records group size and copies |
| DuplicateFix.Numbered | scripts/fix_oracle_training_duplicates.py:159-170 | the copies of a payload are numbered 0, 1, ... without gaps or repeats |
| DuplicateFix.WeightsConserved | scripts/fix_oracle_training_duplicates.py:149-170 | recorded weights, one per payload, add up to input rows less held-out rows |
| DuplicateFix.FixDataset | scripts/fix_oracle_training_duplicates.py:202-240 | an unknown mode and then a cap below one are refused; otherwise all three splits are fixed, the training split against the holdouts, with overlaps counted before and after |
| DuplicateFix.ModeMeaning | scripts/fix_oracle_training_duplicates.py:202-240 | what mode, cap and protection mean for every payload of each split |
| DuplicateFix.Overlaps | scripts/fix_oracle_training_duplicates.py:185-188 | with protection train shares nothing with val and test; the val/test overlap never changes |
| DuplicateFix.Idempotent | scripts/fix_oracle_training_duplicates.py:202-240 | a second run changes no multiplicity |
| DuplicateFix.WeightSurvivesIff | scripts/fix_oracle_training_duplicates.py:118 | the recorded weight survives a second run exactly if the first one dropped no copy |
| Utf8.DecodeAllIff | src/app/shell_session.py:118-124 | decoding each chunk by itself gives the text back exactly when no chunk begins inside a character, and otherwise garbles only such characters |
| Utf8.OneCharacter | src/app/shell_session.py:118-124 | the bytes of a character decode to it if they come in one chunk, and to two or more replacements otherwise |
| Utf8.MayBeSecondIff | src/app/shell_session.py:118-124 | a second byte is accepted exactly if the code point is neither overlong nor a surrogate nor too large |
| ShellFraming.ReadUntil | src/app/shell_session.py:109-128 | the fewest chunks whose decoded text contains the marker, or a timeout when all together do not |
| ShellFraming.StatusLast | src/app/shell_session.py:155 | the status mark last occurs where the frame puts it |
| ShellFraming.EndFirst | src/app/shell_session.py:154 | the end mark first occurs where the frame puts it |
| ShellFraming.ParseRaw | src/app/shell_session.py:155-168 | parsing a frame gives back output, exit code and directory |
| ShellFraming.BlankDirectory | src/app/shell_session.py:164-166 | a blank directory line leaves the session where it is |
| ShellFraming.ExitCodeMeaning | src/app/shell_session.py:159-163 | numbers are read with their sign and anything else counts as 1 |
| ShellFraming.FramingRoundTrip | src/app/shell_session.py:109-168 | for every chunking of the bytes and whatever follows, the exit code comes back; the output exactly when no chunk begins inside a character of it, the directory likewise |
| ShellFraming.CleanRoundTrip | src/app/shell_session.py:109-168 | everything comes back when no chunk begins inside a character, as with ASCII output and directory |
| ShellFraming.CutLosesOutput | src/app/shell_session.py:118-124 | a read that ends inside the first character of the output loses it |
| ShellFraming.StreamHasEnd | src/app/shell_session.py:109-128 | a reader that sees the whole stream does not time out, however it is cut |
| ShellFraming.PersistentShellSession.RunInternal | src/app/shell_session.py:133-181 | a failed command changes nothing; a finished one sets the directory and appends to the bounded scrollback |
| InventorySidecar.Process.ReadReply | src/app/inventory_client.py:114-131 | the read loop ends at the first line with the id or the first failure; past junk and lines with other integer ids, the line with exactly this id is returned, and silence, end of file and exit are told apart |
| InventorySidecar.SidecarClient.EnsureStarted | src/app/inventory_client.py:70-95 | keeps a live process and its pipe, replaces a dead one |
| InventorySidecar.SidecarClient.Request | src/app/inventory_client.py:97-131 | a call takes the next id, returns the line with exactly that id past junk and other ids, and leaves the rest; if its request cannot be written it fails with the id taken and nothing read |
| InventorySidecar.OwnReplyIff | src/app/inventory_client.py:114-131 | a line is returned exactly when it carries the id and only junk or lines for others precede it |
| InventorySidecar.SameIff | src/app/inventory_client.py:125-126 | an id answers a call exactly if it is the same number: an equal integer or decimal, or true for 1 and false for 0, and never a text |
| InventorySidecar.IdsUnique | src/app/inventory_client.py:105-106 | no two calls that took an id share it, whether or not they were written, across any number of restarts |
| InventorySidecar.LateReplySkipped | src/app/inventory_client.py:114-131 | a reply to an earlier call is never returned by a later one (the id rule of section 5 of JSON-RPC 2.0) |
| InventorySidecar.RecoversAfterTimeout | src/app/inventory_client.py:114-131 | the call after a timed-out one, whose reply has the previous number, gets the reply with its own number past it |
| InventorySidecar.PipeConserved | src/app/inventory_client.py:97-131 | the calls of one process consume its output in order, nothing twice and nothing lost |
| OracleRouting.LessTotal | src/app/runtime.py:1090-1097 | the order of the ranking keys is total and strict |
| OracleRouting.RankMeaning | src/app/runtime.py:530-539 | for a definite request a match comes before a model that leaves it open and that before any other; for an open one adaptive models come first |
| OracleRouting.EffortMeaning | src/app/runtime.py:1151-1162 | the requested effort comes first, then its neighbours, then the opposite |
| OracleRouting.MatchWins | src/app/runtime.py:1090-1097 | a candidate of the wanted domain, or with equal domains of the wanted mode, beats one of another |
| OracleRouting.PickProfiledCandidate | src/app/runtime.py:1067-1105 | picks the unique least key among the unblocked candidates, or nothing if there is none |
| OracleRouting.PickProfiledCandidateWithReason | src/app/runtime.py:1107-1148 | the same pick, with the profile and ranks of the model it picked |
| OracleRouting.PickUnique | src/app/runtime.py:1067-1148 | both pickers agree, whatever the order of the candidates |
| OracleRouting.PreferredSafeModel | src/app/runtime.py:1284-1297 | the first unblocked model of the safe list |
| OracleRouting.OracleRoute | src/app/runtime.py:3004-3051 | hint, then router, then profile pick, then router default; each exactly under its condition, never a blocked model |
| OracleRouting.ResolveOracle | src/app/runtime.py:3116-3141 | which model is the target and why, in the order hint, router, profile, router default, safe list, active model; the second profile pick never succeeds; a blocked target means every oracle candidate and every safe model is blocked or absent |
| OracleRouting.ResolveTargetsWithReason | src/app/runtime.py:3054-3165 | which targets and reasons every mode gives, one decision for each target; a broadcast goes to the model of each mention of a known name, in order, else to the active model; only an unknown mode fails |
| Endpoint.Runtime.SetBackend | src/app/shared_runtime.py:595-600 | sets the backend together with its base URL |
| Endpoint.Runtime.SelectStudioNode | src/app/shared_runtime.py:232-259 | applies a known node with its host daemon, otherwise changes nothing |
| Endpoint.Runtime.SelectLlamacppNode | src/app/shared_runtime.py:262-279 | applies a known node, otherwise changes nothing |
| Endpoint.Runtime.ApplyUseTarget | src/app/shared_runtime.py:403-475 | resolves a target through aliases, studio nodes, llama.cpp nodes and models, in that order |
| Endpoint.UseSelects | src/app/shared_runtime.py:403-475 | a target is known exactly if it is a node or resolves to a model; which node or model is then in use, with its base URL; nothing changed if it is unknown |
| Endpoint.Runtime.RestoreRuntimeState | src/app/shared_runtime.py:951-976 | restores model, backend and both nodes in the order of the code |
| Endpoint.Runtime.HandleResume | src/app/serve.py:3839-3853 | restores what a file says, falls back to a model the client may show, and goes on writing to that file unless the resume fails before it is attached |
| Endpoint.Runtime.HandleBackend | src/app/serve.py:3136-3154 | sets a valid backend and records a switch if it changed |
| Endpoint.Runtime.HandleUse | src/app/serve.py:2660-2692 | an unknown target changes and records nothing; a known one is applied, and then, unless it leaves the session on studio with an unavailable model, recorded with the changed backend and model and the whole endpoint; if it does, the command fails with the change made and nothing recorded |
| Endpoint.Runtime.HandleStudioNode | src/app/serve.py:3190-3216 | applies a node and records it, but no switch of the backend |
| Endpoint.Runtime.HandleLlamacppNode | src/app/serve.py:3228-3258 | likewise for llama.cpp |
| Endpoint.Runtime.HandleModel | src/app/serve.py:3347-3376 | on studio an allowed and available model is selected and recorded; otherwise nothing changes |
| Endpoint.Runtime.HandleSpecialist | src/app/serve.py:3378-3401 | on studio an available specialist is selected and recorded like a model; otherwise nothing changes |
| Endpoint.AlwaysCoherent | src/app/shared_runtime.py:595-600 | after any sequence of commands and resumes the base URL is that of the current backend |
| Endpoint.RestoreEnds | src/app/shared_runtime.py:951-976 | where a restore ends from any state, and that it is coherent |
| Endpoint.FileDescribes | src/core/session.py:286-310 | after any commands, refused ones and resumes included, the session file gives each field the value it had when a command last wrote it down, or the value the file resumed since gives it |
| Endpoint.UpToDateIff | src/app/serve.py:2668-2691 | that is the value in use at every moment of a session exactly if no command misses the field: by a refused `/use`, by the backend and model that selecting a node changes, or by a resume that fails or leaves it different (`ResumeMissesIff`) |
| Endpoint.NodesDescribed | src/app/serve.py:3202-3251 | nodes and base URLs in the file are those in use as long as no session is resumed and no `/use` is refused |
| Endpoint.ResumeMissesIff | src/app/shared_runtime.py:951-976 | which fields a resume leaves other than its file says, read off the file, the registry and the state before: a node entry that is absent, in another form, or unknown and not in use already; a base URL that is not the one of its node or ends in a slash; a backend that a node overrules |
| Endpoint.SaveResumeIff | src/core/session.py:286-310 | after any commands, resumes and refused ones included: when resuming the file, in any process and with any registry, returns to the backend in use |
| Endpoint.SameRegistryIff | src/app/shared_runtime.py:951-976 | with the registry unchanged, in a session not itself resumed: on llama.cpp exactly if it picked a node there or wrote down no studio node; on studio exactly if it never picked a llama.cpp node and wrote down a studio node or the backend |
| Endpoint.UnrefusedIff | src/app/shared_runtime.py:951-976 | if besides no `/use` was refused: on studio exactly if it never picked a llama.cpp node, on llama.cpp exactly if it picked one of it or no node at all |
| Endpoint.RefusedUseIsForgotten | src/app/serve.py:2668-2672 | on llama.cpp without nodes, `/use` of a spawn-only model that no node serves fails with the session on studio, and every resume of its file leads back to llama.cpp |
| Endpoint.SwitchBackIsForgotten | src/core/session.py:299-302 | switching back to studio after picking a llama.cpp node is undone by a resume |
| Endpoint.NodeGoneIsForgotten | src/app/serve.py:3236-3251 | a session that picked a llama.cpp node resumes on studio once that node is gone |

## Left out

- Input and output: pipes, subprocesses, terminals, HTTP, WebSockets and MCP connections; only their
  protocol steps appear.
- The permission prompt (src/app/serve.py:1207-1269): only its slot and its write contexts appear, in
  `RuntimeRefs`; whether a call is allowed is not modelled.
- Fairness of the budget: which waiter gets a freed slot is left open.
- A resumed session that lowers `request_index` so that a new request reuses the id of a live one:
  `RuntimeRefs` dispatches only ids that are not in use.
- ReviewProtocol.ReviewSafety: assumes that no review opens over a decided one whose hook has not
  resumed, because otherwise it is false (`OverlapIff`).
- ExecutionBudget.ReconfigureIff: assumes that `asyncio.wait_for` begins the acquisition at once; on
  Python 3.11 an attempt begun just before a swap can still take a slot of the replaced semaphore.
- ToolDeadlock.StuckIff: reaching the deadlock takes chats whose model may spawn some specialist;
  model eligibility is not modelled.
- Endpoint.Runtime.RestoreRuntimeState: covers the model, backend, base URL and node fields only.
- A `/model` or `/specialist` whose focus refresh fails between the change and its record
  (src/app/serve.py:3367-3369).
- Endpoint.SameRegistryIff: excludes sessions that were resumed into; `SaveResumeIff` covers them.
- Two reviews that wait under one tool-call id at the same time.
- Text and verification commands of a review, its diff preview and its message to the model.
- File-system oddities: directories in place of files, links, permissions, leftover parent directories.
- Escape sequences, carriage returns, output drained between commands, one-shot commands on Windows
  and non-ASCII case folding.
- JSON parsing of tool arguments and the patterns that find file headers in a patch; the parsed
  values and the headers are given.
- Tool schemas and catalogue texts of deferred tools; names and descriptions are given in lower case.
- Keyword and profile inference from a prompt, registry loading and automatic orchestrator choice.
- Reading and writing dataset files and their metadata, and row ids without an explicit id.
- Rounding of floating-point estimates, thresholds and percentile ranks.
- Host, workspace, focus and tool settings of a restored session.
