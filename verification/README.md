# CorpClaw Lite agent core: a verified model

CorpClaw Lite runs a ReAct loop per user request. It keeps a transcript in two copies, an in-memory
list sent to the model and durable rows in a per-chat store, and it repairs, prunes, compresses and
extends both while tools run. This project models that engine and the protocols beside it, and proves
what they keep over all inputs, all runs and all answers of the outside world.

The provider contract at the centre: every assistant message that declares tool calls is followed at
once by exactly one result per call, in call order, with no other tool result anywhere, and the first
history message is from the user (`Transcript.Batches`, `Transcript.Valid`).

| file | models |
|---|---|
| `Transcript.dfy` | messages as stored, and the provider contract |
| `Normalization.dfy`, `NormalizationTheorems.dfy` | `agent/context.py`: repairing an arbitrary stored history; soundness, identity, idempotence, accounting |
| `Compression.dfy`, `CompressionTheorems.dfy` | `agent/compressor.py`: token-budgeted cut, summary splice, repair; the exact result |
| `ContextBuilding.dfy` | `ContextBuilder`: appends, restore from history, the prune pass |
| `StoreRewrite.dfy` | store-first compression and the realignment of the in-memory list |
| `TurnShapes.dfy`, `LoopWorld.dfy`, `LoopSpec.dfy` | `agent/loop.py`: one turn's effect on both transcripts and the budget, and the run these add up to, as functions of the outside world |
| `AgentLoop.dfy`, `AgentRun.dfy` | the loop, the budget handler and the whole of `run`, imperatively; each method equals its step of the specified run |
| `PlainTexts.dfy`, `LoopTheorems.dfy`, `RunTheorems.dfy` | what every run keeps |
| `Outcomes.dfy` | how a turn and a run end, with which answer, and what each turn says, writes and counts |
| `TranscriptsAgree.dfy`, `Resuming.dfy` | how list and rows of a run compare, and what one run leaves to the next |
| `BudgetGuard.dfy`, `ProgressGuard.dfy`, `DedupGuard.dfy` | `agent/guards.py`: run budget with paused time; the detectors of repeated errors and of repeated results |
| `LockTable.dfy` | the pruned per-user lock table as interleaved steps |
| `Calibration.dfy` | configuration writes with backup and rollback, and the hill climb over them |
| `FillPlan.dfy` | totals per key over rows and sources, the cutoff, the period, applying sheet by sheet |
| `ToolSurface.dfy`, `PhasePolicy.dfy` | which tools are shown, and the thinking decision per call, over a run |
| `FileState.dfy`, `Scorer.dfy`, `Subsequence.dfy` | stale-read registry against its event log; greedy order matching and score totals |

Provider replies, tool results, clock readings, the summariser, the store's success and failure and
the analyser are parameters (mostly functions of a step number), so every theorem holds for any of
their behaviours. Messages carry content, calls, ids and names; per-message token estimates are any
natural-valued function.

What the proofs found, where the code is less than its intent:

- **Reordered results are not reported.** When normalisation says nothing changed, results may still
  have been put back in call order (`UnchangedMeansReordered`, `ReorderGoesUnreported`).
- **Compression can lengthen a transcript** by one message, exactly when a summary is written and the
  tail starts right behind the head batch's own results (`CompressedLength`, `CompressionCanGrow`).
  The real results of a batch in the fixed head are replaced by stubs.
- **The close nudge can split a batch.** It is appended inside the result loop; the in-memory batch
  stays closed exactly when it does not fire before the last result (`BatchSaidIsClosedIff`).
- **Hints are stripped by content.** A tool result quoting the marker is removed from its batch; for
  distinct ids the list stays closed exactly when every batch is stripped whole or not at all
  (`StripIsSafeIff`). The durable rows are unaffected by both.
- **A call whose execution raises stays unanswered** in both transcripts. `_execute_single_tool` turns a raising
  guard or tool into an error result; what escapes is, for example, a raising approval callback
  (`src/corpclaw_lite/agent/loop.py:2527`). With well-formed batches and nothing severed or lost, a run ends
  closed if and only if no execution raised, in a batch or in a salvage call (`RunIsClosed`,
  `RunKeepsStoreProtocol`, `RunKeepsListProtocol`); a raising provider leaves it closed. The next load repairs it.
- **A stored call whose arguments decode to no object wedges its chat**: building the context raises before
  anything is written, in every later run (`WedgedStays`). Runs never store such a call themselves
  (`EveryRunStarts`).
- **Pruning locks that are merely not locked is unsafe**: it may drop the entry being returned, or one
  between release and hand-off. Every cap of at least one has a schedule with two holders for one user
  (`CodePruningUnquietIff`, `EveryCapCanBreak`); a table within the cap is safe.
- **Rollback does nothing without a prior directory**, so apply-then-rollback is the identity exactly
  when the calibrated directory existed (`RollbackRestoresIff`). A raising evaluation leaves the unscored
  proposal on disk: the best configuration if and only if the proposal says nothing that was not there already
  (`ClimbEndsOnBest`, `DoneIsSameIff`).
- **The loop detector misses cycles** of four or more distinct errors (`LongCycleIsMissed`).
- **The file-state warning differs from its documentation both ways**: a re-read never clears a
  foreign writer and a read evicted at the cap counts as none (`FalseAlarmIff`, `EvictionHappens`), and an
  own write hides a foreign one (`MissedIff`). Below the cap both are a matter of positions (`BelowCapIff`). The
  code is modelled.
- **A fill plan goes without reading its template** when it has no sources at all and no values for its
  first sheet. Parsing admits no such plan, and resolving one with sources raises instead
  (`HandBuiltPlanCanIgnoreTemplate`, `ParsedPlanFillsFromTemplate`).
- The loop makes at most `max_iterations - 1` provider calls, because an iteration is consumed before
  the limit is checked.

## Model

| member | source | states |
|---|---|---|
| Normalization.NormalizeTranscript | src/corpclaw_lite/agent/context.py:156-212 | the loops compute the specified repair and all six counters, for any raw message list |
| Normalization.NormalizeToolPairs | src/corpclaw_lite/agent/context.py:61-153 | the index-driven pass equals the group-by-group repair, with its three counters |
| Normalization.ToolRunIsMaximal | src/corpclaw_lite/agent/context.py:121-133 | the run of results looked at behind a batch is exactly the maximal run of tool messages |
| NormalizationTheorems.NormalizedIsValid | src/corpclaw_lite/agent/context.py:61-212 | soundness: the output of any input meets the provider contract and starts with the user |
| NormalizationTheorems.ValidIsUntouched | src/corpclaw_lite/agent/context.py:49-58 | a valid transcript comes back unchanged with every counter zero |
| NormalizationTheorems.FixedPointIffValid | src/corpclaw_lite/agent/context.py:156-212 | normalisation fixes a transcript if and only if it is valid |
| NormalizationTheorems.NormalizeIsIdempotent | src/corpclaw_lite/agent/context.py:156-212 | normalising twice is normalising once, and the second pass reports nothing |
| NormalizationTheorems.NormalizeAccounts | src/corpclaw_lite/agent/context.py:156-212 | output length is input length minus the four drop counters plus the stubs; calls are conserved |
| NormalizationTheorems.SpeechIsKept | src/corpclaw_lite/agent/context.py:61-153 | user and assistant messages survive repair in order with their text unchanged |
| NormalizationTheorems.DeclaredCallsConserve | src/corpclaw_lite/agent/context.py:86-114 | raw calls equal kept calls plus those counted invalid |
| NormalizationTheorems.ToolResultsConserve | src/corpclaw_lite/agent/context.py:72-151 | every raw result is kept or counted as an orphan, and every other result is a counted stub |
| NormalizationTheorems.UnchangedMeansReordered | src/corpclaw_lite/agent/context.py:49-58 | when nothing is reported the output is the input up to the order of results inside each batch |
| NormalizationTheorems.ReorderGoesUnreported | src/corpclaw_lite/agent/context.py:49-58 | a concrete swapped pair: the list changes and nothing is reported |
| NormalizationTheorems.CanonicalMeans | src/corpclaw_lite/agent/context.py:156-212 | what the pair repair sees: the chat messages from the first of the user's on |
| NormalizationTheorems.RepairSplits | src/corpclaw_lite/agent/context.py:61-153 | the repair is that of the pieces, cut anywhere but before a result |
| NormalizationTheorems.BlockMeans | src/corpclaw_lite/agent/context.py:80-151 | what becomes of one message and the results behind it: kept calls each take the first result of their id or a stub, everything else behind it goes |
| NormalizationTheorems.KeptCallsMean | src/corpclaw_lite/agent/context.py:86-114 | a call is kept exactly when it is named and the first named one of its id |
| NormalizationTheorems.CountersCount | src/corpclaw_lite/agent/context.py:175-205 | the system and unknown-role counters count just those messages |
| Compression.SanitizeToolPairs | src/corpclaw_lite/agent/compressor.py:192-242 | the two set-building passes and the rebuild equal the specified sanitising |
| Compression.FindTailBoundary | src/corpclaw_lite/agent/compressor.py:321-337 | the boundary is the aligned last suffix that reaches the token budget, or 0 under budget |
| Compression.TailStartMeans | src/corpclaw_lite/agent/compressor.py:321-356 | that boundary is the only one with this property |
| Compression.AlignBoundary | src/corpclaw_lite/agent/compressor.py:339-356 | walking back stops at the message that opens the group |
| Compression.Compress | src/corpclaw_lite/agent/compressor.py:128-190 | the pipeline with its early returns equals the specified result, including where it raises |
| CompressionTheorems.CompressShape | src/corpclaw_lite/agent/compressor.py:128-190 | the exact output: untouched, or two head messages, one stub per head call, the summary, the tail verbatim; raises only on a non-list value |
| CompressionTheorems.CutFacts | src/corpclaw_lite/agent/compressor.py:321-356 | on the cut path the tail meets the budget, is closed, and never starts on a tool result |
| CompressionTheorems.SpliceHasNoOrphans | src/corpclaw_lite/agent/compressor.py:192-242 | on the cut path sanitising never drops a result |
| CompressionTheorems.CompressedIsValid | src/corpclaw_lite/agent/compressor.py:128-190 | for every transcript and every summary the output meets the provider contract |
| CompressionTheorems.CompressedLength | src/corpclaw_lite/agent/compressor.py:128-190 | at most one message longer, exactly when; at least two shorter when the second message declares no calls |
| CompressionTheorems.CompressionCanGrow | src/corpclaw_lite/agent/compressor.py:128-190 | a concrete valid transcript that grows |
| CompressionTheorems.CompressMeans | src/corpclaw_lite/agent/compressor.py:128-190 | when it cuts, where, and what is left, by tokens, budgets and the summariser's answer alone |
| CompressionTheorems.CompressesToOne | src/corpclaw_lite/agent/compressor.py:128-190 | those terms leave exactly one possible result |
| CompressionTheorems.TokensAdd | src/corpclaw_lite/agent/compressor.py:363-381 | token counts add up message by message |
| ContextBuilding.ContextBuilder.PruneOldToolResults | src/corpclaw_lite/agent/context.py:280-312 | exactly the old long results are cleared in place, and their number is returned |
| ContextBuilding.PruneKeepsProtocol | src/corpclaw_lite/agent/context.py:280-312 | pruning keeps the contract both ways, all speech, and the protected results |
| ContextBuilding.PruneIsIdempotent | src/corpclaw_lite/agent/context.py:280-312 | a second pass clears nothing |
| ContextBuilding.PruneMeans | src/corpclaw_lite/agent/context.py:280-312 | which messages are cleared, by counting the results behind them, and what stays of them |
| ContextBuilding.ContextBuilder.BuildFromFullHistory | src/corpclaw_lite/agent/context.py:384-460 | the context is few-shots, the normalised history re-encoded, and the request; raises exactly when a `tool_calls` value is truthy and no list, or the arguments of a kept call decode to no object |
| ContextBuilding.RestoredContext | src/corpclaw_lite/agent/context.py:384-460 | a context built from any stored history is closed, keeps every result and ends on the request |
| ContextBuilding.RestoredWordForWord | src/corpclaw_lite/agent/context.py:440-492 | every restored message has the stored text, and every call its id, name and re-encoded arguments |
| ContextBuilding.FaithfulArgumentsRestoreAll | src/corpclaw_lite/agent/context.py:440-492 | when re-encoding is faithful the normalised history itself is restored |
| StoreRewrite.CompressStoreTranscript | src/corpclaw_lite/agent/loop.py:548-642 | status, returned list and durable rows for every combination of failures |
| StoreRewrite.RewriteIsSafe | src/corpclaw_lite/agent/loop.py:548-642 | a rewritten store is valid and a fixed point; every other status leaves the rows; when compression fails |
| StoreRewrite.RewriteMeans | src/corpclaw_lite/agent/loop.py:548-642 | the rows are rewritten to what compressing the normalised rows comes to; every status says how that compares with the rows |
| StoreRewrite.UncutIsKept | src/corpclaw_lite/agent/loop.py:594-627 | a valid transcript that need not be cut is never rewritten |
| StoreRewrite.RestoreEphemeral | src/corpclaw_lite/agent/loop.py:747-770 | the backward search replaces the last durable request, or appends the envelope |
| StoreRewrite.RestoreKeepsRequest | src/corpclaw_lite/agent/loop.py:747-770 | the realigned list stays valid and holds the request: the last durable copy replaced, or the envelope appended when there is none |
| TurnShapes.SpokenBatchIsClosedIff | src/corpclaw_lite/agent/loop.py:288-307 | a batch with the nudge inside it is closed if and only if the nudge is not before its last result |
| TurnShapes.StripKeepsBatches | src/corpclaw_lite/agent/tool_surface.py:313-338 | stripping marked messages keeps a closed list closed when no batch is torn |
| TurnShapes.StripIsSafeIff | src/corpclaw_lite/agent/tool_surface.py:313-338 | with distinct ids per batch, if and only if |
| TurnShapes.QuotedMarkerTears | src/corpclaw_lite/agent/web_access.py:58-79 | a result that quotes the marker is stripped and severs its batch |
| TurnShapes.StripMeans | src/corpclaw_lite/agent/tool_surface.py:313-338 | stripping keeps, in order, exactly the unmarked messages |
| LoopWorld.Gather | src/corpclaw_lite/agent/loop.py:2327-2356 | all results in call order, or failure exactly when some call raises |
| LoopWorld.ClosedIsNeverIncomplete | src/corpclaw_lite/agent/compressor.py:65-126 | on a closed list the incomplete-batch test never blocks compression |
| LoopWorld.ShouldCompressIff | src/corpclaw_lite/agent/compressor.py:65-126 | compression is due exactly when every declared call is answered and the estimate or the reported count reaches the threshold |
| LoopWorld.MidRunKeeps | src/corpclaw_lite/agent/loop.py:666-744 | for any summariser and store: a recomputed list is valid, a kept one stays closed, a rewritten store is valid and the list holds the request, otherwise the rows are untouched |
| LoopWorld.MidRunMeans | src/corpclaw_lite/agent/loop.py:666-744 | list, rows and count after the step, by what is due, what the store answers and what the summariser says |
| LoopWorld.RewriteKeepsTail | src/corpclaw_lite/agent/loop.py:694-717 | a rewrite keeps every message from the tail start on, or all of them |
| LoopWorld.HintsKeep | src/corpclaw_lite/agent/adaptations/tool_surface.py:95-118 | both tail hints keep a closed list closed unless stripping tears a batch |
| LoopWorld.HintedMeans | src/corpclaw_lite/agent/loop.py:1169-1179 | earlier hints stripped and fresh ones appended, tool hint before access hint |
| PlainTexts.MidRunIsPlain | src/corpclaw_lite/agent/loop.py:666-744 | a property of all assistant and tool texts, and of the stubs, survives pruning, compression and rewriting |
| PlainTexts.PlainIsNeverTorn | src/corpclaw_lite/agent/tool_surface.py:313-338 | stripping hints tears no batch of a closed list whose assistant and tool texts carry no marker |
| LoopSpec.TurnUsesIteration | src/corpclaw_lite/agent/loop.py:1083-1091 | each turn uses one iteration, the last one below the limit makes no call, and every way round the loop decreases the measure |
| AgentLoop.LoopState.Persist | src/corpclaw_lite/agent/loop.py:2202-2238 | no store, a kept append, or a failed one that is swallowed |
| AgentLoop.LoopState.ExecuteSequential | src/corpclaw_lite/agent/loop.py:1638-1704 | results recorded call by call in both transcripts, up to a crash or a direct return, and exactly when each happens |
| AgentLoop.LoopState.RecordResults | src/corpclaw_lite/agent/loop.py:1588-1603 | gathered results recorded in call order in both transcripts, the nudge behind the first that fires |
| AgentLoop.LoopState.RejectBatch | src/corpclaw_lite/agent/loop.py:1542-1574 | every call of a mixed terminal batch answered with a refusal, none executed |
| AgentLoop.LoopState.Answer | src/corpclaw_lite/agent/loop.py:1419-1505 | a reply without calls spends one bounded retry or ends with its saved answer |
| AgentLoop.LoopState.ToolTurn | src/corpclaw_lite/agent/loop.py:1507-1728 | a batch over budget leaves the whole state as it was; an admitted one is reserved whole, then refused or executed |
| AgentLoop.LoopState.MaybeCompressMidRun | src/corpclaw_lite/agent/loop.py:666-744 | list, rows and token count after the step |
| AgentLoop.LoopState.InjectHints | src/corpclaw_lite/agent/loop.py:1169-1179 | the list sent to the provider |
| AgentLoop.LoopState.Turn | src/corpclaw_lite/agent/loop.py:1083-1728 | the whole state after one turn, and how the turn ended |
| AgentLoop.LoopState.Loop | src/corpclaw_lite/agent/loop.py:1082-1732 | the loop terminates, in exactly the state of the specified run |
| LoopTheorems.BatchSaidIsClosedIff | src/corpclaw_lite/agent/loop.py:1514-1704 | an executed batch is closed in memory if and only if the close nudge does not fire early |
| LoopTheorems.NudgeCanSever | src/corpclaw_lite/agent/loop.py:288-307 | a successful fill followed by another call in one batch severs it |
| LoopTheorems.BatchWrittenIsClosed | src/corpclaw_lite/agent/loop.py:1519-1681 | what an executed batch writes to the store is closed, also when a lone call returns directly |
| LoopTheorems.RejectedBatchIsClosed | src/corpclaw_lite/agent/loop.py:1542-1574 | a refused mixed batch is still closed, in memory and in the store |
| LoopTheorems.CrashLeavesOpen | src/corpclaw_lite/agent/loop.py:1588-1704 | a batch in which an execution raises stands unanswered in the list, and in the rows unless one was lost, whatever was recorded before |
| LoopTheorems.LoopKeepsClosed | src/corpclaw_lite/agent/loop.py:1082-1732 | at every provider call both transcripts are closed, each unless its flag is up |
| LoopTheorems.LoopNeverSevers | src/corpclaw_lite/agent/loop.py:1082-1732 | the list flag never goes up when fills come last and no real text carries a marker |
| LoopTheorems.LoopWithinBudget | src/corpclaw_lite/agent/guards.py:347-419 | one provider call per iteration but perhaps the last, fewer than `max_iterations`; executed at most reserved at most `max_tool_calls` |
| AgentRun.Start | src/corpclaw_lite/agent/loop.py:1871-2183 | the state a request begins with, also when loading the history fails; raises, with the store untouched, exactly when the history cannot be put back |
| AgentRun.AutoFinalize | src/corpclaw_lite/agent/adaptations/finalize.py:72-266 | one emergency call, at most two executions, an action refused once is not tried again |
| AgentRun.Conclude | src/corpclaw_lite/agent/loop.py:1734-1852 | the state and answer behind each way the loop can stop |
| AgentRun.Run | src/corpclaw_lite/agent/loop.py:996-1852 | answer and durable rows are exactly those of the specified run, for every world; raises at once, with the store untouched, exactly when the history cannot be put back |
| RunTheorems.CascadePartIsClosedIff | src/corpclaw_lite/agent/loop.py:1765-1806 | a salvage call is closed if and only if its execution returned |
| RunTheorems.RaisingSalvageLeavesOpen | src/corpclaw_lite/agent/loop.py:1765-1852 | a salvage call whose execution raises stands unanswered in both transcripts at the end of the run, whatever is said and saved behind it |
| RunTheorems.RunIsClosed | src/corpclaw_lite/agent/loop.py:996-1852 | both transcripts are closed at every provider call, and at the end if and only if the run does not stop over a batch or a salvage call whose execution raised |
| RunTheorems.RunLosesNothing | src/corpclaw_lite/agent/loop.py:2222-2238 | without a failing append no row is ever lost |
| RunTheorems.RunKeepsRows | src/corpclaw_lite/agent/loop.py:694-717 | the rows of a run stand behind all it found, unless the store was rewritten; then they are all the rows |
| RunTheorems.RunSeversNothing | src/corpclaw_lite/agent/loop.py:288-307 | with fills last and no marker in real text no batch of the list is ever severed |
| RunTheorems.RunKeepsStoreProtocol | src/corpclaw_lite/agent/loop.py:996-1852 | well-formed provider batches and no failing append: the durable batches are closed at every provider call, and at the end exactly when no execution raised |
| RunTheorems.RunKeepsListProtocol | src/corpclaw_lite/agent/loop.py:996-1852 | well-formed provider batches, fills last, no marker in real text: the list sent is closed at every provider call, and at the end exactly when no execution raised |
| RunTheorems.RunWithinBudget | src/corpclaw_lite/agent/loop.py:1083-1475 | the call log is bounded by `max_iterations` and one emergency call; executions and reservations stay in their limits |
| RunTheorems.RunSavesAnswer | src/corpclaw_lite/agent/loop.py:2240-2258 | whatever ended the run, its answer is the last durable row unless there is no store or the very last append failed |
| RunTheorems.OpeningMeans | src/corpclaw_lite/agent/loop.py:1871-2183 | list, rows, counters and budget a run begins with |
| Outcomes.TurnAnswersIff | src/corpclaw_lite/agent/loop.py:1330-1505 | a turn ends with an answer if and only if a plain reply, an empty one, insisted markup, an echoed guard text, a direct result or a time-out gives it |
| Outcomes.TurnEndsIff | src/corpclaw_lite/agent/loop.py:1083-1732 | when a turn ends by the budget, a raising provider, a raising tool, or the second loop warning |
| Outcomes.AtReplyMeans | src/corpclaw_lite/agent/loop.py:1120-1179 | what precedes a reply: the compression step, then the hints; the list sent is the one logged |
| Outcomes.ReportedCount | src/corpclaw_lite/agent/loop.py:1378-1383 | the next compression step goes by the count this reply reports |
| Outcomes.TextTurnSays | src/corpclaw_lite/agent/loop.py:1419-1505 | which prompt meets a reply without calls, in which order, where it goes, and what it counts as |
| Outcomes.PromptsAreBounded | src/corpclaw_lite/agent/loop.py:1419-1468 | a run gives at most four prompts more than it allows corrections |
| Outcomes.BatchTurnWrites | src/corpclaw_lite/agent/loop.py:1507-1704 | what a batch writes, call by call with its arguments and results, up to a raising call; what it counts and reserves |
| Outcomes.BatchTurnSays | src/corpclaw_lite/agent/loop.py:288-307 | the list gains the same record, the close nudge right behind the first successful fill |
| Outcomes.WarningsMean | src/corpclaw_lite/agent/loop.py:1604-1636 | when a loop warning is counted |
| Outcomes.NudgeIsGivenOnce | src/corpclaw_lite/agent/loop.py:288-307 | the nudge is spent with the first successful fill |
| Outcomes.MixedTurnMeans | src/corpclaw_lite/agent/loop.py:1542-1574 | a mixed terminal batch: every call refused in both transcripts, none executed |
| Outcomes.ExhaustedTurnMeans | src/corpclaw_lite/agent/loop.py:1507-1513 | a refused batch leaves what preceded the reply |
| Outcomes.RunAnswerIff | src/corpclaw_lite/agent/loop.py:996-1852 | the answer of a run: its last turn's, the loop fallback, the salvaged result or the apology, each exactly when |
| Outcomes.EchoIsReplaced | src/corpclaw_lite/agent/loop.py:1470-1475 | no reply hands a guard's text to the user |
| Outcomes.FirstReplyIsAnswered | src/corpclaw_lite/agent/loop.py:1419-1505 | an admitted first reply of plain text is the answer, after one call |
| Outcomes.SalvageMeans | src/corpclaw_lite/agent/adaptations/finalize.py:72-266 | which one or two calls the salvage makes, with which results, and what it says and writes |
| TranscriptsAgree.RunTranscriptsAgree | src/corpclaw_lite/agent/loop.py:996-1852 | without compression, failing appends and markers in real text the list gains exactly the assistant and tool messages the rows gain, in order, at every provider call and at the end, but for the final answer |
| Resuming.RunLeavesRestorable | src/corpclaw_lite/agent/context.py:384-492 | a run that finds a history it can put back leaves one, however it ends and whatever it compresses or rewrites |
| Resuming.EveryRunStarts | src/corpclaw_lite/agent/context.py:384-492 | every run of a chat begun with an empty store can start, as long as providers hand out encoded objects as arguments |
| Resuming.WedgedStays | src/corpclaw_lite/agent/context.py:463-492 | once a kept call decodes to no object, no run changes the store any more, so none starts again |
| BudgetGuard.SimpleBudgetGuard.ReserveToolCalls | src/corpclaw_lite/agent/guards.py:356-373 | all or nothing admission, state untouched on refusal |
| BudgetGuard.SimpleBudgetGuard.Check | src/corpclaw_lite/agent/guards.py:394-419 | the first limit reached, in the guard's order |
| BudgetGuard.ExceededMeans | src/corpclaw_lite/agent/guards.py:394-419 | a limit is named exactly when one is reached |
| BudgetGuard.ActiveTimeIsUnpausedTime | src/corpclaw_lite/agent/guards.py:375-392 | for any interleaving of pauses and resumes active time is the time outside paused intervals |
| BudgetGuard.ActiveTimeIsMonotone | src/corpclaw_lite/agent/guards.py:375-392 | on a monotone clock it is never negative, never falls, and stands still while paused |
| ProgressGuard.SimpleProgressGuard.DetectLoopForResults | src/corpclaw_lite/agent/guards.py:62-102 | the mutable guard follows the specified step, over whole batches |
| ProgressGuard.WindowInvariant | src/corpclaw_lite/agent/guards.py:38-102 | the window holds at most three pairwise distinct signatures |
| ProgressGuard.SignatureMeans | src/corpclaw_lite/agent/guards.py:62-86 | a batch's signature holds each of its errors once |
| ProgressGuard.SignatureGrows | src/corpclaw_lite/agent/guards.py:62-86 | earlier errors stand first |
| ProgressGuard.FlagIsJustified | src/corpclaw_lite/agent/guards.py:62-102 | a flag means the last threshold minus one failing batches each repeated a recent signature |
| ProgressGuard.ShortCycleIsFlagged | src/corpclaw_lite/agent/guards.py:62-102 | a failing cycle of up to three signatures is flagged exactly at its due batch |
| ProgressGuard.FailingRunIsCaught | src/corpclaw_lite/agent/guards.py:62-102 | any failing run over at most three signatures is flagged within a bound, in any order |
| ProgressGuard.LongCycleIsMissed | src/corpclaw_lite/agent/guards.py:62-102 | a cycle of four or more is never flagged |
| DedupGuard.ResultDedupGuard.Detect | src/corpclaw_lite/agent/guards.py:155-174 | the mutable streak follows the sequence of results fed so far |
| DedupGuard.ResultDedupGuard.DetectBatch | src/corpclaw_lite/agent/loop.py:265-280 | the first result of a batch that triggers, errors passed over, and exactly what was fed |
| DedupGuard.StreakMeansRun | src/corpclaw_lite/agent/guards.py:155-174 | the streak reaches a count if and only if that many last results had one hash |
| DedupGuard.TriggersIff | src/corpclaw_lite/agent/loop.py:265-280 | a result triggers exactly when it is no error and the last hashes over all batches are the same |
| DedupGuard.KeysAddUp | src/corpclaw_lite/agent/loop.py:265-280 | errors leave no key, every other result its hash, in order |
| LockTable.UserLocks.GetLock | src/corpclaw_lite/container/manager.py:115-127 | lookup, insertion and half-pruning of the table, in its own order |
| LockTable.FindIsFirst | src/corpclaw_lite/container/manager.py:115-118 | a lookup finds the first entry of its user |
| LockTable.CodePruneMeans | src/corpclaw_lite/container/manager.py:119-126 | past the cap exactly the first half of the unlocked entries are deleted |
| LockTable.WithoutMeans | src/corpclaw_lite/container/manager.py:119-126 | the other entries stay, in order |
| LockTable.StepKeepsBase | src/corpclaw_lite/container/manager.py:242-249 | holders, queues and table stay consistent under every step and every deletion |
| LockTable.CoverageIffQuiet | src/corpclaw_lite/container/manager.py:115-127 | a step leaves every task on its user's current lock if and only if what it deletes is quiet |
| LockTable.WithinCapExcludes | src/corpclaw_lite/container/manager.py:115-127 | no two holders for one user on any run within the cap |
| LockTable.QuietRunExcludes | src/corpclaw_lite/container/manager.py:115-127 | nor on any run that deletes only quiet entries |
| LockTable.QuietIsExactlySafe | src/corpclaw_lite/agent/loop.py:433-448 | quiet deletion keeps exclusion, any other can be continued into two holders |
| LockTable.CodePruningUnquietIff | src/corpclaw_lite/container/manager.py:119-126 | the code's test is unsafe exactly on the returned entry or a pending hand-off |
| LockTable.EveryCapCanBreak | src/corpclaw_lite/container/manager.py:115-127 | every cap has a schedule that ends with two holders for one user |
| LockTable.NoOvertaking | src/corpclaw_lite/container/manager.py:242-249 | on one lock no task overtakes one that queued before it, whatever is deleted |
| Calibration.ConfigEditor.BackupCurrent | src/corpclaw_lite/calibration/editor.py:266-284 | the copy loop leaves the tree and a full backup in any listing order, or raises and leaves part of one |
| Calibration.ConfigEditor.Rollback | src/corpclaw_lite/calibration/editor.py:171-196 | the delete and restore loops bring the backup back and drop it |
| Calibration.SafeNamesArePlain | src/corpclaw_lite/calibration/editor.py:28-42 | every accepted filename is a plain entry of its directory |
| Calibration.SectionsStayInside | src/corpclaw_lite/calibration/editor.py:86-169 | every write of every change set stays in a fixed section, so none can touch the backup |
| Calibration.SafeNameMeans | src/corpclaw_lite/calibration/editor.py:28-42 | which names are accepted, and which file they become |
| Calibration.FoldersMean | src/corpclaw_lite/calibration/editor.py:86-169 | what the four sections of several files write, where, in order, under which names |
| Calibration.SectionsMean | src/corpclaw_lite/calibration/editor.py:86-169 | what the three sections of one file write, and the order of all seven |
| Calibration.DoSucceedsIff | src/corpclaw_lite/calibration/editor.py:86-169 | when a directory can be made and when a file can be written |
| Calibration.DoAllMeans | src/corpclaw_lite/calibration/editor.py:86-169 | the writes go through one behind the other, up to the first that does not |
| Calibration.FaultMeans | src/corpclaw_lite/calibration/editor.py:62-84 | what a failing write leaves before the rollback |
| Calibration.DoneIsSameIff | src/corpclaw_lite/calibration/editor.py:86-169 | writes that all go through show in the tree, and leave it as it was if and only if every directory existed and each file's last written text was there already |
| Calibration.ConfigEditor.ApplyChanges | src/corpclaw_lite/calibration/editor.py:62-169 | back up, write in section order, roll back on any failing write |
| Calibration.ApplyThenRollback | src/corpclaw_lite/calibration/editor.py:62-196 | over the imperative editor: applying, with any failure, and rolling back restores the configuration if and only if there was one |
| Calibration.RollbackRestoresIff | src/corpclaw_lite/calibration/editor.py:62-84 | apply then rollback, and a failed apply, restore the configuration if and only if the directory existed |
| Calibration.HillClimb | src/corpclaw_lite/calibration/loop.py:209-299 | the loop computes the specified climb |
| Calibration.ClimbKeepsBest | src/corpclaw_lite/calibration/loop.py:214-299 | at every point the best score is the baseline plus strict improvements and the disk holds the configuration that earned it, exactly when |
| Calibration.ClimbEndsOnBest | src/corpclaw_lite/calibration/loop.py:209-299 | the climb ends on the best configuration if and only if it kept one and no evaluation raised or the last change set says nothing new; from an existing directory it is one rollback away otherwise |
| Calibration.PassedCounts | src/corpclaw_lite/calibration/scorer.py:192-203 | the score is the number of passed scenarios |
| Calibration.AllPassedIff | src/corpclaw_lite/calibration/loop.py:215-218 | nothing is left to improve exactly when as many passed as there are |
| Calibration.KeptIffMorePass | src/corpclaw_lite/calibration/loop.py:282-299 | an evaluated proposal is kept exactly when strictly more scenarios pass, and rolled back otherwise |
| Calibration.UnscoredAttempts | src/corpclaw_lite/calibration/loop.py:223-275 | an iteration without an analysis changes nothing; one that cannot write or score ends the climb |
| Calibration.ClimbNeverRegresses | src/corpclaw_lite/calibration/loop.py:209-299 | a climb never ends on fewer passed scenarios than its baseline, and tries nothing when all pass |
| FillPlan.ExtractDateValues | src/corpclaw_lite/agent/workbook_brief.py:501-528 | totals per day of the rows that count |
| FillPlan.ExtractKeyValues | src/corpclaw_lite/agent/workbook_brief.py:468-498 | totals per key of the rows that count |
| FillPlan.ExtractedMeans | src/corpclaw_lite/agent/workbook_brief.py:468-528 | a source has a key exactly when some counted row carries it, and its total is those rows' amounts |
| FillPlan.CountedMeans | src/corpclaw_lite/agent/workbook_brief.py:468-528 | which rows contribute, to which key, by their cells |
| FillPlan.RowAdds | src/corpclaw_lite/agent/workbook_brief.py:468-528 | each further row adds its amount to its key's total and changes nothing else |
| FillPlan.SkippedRowsAreInvisible | src/corpclaw_lite/agent/workbook_brief.py:515-517 | a total row changes no total, wherever it stands |
| FillPlan.NotAfterCounts | src/corpclaw_lite/agent/fill_plan.py:340-347 | the cutoff comparison orders calendar dates |
| FillPlan.MergeSource | src/corpclaw_lite/agent/fill_plan.py:343-352 | merging one source's items gives the same result in any order |
| FillPlan.MergedSumMeans | src/corpclaw_lite/agent/fill_plan.py:319-352 | under sum a key is resolved when admitted and present, to the total over the sources |
| FillPlan.MergedFirstMeans | src/corpclaw_lite/agent/fill_plan.py:348-350 | under first a key takes the total of the earliest source that has it |
| FillPlan.SumIgnoresSourceOrder | src/corpclaw_lite/agent/fill_plan.py:319-352 | under sum any permutation of the sources resolves the same |
| FillPlan.FillConserves | src/corpclaw_lite/agent/fill_plan.py:319-352 | the resolved values total exactly the counted cells of all sources up to the cutoff |
| FillPlan.ResolveSheet | src/corpclaw_lite/agent/fill_plan.py:305-392 | values, period and the errors of one sheet in the order they are met |
| FillPlan.SheetMeans | src/corpclaw_lite/agent/fill_plan.py:305-368 | which keys resolve, to which values, and when reading or merging fails |
| FillPlan.PeriodMeans | src/corpclaw_lite/agent/fill_plan.py:369-392 | the period of a sheet and every error in finding it, in order |
| FillPlan.PeriodStartsInTime | src/corpclaw_lite/agent/fill_plan.py:275-293 | a derived period does not start after the cutoff, and ends on it |
| FillPlan.ResolvePlan | src/corpclaw_lite/agent/fill_plan.py:296-397 | all sheets resolved, or the first error |
| FillPlan.PlanMeans | src/corpclaw_lite/agent/fill_plan.py:296-397 | every sheet resolves to its own values, or the first that fails names the problem |
| FillPlan.ApplyFillPlan | src/corpclaw_lite/agent/fill_plan.py:412-461 | resolving when any sheet has sources, then one line per sheet up to the first hard error, and the output file |
| FillPlan.ApplyMeans | src/corpclaw_lite/agent/fill_plan.py:424-461 | sheet by sheet: what is read, filled or skipped, reported, and left in the output |
| FillPlan.SourcesFillFromTemplate | src/corpclaw_lite/agent/fill_plan.py:424-461 | with sources: the error, or no skipped sheet and an output that is the chain of fills on the template |
| FillPlan.ParsedPlanFillsFromTemplate | src/corpclaw_lite/agent/fill_plan.py:75-189 | so for every plan that was parsed |
| FillPlan.HandBuiltPlanCanIgnoreTemplate | src/corpclaw_lite/agent/fill_plan.py:434-443 | a plan built without sources reads its template if its first sheet has values, and never otherwise |
| ToolSurface.ApplyPhaseFilter | src/corpclaw_lite/agent/tool_surface.py:197-235 | the loop computes the filter of the base schema |
| ToolSurface.FilterOnlyHides | src/corpclaw_lite/agent/tool_surface.py:197-235 | the result is an order-preserving subsequence of the base |
| ToolSurface.ShownMeans | src/corpclaw_lite/agent/tool_surface.py:197-235 | exactly which entries are shown, each as often as it is in the base |
| ToolSurface.DetectMeans | src/corpclaw_lite/agent/tool_surface.py:152-194 | the phase in plain terms: off, a change, an analysis, a memory call last, or reading |
| ToolSurface.ExtensionsAreKept | src/corpclaw_lite/agent/tool_surface.py:222-234 | unknown tools and unnamed entries are never dropped |
| ToolSurface.ExecutingShowsAll | src/corpclaw_lite/agent/tool_surface.py:197-235 | the executing phase shows the base itself |
| ToolSurface.BuiltInWidens | src/corpclaw_lite/agent/tool_surface.py:53-119 | the shipped allow-lists widen with the phase |
| ToolSurface.BuiltInPhases | src/corpclaw_lite/agent/tool_surface.py:53-194 | with the shipped lists a query is an analysis, an edit a change, and recalling memory neither |
| ToolSurface.StickinessIsRedundant | src/corpclaw_lite/agent/tool_surface.py:152-194 | over a run the remembered phase never changes the decision |
| ToolSurface.PhasesNeverFall | src/corpclaw_lite/agent/adaptations/tool_surface.py:29-92 | over a run the phase never falls in rank |
| ToolSurface.SchemaOnlyGrows | src/corpclaw_lite/agent/adaptations/tool_surface.py:29-92 | once analysing is reached the tools shown only grow, in order |
| ToolSurface.ReadingCanNarrow | src/corpclaw_lite/agent/tool_surface.py:180-194 | before that a memory call can narrow them |
| PhasePolicy.TerminalToolMandate.ShouldNudge | src/corpclaw_lite/agent/guards.py:577-585 | fires at most once, exactly when due |
| PhasePolicy.Decisions | src/corpclaw_lite/agent/loop.py:1085-1200 | the guards and the policy driven turn by turn give the specified decisions |
| PhasePolicy.DecisionMeans | src/corpclaw_lite/agent/phase_policy.py:142-167 | the decision by the turns: past the deadline, a marker tool called, an escalation due |
| PhasePolicy.PreviousToolsWereUsed | src/corpclaw_lite/agent/loop.py:1092-1095 | the previous turn's tools are among the tools used |
| PhasePolicy.DecisionsNeverFallBack | src/corpclaw_lite/agent/phase_policy.py:142-167 | a workflow run is gathering, then aggregation, then closing |
| FileState.FileStateRegistry.RecordRead | src/corpclaw_lite/agent/file_state.py:62-76 | the dictionaries keep saying what the event log says, with first-in eviction |
| FileState.FileStateRegistry.CheckStale | src/corpclaw_lite/agent/file_state.py:92-115 | the verdict as a function of the event log |
| FileState.FileStateRegistry.WritesSince | src/corpclaw_lite/agent/file_state.py:119-131 | exactly the asked paths last written by someone else |
| FileState.StampsAreBounded | src/corpclaw_lite/agent/file_state.py:62-76 | never more than 4096 stamps per task, each path once |
| FileState.JustReadIsRetained | src/corpclaw_lite/agent/file_state.py:62-76 | the read just recorded is retained; another path goes exactly when it is the oldest of a full cache |
| FileState.SafeIsJustified | src/corpclaw_lite/agent/file_state.py:92-115 | a safe verdict means the agent has read the path and the latest write is its own or absent |
| FileState.DocumentedSafeIff | src/corpclaw_lite/agent/file_state.py:92-98 | the documented verdict by positions: read, and every foreign write before the last read |
| FileState.SafeIff | src/corpclaw_lite/agent/file_state.py:99-115 | the code's verdict by positions: the read is retained and the last write of all is not foreign |
| FileState.MissedIff | src/corpclaw_lite/agent/file_state.py:92-115 | a stale file goes unwarned if and only if a foreign write lies between the retained read and an own write |
| FileState.FalseAlarmIff | src/corpclaw_lite/agent/file_state.py:92-115 | a fresh file is warned about if and only if the read was evicted or the last write of all is foreign |
| FileState.EvictionHappens | src/corpclaw_lite/agent/file_state.py:70-76 | one read over the cap: the first file was read, never written, and is reported as not read |
| FileState.RetainedBelowCap | src/corpclaw_lite/agent/file_state.py:70-76 | while fewer files than the cap have been read nothing is evicted: retained means read |
| FileState.BelowCapIff | src/corpclaw_lite/agent/file_state.py:92-115 | there both wrong verdicts are characterised by the positions of the last read, foreign write and write alone |
| FileState.BothHappen | src/corpclaw_lite/agent/file_state.py:92-115 | concrete logs for both |
| Scorer.IsSubsequenceOf | src/corpclaw_lite/calibration/scorer.py:205-209 | the iterator-consuming test is true if and only if an increasing embedding exists |
| Scorer.GreedyIsExact | src/corpclaw_lite/calibration/scorer.py:205-209 | taking the first match never costs a later one |
| Scorer.ScoreAll | src/corpclaw_lite/calibration/scorer.py:192-203 | the accumulating loop computes the totals |
| Scorer.PassedInCounts | src/corpclaw_lite/calibration/scorer.py:192-203 | the overall score counts the passed results |
| Scorer.CategoryIsCounted | src/corpclaw_lite/calibration/scorer.py:197-201 | each category's pair counts exactly its own results |
| Scorer.CategoriesSumToScore | src/corpclaw_lite/calibration/scorer.py:192-203 | the categories' pairs sum to the overall pair |

## Left out

- Message keys other than role, content, tool calls, call id and name (reasoning text, provider metadata), content that is not a string, and `tool_calls` on user messages.
- Provider, tool, store, approval, event, health and trace code: their answers are parameters; the model does not say what they compute.
- The text of prompts, hints and instructions, and what is appended to the system prompt (loop, dedup and mandate instructions): only the transcript is modelled.
- Text recognition (blank, XML markup, planning phrases, loop-guard echo, successful fill): arbitrary predicates on the text.
- Inside the loop the verdicts of the two loop detectors are arbitrary answers, so the run theorems hold for any detector; the detectors themselves are proved in `ProgressGuard.dfy` and `DedupGuard.dfy`, where hashing and error normalising are arbitrary functions.
- Pausing the budget around queue waits inside the loop: active time over any pauses is proved in `BudgetGuard.dfy`, and the loop's clock readings are arbitrary.
- The summary cache and the order in which it evicts; the summariser prompt.
- AgentRun.Run: takes the budget as enabled, as the loop always constructs it; a disabled budget would remove the limits.
- Cancellation of a run from outside, and exceptions other than a raising provider or tool call and an unusable history; a store failure is modelled for appends, loads and rewrites.
- StoreRewrite.CompressStoreTranscript: no concurrent writer between load and rewrite; the caller holds the chat's single-run lock.
- LockTable.UserLocks.GetLock: asyncio locks are taken to hand over first in, first out, with a released lock unlocked until the next waiter resumes; the create semaphore and the container calls are not modelled.
- Calibration.HillClimb: metadata saving behind the climb, and what rebuilding the stack and running the scenarios do beyond returning results or raising.
- FillPlan.ExtractDateValues: amounts are exact reals, so rounding of sums is not modelled; date and number parsing are inputs, and so is the normalised key text.
- FillPlan.ApplyFillPlan: what a workbook fill writes is a parameter; output and template paths are taken to differ. Parsing the plan's JSON and its cutoff text, with their own errors, comes before.
- Tool relevance ranking, schema narrowing by mandate and closing mode, and which profiles are hard-filtered.
- FileState.FileStateRegistry.RecordRead: the disabling environment flag and the write timestamps, which no verdict reads.
- The per-scenario checks of the scorer other than tool order.
- Docker life cycle, CLI, chat and web channels, and the scheduler.
