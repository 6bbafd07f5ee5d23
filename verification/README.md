# Verified models of droid-proxy's stateful cores

droid-proxy stands between coding clients and model providers. Six of its parts hold state that
has to agree with something simpler; this project models them in Dafny and proves the agreement
for all inputs and all runs.

| part | files |
|---|---|
| Crash-safe port migration: a write-ahead journal over two files, with recovery and rollback | `MigrationProtocol`, `MigrationEdits`, `MigrationSafety`, `MigrationRuns`, `MigrationDrive`, `MigrationCommands` |
| Chat streams translated to Responses and Anthropic events, against the batch translators | `ChatWire`, `ChatReader`, `ChatClient`, `ChatResponses`, `ChatResponsesRefinement`, `ChatResponsesGrammar`, `ChatAnthropic`, `ChatAnthropicRefinement`, `ChatForward` |
| Repair of Responses event streams, against the batch reader | `SseFrames`, `SseRepair`, `SseBatch`, `SseOutput` |
| Codex account pool, conversation affinity and the failover handler | `Affinity`, `AccountPool`, `Failover` |
| Reasoning cache, capture and replay | `ReasoningCache`, `ReasoningMessages`, `ReasoningCapture` |
| Two round trips: service command lines and port splicing | `Systemd`, `FactoryRewrite` |

`Basics` holds options, results, white space and sorted sets. Code that updates state in place is
a class or a loop, proved against functions of the history (of chunks, frames, fragments, log
entries, runs); the theorems are about those functions. JSON, clocks and upstream servers are
function parameters or arbitrary choices. What the claims suppose of them is named where it is
used: `{}` is valid JSON (the Responses refinement); the decoder reads encoded chunks back
(`ChatReader.Encodes`); neither nothing nor `[DONE]` is typed JSON (`SseBatch.Sane`); the JSON
library breaks no lines (`SseBatch.KeepsLines`, for one-line streams only); an output that was set
is read back (`SseOutput.OutputReadsBack`); hashes of files do not collide, as they are modelled by
the contents.

Check everything with `dafny verify dfyconfig.toml`.

## How the parts are modelled

- **Migration.** `MigrationProtocol.Step` is one disk step; a run may interleave crashes and, in
  `MigrationEdits`, arbitrary user writes to any file between steps. The comparison inside
  `commitTarget`, or before a restore, is one step and the rename that follows it is another
  (`Put`), so user writes and crashes may fall between the two. The class `Migrator` is the
  sequential code; its methods log the labels of the machine, and their contracts say that
  exactly one command of the machine was executed. Every I/O call goes through `Call`, which may
  fail or follow a user write and then sets `disturbed`; undisturbed commands end on the disk that
  `MigrationDrive.Drive` computes. Hashes are the contents themselves.
  Transaction ids are fresh. Three journal writes may fail without notice, at lines 160, 176 and
  189 of `internal/migration/transaction.go`.
- **Chat streams.** A translator's state and output are functions of the chunks seen. `Cuts`
  says that a list of chunks is one way of cutting a message: text before tools, ids and names
  whole in a tool's first delta, argument fragments that add up.
- **Event streams.** Bytes are chars below 256; white space is stripped as UTF-8, as
  `bytes.TrimSpace` does. Section 9.2 of the WHATWG HTML Living Standard also knows a lone CR as
  a line end; the code, and so the model, does not.
- **Account pool.** Each method is one critical section and one step of a machine; an
  interleaving of callers is a sequence of steps. The failover handler runs on the real pool class
  while `Interfere` lets everyone else do any number of steps and the clock move on. Its log notes
  what it does and what every call it makes comes to, a fruitless selection with the pool it met; it
  is checked against the protocol `Advance`, which fixes what must follow each of these.
- **Reasoning.** Texts are measured by a size function, standing for the length in bytes.

## What the proofs found

- An edit saved between the hash check of a target and its rename is overwritten, and the
  migration is reported completed (`MigrationEdits.EditInWindowIsLost`, `ALostEdit`,
  `MigrationDrive.LostEditIsReportedCompleted`); `MigrationEdits.NoLostEdits` gives the exact
  condition for every run.
- Rollback does not check for pending transactions and can strand one
  (`MigrationDrive.RollbackCanStrandPending`); `RollbackSparesPendingIff` gives the exact condition.
- A migration whose plan is stale leaves its journal in progress if its targets still exist, and no
  journal if one is gone (`MigrationDrive.MigrationCompletesIffPlanIsCurrent`). If only the Factory
  file is stale, the config is rewritten all the same; and if that file holds neither its planned
  nor its new bytes, recovery refuses as long as it stays so (`StaleFactoryStrandsMigration`).
- Recovery of a split pair overlooks an unreadable target and one that was put back to its old
  bytes after being marked (`MigrationDrive.UnreadableConfigCompletesSplit`,
  `RecoveryCompletesCoherentlyIff`).
- Streamed and batch Responses output differ for empty messages, for finish reasons `length` and
  `content_filter` (the batch items say completed), and for arguments with outer white space;
  the conditions of both `StreamRefinesBatch` lemmas are exact.
- Both translators accept negative tool indexes; a tool of index -1 beside text takes the output
  index of the text, which breaks the event protocol. No other stream does
  (both `StreamsAreGrammatical`).
- A stream that required visible output may pass the framer and fail the batch reader when the
  only thing shown was the announcement of an item (`SseBatch.StrictVerdictsDifferIff`).
- A `null` `reasoning_content` in any streamed delta drops the capture of that choice, where
  the whole response would have been captured (`ReasoningCapture.CaptureIgnoresFragmentation`).
- The comments at lines 199 and 397 of `internal/handlers/oauth_responses.go` say that a failed
  replay after 401 or 403 does not consume the failover budget; the code's `continue` increments
  the attempt, and the model follows the code. The branch for an account replayed before, at
  line 400, is dead with several accounts.
- A chat stream that delivers no chunk fails under both translators, also when it is closed by
  `[DONE]` (`ChatForward.NoFinishFails`).
- The suffix test in the framer's `Flush` never finds a terminator (`SseRepair.Framer.Flush`).

## Model

| member | source | states |
|---|---|---|
| `MigrationEdits.OnlyPutChangesFiles` | internal/migration/transaction.go:251-276 | The only step that changes a file is the write of a target: new bytes for a pending transaction, old bytes for a completed one, on that path alone. |
| `MigrationEdits.GuardSeesOwnBytes` | internal/migration/transaction.go:257-271 | A write is reached only from a guard that saw the transaction's own bytes on the path (old ones before a commit, new ones before a restore). |
| `MigrationEdits.GuardOfWrite` | internal/migration/plan.go:181-216 | In every run each write has its guard, and between the two only the user has done anything. |
| `MigrationEdits.NoLostEdits` | internal/migration/transaction.go:251-276 | In every run with arbitrary user writes, crashes and failing I/O at any step, also between the hash check and the rename, every change of a target that is not the user's own is a guarded write, and what it replaces is the transaction's own bytes if and only if the user has left the path as the guard saw it. |
| `MigrationEdits.UntouchedPathIsSafe` | internal/migration/transaction.go:251-276 | If no user write after the guard touches the path, the write replaces what the guard saw. |
| `MigrationEdits.EditInWindowIsLost` | internal/migration/plan.go:181-216 | The window is real wherever a guard passes (committing, rolling forward or restoring, config or Factory): whatever the user saves between guard and rename is replaced, and the command goes on. |
| `MigrationEdits.WindowsOpen` | internal/migration/transaction.go:257-271 | Every guard that passes opens such a window, for each of the three commands. |
| `MigrationEdits.ALostEdit` | internal/migration/plan.go:205-209 | A concrete run from an empty journal directory: a config edited between check and rename ends with the new bytes. |
| `MigrationEdits.TransactionsAreImmutable` | internal/migration/transaction.go:143-209 | Over any stretch of any run a journal stays the same transaction (paths and bytes), its backups keep the old bytes, and a rolled back or aborted status is final. |
| `MigrationSafety.StepKeepsSafe` | internal/migration/transaction.go:358-416 | The crash-safety invariant (one pending journal at most; contents old/old, new/old or new/new; staged bytes kept while the pair is split) survives every atomic step of commit, recovery and rollback. |
| `MigrationRuns.CrashAtomicity` | internal/migration/transaction.go:464-497 | In every state of every run without outside edits, in which a rollback may start whenever it refuses or restores no target of a pending transaction, at most one journal is in progress, its targets are (old, old), (new, old) or (new, new), and while they are split the staged new bytes of the old target still exist. |
| `MigrationRuns.ClosingIsCoherent` | internal/migration/transaction.go:143-209 | Whenever a journal is closed in such a run, aborted and rolled back mean that every target is old, completed means that every target is new. |
| `MigrationRuns.JournalOfPlan` | internal/migration/transaction.go:61-74 | An id that a migration has used belongs, in every later state, to the transaction of that plan. |
| `MigrationRuns.RollbackRestoresOriginals` | internal/migration/transaction.go:556-613 | After any crashes in between, a rollback that finishes leaves both targets byte-identical to what they were when the migration began. |
| `MigrationDrive.StepDecreasesRank` | internal/migration/transaction.go:328-355 | Every step lowers a measure of the work left: no command runs for ever. |
| `MigrationDrive.RecoverySettles` | internal/migration/transaction.go:328-355 | From any state that crashes can produce, a recovery left alone never refuses: it ends with nothing pending, and what was pending is aborted with all targets old or completed with all targets new; with nothing pending it changes neither journals nor files. |
| `MigrationDrive.RecoveryIsIdempotent` | internal/migration/transaction.go:328-355 | A second recovery straight after a finished one changes nothing. |
| `MigrationDrive.RollbackOutcome` | internal/migration/transaction.go:556-613 | What a rollback does to the disk, for all contents: nothing if a target is missing or holds a third content, otherwise every new target is put back and the journal says rolled back. |
| `MigrationDrive.RollbackFinishes` | internal/migration/transaction.go:538-613 | A rollback of a completed transaction with undisturbed targets finishes with all targets old. |
| `MigrationDrive.MigrationCompletesIffPlanIsCurrent` | internal/migration/transaction.go:214-276 | What an uninterrupted migration makes of any plan. It completes, with all targets new, if and only if the plan's old bytes are still in place; it leaves no journal if and only if a target is gone, and then changes no file; otherwise its journal stays in progress, with no file changed if the config was edited, and with the config already new if only the Factory file was. |
| `MigrationDrive.StaleFactoryStrandsMigration` | internal/migration/transaction.go:155-192 | With a Factory file that holds neither its planned nor its new bytes the migration writes the config and leaves the Factory file, and recovery of the pending journal refuses, changing nothing. |
| `MigrationDrive.LostEditIsReportedCompleted` | internal/migration/transaction.go:155-209 | A config edited between check and rename is overwritten, and the migration is then reported completed with both targets new. |
| `MigrationDrive.RecoveryCompletesCoherentlyIff` | internal/migration/transaction.go:464-497 | Where users may have touched the targets, a recovery that reports completion leaves every target new exactly when no overlooked target (unreadable, or marked committed but put back to old) is among them. |
| `MigrationDrive.UnreadableConfigCompletesSplit` | internal/migration/transaction.go:466-487 | The failing family, concretely: a pending transaction with an unreadable config is reported completed although only its Factory file was looked at. |
| `MigrationDrive.RollbackSparesPendingIff` | internal/migration/transaction.go:538-613 | Rollback does not look for pending transactions: it leaves a pending one's targets alone exactly when none of them is a target it puts back. |
| `MigrationDrive.RollbackCanStrandPending` | internal/migration/transaction.go:538-613 | When it does touch them, recovery of the pending transaction can refuse ever after. |
| `MigrationCommands.Migrator.CommitTransaction` | internal/migration/transaction.go:43-209 | The sequential commit is one execution of the protocol machine, with any user writes in between, and its answer says what was done: migrated if and only if the journal of its id is completed (then it is the transaction of the plan), recovered(i) if and only if i went from in progress to completed, a failure only for a failed call, a user write, a pending transaction or a plan with something to do. If no call fails and the user does not write, the disk is exactly what driving the machine makes of it; with nothing pending, migrated is then answered if and only if the plan is current. |
| `MigrationDrive.UndisturbedRunDrives` | internal/migration/transaction.go:328-355 | A stretch of a run in which no call fails and the user does nothing ends, if it ends, on the disk that driving its first state gives: it links the sequential commands to the outcomes proved of the machine. |
| `MigrationCommands.Migrator.CommitBoth` | internal/migration/transaction.go:165-190 | Config then Factory, each noted in a journal write whose failure is ignored; on success every target is marked, and no other journal is touched. |
| `MigrationCommands.Migrator.RecoverIncompleteLocked` | internal/migration/transaction.go:328-355 | The loop over the journals is one execution of the machine's recovery; what it closes and what it answers agree. |
| `MigrationCommands.Migrator.RecoverOne` | internal/migration/transaction.go:358-416 | Assess, then abort, finalise, refuse or roll forward, step for step as the machine does. |
| `MigrationCommands.Migrator.RecoverSplitForward` | internal/migration/transaction.go:464-497 | Rolling forward commits only the targets that were found old and are not marked: the closing journal is the old one with exactly those marked; on failure no journal changes. |
| `MigrationCommands.Migrator.RecoverIncomplete` | internal/migration/transaction.go:514-535 | Recovery on its own is one execution of the machine's recovery. No-op means that nothing is pending, recovered(i) is answered if and only if i went from in progress to completed, a failure needs a failed call, a user write or a journal still pending; undisturbed, the disk is what driving recovery makes of it. |
| `MigrationCommands.Migrator.RollbackTransaction` | internal/migration/transaction.go:538-613 | The sequential rollback is one execution of the machine's rollback: it answers success if and only if the completed journal is now rolled back, changes no other journal, and undisturbed leaves the disk that driving the rollback gives. |
| `MigrationCommands.Migrator.ListJournals` | internal/migration/journal.go:106-137 | Every journal exactly once, in increasing id order, or no listing, and that only if a call failed or the user wrote. |
| `MigrationCommands.Migrator.Prepare` | internal/migration/transaction.go:214-247 | Backups, then staged files, then the first journal write. |
| `ChatReader.WrittenStreamIsDelivered` | internal/translate/chat_stream.go:434-452 | Any list of chunks, written as data lines and closed by [DONE], is delivered exactly whatever follows; success if and only if the translator lets the stream end there. |
| `ChatReader.TruncatedStreamFails` | internal/translate/chat_stream.go:524-531 | The same stream without [DONE] fails. |
| `ChatReader.NoiseIsIgnored` | internal/translate/chat_stream.go:552-562 | Comment lines and other fields change nothing wherever they stand. |
| `ChatReader.SuccessIsComplete` | internal/translate/chat_stream.go:434-452 | Whatever the lines, only chunks the translator took are delivered, and success implies that it completed. |
| `ChatWire.IndexesOfCut` | internal/translate/chat_stream.go:157-198 | The tool indexes of a cutting are exactly the positions of the message's tools. |
| `ChatWire.OffsetIsStable` | internal/translate/chat_stream.go:141-157 | However an accepted stream goes on after its first tool, the output indexes never shift. |
| `ChatResponses.ChatToResponses` | internal/translate/responses_chat.go:268-321 | The batch loop yields the message item and the call items in order, or fails exactly when some call is malformed; the status is incomplete with reason max_output_tokens for the finish length and content_filter for content_filter, and completed without a reason for every other. |
| `ChatResponses.ToolsAreHistory` | internal/translate/chat_stream.go:166-190 | Each tool's state is its first id, last name and all argument fragments. |
| `ChatResponses.ResponsesStream.Observe` | internal/translate/chat_stream.go:130-204 | For every history of chunks: accepted if and only if there is one choice, numbered 0, with no text starting after a tool; the events written so far are those the history demands. |
| `ChatResponses.ResponsesStream.Complete` | internal/translate/chat_stream.go:206-277 | Ends exactly when a finish reason came and, unless cut short, all arguments are JSON; writes the closing events in index order and one terminal event, with status and reason as for the batch answer, or nothing. |
| `ChatResponsesRefinement.StreamRefinesBatch` | internal/translate/chat_stream.go:206-277 | For every cutting of a message the terminal output equals the batch output if and only if the message is not empty, not cut short by length or content_filter, and every call has a non-blank id, a name and JSON arguments without outer white space; status and reason always agree. |
| `ChatResponsesGrammar.StreamsAreGrammatical` | internal/translate/chat_stream.go:157-277 | A completed stream is read to its end by a client that insists on the protocol (one opening event first, every index opened once, fed, closed once, done text and arguments equal to the concatenated deltas, one terminal event last that carries exactly the closed items) if and only if it has no tool of index -1 beside text. |
| `ChatAnthropic.ChatToAnthropic` | internal/translate/anthropic_chat.go:351-380 | The batch loop yields the text block and the tool blocks in order, or fails exactly when some call is malformed. The stop reason is tool_use with a tool; without one max_tokens if and only if the finish is length, stop_sequence if and only if it is content_filter, tool_use if and only if it is tool_calls, and end_turn for every other. |
| `ChatAnthropic.AnthropicStream.Observe` | internal/translate/chat_stream.go:335-397 | As for Responses: accepted exactly for admissible chunks, and the events written are those the history demands. |
| `ChatAnthropic.AnthropicStream.Complete` | internal/translate/chat_stream.go:399-427 | Ends exactly when a finish reason came and all trimmed arguments are JSON; stops every block in index order, then message_delta with the stop reason, told as for the batch answer, and message_stop, or writes nothing. |
| `ChatAnthropicRefinement.StreamsAreGrammatical` | internal/translate/chat_stream.go:356-427 | A completed stream is read to its end by a client that insists on the block protocol, which then holds, per index, the concatenated text and tool JSON, and the stop reason that the finish and the tools demand, if and only if it has no tool of index -1 beside text. |
| `ChatAnthropicRefinement.StreamRefinesBatch` | internal/translate/chat_stream.go:335-427 | For every cutting of a message, a strict client that reads the streamed events ends with exactly the batch content and stop reason if and only if the message is not empty and every tool call is agreeable (batch accepts it, its id is not blank, its trimmed arguments are JSON too). |
| `ChatForward.ReadChatStream` | internal/translate/chat_stream.go:429-584 | The one-pass line loop, with either translator behind its callbacks, gives exactly the outcome of cutting the whole stream into records first and reading the records after; what has been written are the events of the chunks delivered, with the closing events exactly on success. |
| `ChatForward.NoFinishFails` | internal/translate/chat_stream.go:206-209 | Whatever the lines, a stream that delivers no finish reason fails under both translators; so does one that delivers no chunk, such as one that holds only [DONE]. |
| `ChatForward.ForwardedAnswerIsBatchAnswer` | internal/translate/chat_stream.go:84-277 | From the wire to the answer: for every message, every cutting, every encoding the decoder reads back and whatever follows [DONE], forwarding succeeds and its last event carries status, reason and output of the batch translation if and only if the message is agreeable. |
| `ChatForward.ForwardedReadsAsBatch` | internal/translate/chat_stream.go:291-427 | The same for Anthropic: a strict client that reads what was written ends with the batch content and stop reason if and only if the message is agreeable. |
| `SseFrames.EarliestStartIsEarliestEnd` | internal/handlers/oauth_sse.go:146-161 | The terminator that starts first is the one that ends first; there is a frame end exactly when some terminator is complete. |
| `SseFrames.FrameEndIsStable` | internal/handlers/oauth_sse.go:146-161 | Bytes that arrive later never move the end of a frame. |
| `SseFrames.FramesOfMore` | internal/handlers/oauth_sse.go:63-76 | Frames of a growing stream are the frames so far and those of the carried rest with the new bytes. |
| `SseFrames.FramesAreTheBytes` | internal/handlers/oauth_sse.go:63-76 | Cutting into frames loses no byte. |
| `SseFrames.DataIgnoresTerminator` | internal/handlers/oauth_sse.go:163-174 | Closing an unfinished frame does not change its data. |
| `SseFrames.ReplacedDataReadsBack` | internal/handlers/oauth_sse.go:187-198 | A frame whose data was replaced carries the new data if and only if that is one line without outer white space. |
| `SseFrames.WhiteSpaceIsStripped` | internal/handlers/oauth_sse.go:163-174 | Stripping the bytes of a frame agrees with the white space of Unicode: the encoding of a character is dropped at either end exactly when the character is white space. |
| `SseFrames.DataLinesReadBack` | internal/handlers/oauth_sse.go:163-174 | The data of a frame is what its data lines say, joined by line feeds. |
| `SseFrames.ReplacedDataKeepsEvent` | internal/handlers/oauth_sse.go:176-198 | Replacing the data by one line keeps the event name. |
| `SseRepair.Framer.WriteChunk` | internal/handlers/oauth_sse.go:63-76 | Whatever the chunk, the state stays the one determined by all bytes received, however they were cut. |
| `SseRepair.Framer.Flush` | internal/handlers/oauth_sse.go:78-97 | At the end the output is a function of the bytes alone; what was pending never ends in a terminator, so the suffix test always appends one. |
| `SseRepair.Framer.RepairFrame` | internal/handlers/oauth_sse.go:99-144 | Items, visibility and terminal flags are those of the frames seen so far, and the frame written is the one they determine. |
| `SseRepair.RelayChunks` | internal/handlers/oauth_sse.go:63-97 | Chunking invariance: for every list of chunks the total output depends only on their concatenation. |
| `SseRepair.CollectOutputItem` | internal/handlers/oauth_sse.go:389-399 | Given the indexed and unindexed items of a history, the results are those of the history with one more finished item. |
| `SseRepair.PatchCompletedOutput` | internal/handlers/oauth_sse.go:401-435 | Missing output becomes the array of the last item of each index in increasing index order, then the others by arrival. |
| `SseRepair.ItemsInOrder` | internal/handlers/oauth_sse.go:406-431 | Any sorted list of the indexes gives the same array. |
| `SseOutput.ItemsAreGathered` | internal/handlers/oauth_sse.go:389-431 | The output items, told from the payloads: for each index the item of the last finished payload that has it, exactly once, by increasing index; then those without an index by arrival; nothing else. |
| `SseBatch.ResponseFromSse` | internal/handlers/oauth_sse.go:282-351 | The batch answer is given by the first terminal event, and there is none exactly when no event is terminal. |
| `SseBatch.ReadFrames` | internal/handlers/oauth_sse.go:303-350 | The loop over the frames gives the answer of the first terminal event, with the items seen before it. |
| `SseBatch.IncrementalAgreesWithBatch` | internal/handlers/oauth_sse.go:99-144 | Whenever the batch reader makes a response of an event stream (a body that is not bare JSON), the incremental output holds, right after what it wrote for the frames before, a frame for the same event; its data is the payload with that response if and only if it was forwarded unchanged or is compact. |
| `SseBatch.OneLineStreamsAgree` | internal/handlers/oauth_sse.go:99-144 | If every frame has its data on one line and the JSON library breaks no lines, the frame written for the terminal event carries the very response of the batch reader, without exception. |
| `SseBatch.StrictVerdictsDifferIff` | internal/handlers/oauth_sse.go:303-340 | With visible output required, the two readers judge the same terminal event differently exactly when an announced item was the only thing shown. |
| `SseBatch.UnfinishedStreamIsRelayed` | internal/handlers/oauth_sse.go:78-144 | A stream without terminal events is relayed byte for byte, up to closing its last frame, if visible output is not required, or is shown and shown before every end mark; otherwise the error frame replaces the first end mark that came too early or, without one, follows the stream. |
| `SseOutput.MissingOutputIsFilled` | internal/handlers/oauth_sse.go:401-435 | From the bytes to the client: whenever the batch reader makes a response of an event stream whose terminal payload lacks output, and setting it succeeds, the output is exactly the list so gathered from the frames before it; a payload that has output, or no items to get, is left as it was. The framer writes the frame of the same event, unchanged or with the repaired payload, and for one-line data that carries the same response under the same event name. |
| `SseOutput.FailuresAgree` | internal/handlers/oauth_sse.go:282-351 | A stream that ends in a failure is an upstream error to the batch reader, and for the framer a relayed response.failed or the error frame made of the error event. |
| `SseOutput.PrefixIsRelayed` | internal/handlers/oauth_sse.go:99-144 | What stands before the terminal event is relayed byte for byte, if visible output is not required or came before every end mark. |
| `Affinity.AffinityStore.Bind` | internal/oauth/affinity.go:189-206 | The new binding joins, then only bindings no newer than every one kept are evicted, down to the maximum. |
| `Affinity.NewestStays` | internal/oauth/affinity.go:189-206 | A binding newer than every other one is there after the eviction, with its trimmed account and time. |
| `Affinity.AffinityStore.Prune` | internal/oauth/affinity.go:218-236 | Exactly the bindings of unknown accounts and the expired ones go (each condition spelled out), then eviction of the oldest down to the maximum. |
| `Affinity.AffinityStore.EnforceMax` | internal/oauth/affinity.go:238-257 | Size eviction removes no more than needed and only bindings no newer than every one kept. |
| `Affinity.OldestFirst` | internal/oauth/affinity.go:242-252 | All ids exactly once, sorted by age. |
| `Affinity.AffinityStore.constructor` | internal/oauth/affinity.go:98-134 | The bindings held are those of the file that are neither blank nor expired, less the oldest beyond the maximum. |
| `AccountPool.LeasesAreConserved` | internal/oauth/pool.go:258-300 | In every interleaving of Begin, End by holders, Reload with any tokens, marks and bindings, every in-flight count is the number of outstanding leases, every leased account has an entry, and entries without a token file are there exactly while leased. |
| `AccountPool.HolderEndsItsLease` | internal/oauth/pool.go:411-426 | A holder always finds its account with a positive count: the clamp never fires; the last End of a removed account deletes it. |
| `AccountPool.StrayEndIsHarmlessIff` | internal/oauth/pool.go:411-426 | An End by someone who holds nothing keeps the accounts right exactly when nobody holds a lease there. |
| `AccountPool.BindingsAgreeWithPool` | internal/oauth/pool.go:302-341 | In the same runs, if no token path has outer white space, every binding names an account whose token file is present, and bindings never exceed the maximum. |
| `AccountPool.BindAgreesIff` | internal/oauth/pool.go:322-333 | Binding trims the account path: the store then agrees with the pool exactly when the trimmed path is itself present. |
| `AccountPool.BoundIsFound` | internal/oauth/pool.go:322-333 | After a binding step on a present account of a sticky pool the conversation is bound to it, if the other bindings are older. |
| `AccountPool.ClearedIsUnbound` | internal/oauth/pool.go:336-341 | After a clearing step the conversation has no binding and every other one has kept its own. |
| `AccountPool.AccountPool.Reload` | internal/oauth/pool.go:258-300 | One reload step of the machine: updated, added, kept as tombstone or removed; leases untouched; bindings pruned. |
| `AccountPool.AccountPool.Begin` | internal/oauth/pool.go:393-407 | Takes a lease if and only if the account is there with its token file; one begin step of the machine. |
| `AccountPool.AccountPool.End` | internal/oauth/pool.go:411-426 | Returns one lease; one end step of the machine. |
| `AccountPool.AccountPool.MarkUnhealthy` | internal/oauth/pool.go:451-459 | One mark step of the machine, for the cooldown time and only on an account that is there; leases untouched. |
| `AccountPool.AccountPool.BindConversation` | internal/oauth/pool.go:322-333 | Binds only present accounts of a sticky pool. |
| `AccountPool.AccountPool.Select` | internal/oauth/pool.go:565-640 | Whoever is returned has a token file, is a Codex account outside the excluded ones that fits the pin, is not disabled, has no cooldown or rate limit past now, is healthy or past its unhealthy time, and is not expired without a refresh token; none is returned if and only if no account is like that. Accounts under the soft cap are preferred; of a sticky conversation the bound one if preferred and otherwise the least used. |
| `AccountPool.EligibleIffSound` | internal/oauth/pool.go:759-792 | Eligible is: not excluded and without any of the listed defects. |
| `AccountPool.MarkSuspendsUntil` | internal/oauth/pool.go:429-490 | Over any run after a mark for cooldown, rate limit or ill health until t, as long as no step clears, renews or reloads that account: before t it is defective, so that no Select returns it; from t on the mark no longer counts against it. |
| `AccountPool.DropMissing` | internal/oauth/pool.go:275-288 | Entries without a token go, or stay as tombstones while leased. |
| `AccountPool.AddOrUpdate` | internal/oauth/pool.go:290-298 | Every token updates its entry or adds one. |
| `AccountPool.ByPathIsLast` | internal/oauth/pool.go:258-274 | Of several tokens with one path the last Codex token counts. |
| `AccountPool.ReloadedArePresent` | internal/oauth/pool.go:258-298 | After a reload the accounts with a token file are exactly those of the Codex tokens. |
| `AccountPool.ReloadedUsability` | internal/oauth/pool.go:345-391 | After a reload an account of the token set cannot serve at a time if and only if its token is disabled or expired for good, or a cooldown or ill health from before lasts, or a rate limit holds: one from before, unless the token names an earlier time, or else the token's. |
| `Failover.ProtocolBalances` | internal/handlers/oauth_responses.go:204-494 | Along any log that keeps the lease protocol (token, request and send in this order, each outcome followed by its own mark, binding, clearing or reply), every Begin is matched by one End except for the lease held, and nothing is answered twice. |
| `Failover.StatusDecides` | internal/handlers/oauth_responses.go:312-473 | Along any log that keeps the protocol, which status leads to what, in plain numbers: only 2xx is bound and streamed, and its lease not returned before that; only 401 and 403 are replayed, once; a rate limit is marked for 429 alone, a cooldown for 5xx or a lost send, ill health for a lost token or a failed replay; only what is left is examined, and stripped for 4xx alone, for 407 only if the body blames reasoning items. |
| `Failover.Handler.Respond` | internal/handlers/oauth_responses.go:204-494 | For every outcome of every call, with other requests and the watcher using the pool in between, the log keeps the lease protocol (`Failover.Advance`); all leases are returned; at most one answer, and none only if, after a failed refresh or send, the client was found gone, whose account is then not marked; at most 2*(1+MaxFailovers) requests plus one for the stripped payload; each account leased once, or twice if stripped; 503 only if nothing was sent; a relayed status is the last one received, 502 after a lost send. It gives up only after 1+MaxFailovers accounts or when the pool it asked had no candidate left; and if it leased nobody, the pool had no candidate or that many chosen accounts vanished before their lease. The loop ends. |
| `Failover.Handler.Select` | internal/handlers/oauth_responses.go:225-243 | Selects an account not tried yet that is a candidate in the pool as it is now; none if and only if the pool has no such candidate, and the log then holds that pool. |
| `Failover.Handler.Attempt` | internal/handlers/oauth_responses.go:245-340 | One account: at most two requests, the lease returned on every path, and the account tried afterwards unless the payload was stripped. |
| `Failover.Handler.SendFirst` | internal/handlers/oauth_responses.go:275-340 | The first send: a lost one cools the account down unless the client has gone, a success is bound and answered, a refusal goes on to Reject or Refuse. |
| `Failover.Handler.Reject` | internal/handlers/oauth_responses.go:342-416 | A 401 or 403 is replayed once with several accounts and relayed with one; the branch for an account replayed before is dead. |
| `Failover.Handler.Refuse` | internal/handlers/oauth_responses.go:418-468 | 429 and 5xx go on to the next account; other refusals are retried once without reasoning items or relayed. |
| `Failover.Handler.AuthReplay` | internal/handlers/oauth_responses.go:504-585 | Whatever happens the lease is returned; the status reported is the one received, 0 for none, -1 only if the client has gone. |
| `Failover.Handler.Succeed` | internal/handlers/oauth_responses.go:312-340 | Binds the conversation, answers exactly once, returns the lease. |
| `Failover.Handler.MarkPool` | internal/handlers/oauth_responses.go:249-446 | The pool takes the mark step that the log notes, for the configured cooldown or until the time upstream named. |
| `Failover.Handler.Bind` | internal/handlers/oauth_responses.go:313-316 | The pool takes the binding step of this conversation and account. |
| `Failover.Handler.Clear` | internal/handlers/oauth_responses.go:469-473 | The pool takes the clearing step of this conversation. |
| `Failover.NextAccount` | internal/handlers/oauth_responses.go:225-243 | A replayed account is always a tried one when the next account is selected. |
| `ReasoningCache.Cache.Store` | internal/reasoning/cache.go:85-99 | A text is accepted if and only if it is not blank, is within the byte limit and has a complete key; then it is found, if it fits together with everything not older; otherwise nothing changes. Afterwards the byte count is the sum of the stored lengths and both limits hold; only expired entries go, and to make room only entries no younger than every one kept, the youngest of which would not have fitted. |
| `ReasoningCache.Cache.Lookup` | internal/reasoning/cache.go:102-123 | Finds only the text last accepted for the key, and only within the time limit; the second critical section never removes a fresh entry. |
| `ReasoningCache.Cache.DropOldest` | internal/reasoning/cache.go:142-155 | The size loop ends and evicts oldest first. |
| `ReasoningCache.Cache.DropIfExpired` | internal/reasoning/cache.go:114-120 | Removes the entry if and only if what is there now has expired. |
| `ReasoningCache.TotalWithout` | internal/reasoning/cache.go:135-155 | The total size may be taken in any order. |
| `ReasoningCache.NewestSurvives` | internal/reasoning/cache.go:85-99 | A text just stored stays, whatever had to go, as long as every other entry is older. |
| `ReasoningCache.FittingSurvives` | internal/reasoning/cache.go:142-155 | A text stays, whatever is evicted, if it fits together with the entries of the same instant and the younger ones. |
| `ReasoningCache.CrowdedMayGo` | internal/reasoning/cache.go:142-155 | The condition is exact: otherwise some eviction that meets both limits removes it. |
| `ReasoningCache.RoomyKeeps` | internal/reasoning/cache.go:85-123 | Over any sequence of stores and lookups, while what is not older than an instant fits and has not expired, it is all there as last written. |
| `ReasoningCache.KeptIsFound` | internal/reasoning/cache.go:85-123 | Then a text that is the last one written under its key is found until its time limit has passed, and not after. |
| `ReasoningMessages.ToolCallIDs` | internal/reasoning/cache.go:174-195 | The stripped, non-blank ids, sorted and joined. |
| `ReasoningMessages.KeyDependsOnlyOnIds` | internal/reasoning/cache.go:165-195 | Two turns with the same ids, in any order, have the same key. |
| `ReasoningMessages.SameKeyIffSameIds` | internal/reasoning/cache.go:174-195 | Two lists of tool calls share a key if and only if they have the same ids, if no id holds a NUL. |
| `ReasoningMessages.KeysWithoutIds` | internal/reasoning/cache.go:165-195 | Turns without an id share a key exactly when their digests without reasoning agree, and never with a turn that has an id. |
| `ReasoningMessages.CheckToolCalls` | internal/reasoning/cache.go:227-252 | Every call needs an id, a function, a name and string arguments. |
| `ReasoningMessages.CaptureNonStream` | internal/reasoning/cache.go:305-340 | Gives the cache exactly the replayable choices, in order. |
| `ReasoningMessages.PatchRequest` | internal/reasoning/cache.go:257-300 | Every assistant turn with tool calls and no reasoning gets exactly the live text of its key, if there is one; every other message is unchanged. |
| `ReasoningCapture.TakeKeepsStep` | internal/reasoning/stream.go:98-142 | After any fragment every builder holds the concatenation of its fragments, and every flag says what was seen. |
| `ReasoningCapture.StreamCapture.ObserveLine` | internal/reasoning/stream.go:51-144 | Broken lines end the capture; otherwise the state is that of all fragments so far. |
| `ReasoningCapture.StreamCapture.Commit` | internal/reasoning/stream.go:146-190 | Stores the reasoning of exactly the complete choices, each once, and nothing the second time or after a failure; the entries are those that these stores make, one after the other. |
| `ReasoningCapture.CaptureIgnoresFragmentation` | internal/reasoning/stream.go:146-190 | However a turn was cut, the stream keeps it exactly when the whole response would be kept, unless some fragment had the wrong type; key and text are then the same. |
| `ReasoningCapture.CapturedTurnIsReplayed` | internal/reasoning/cache.go:257-300 | After a commit of any number of choices and any use of the cache by other requests, a later message with the same ids in any order gets exactly the streamed text until the time limit has passed, and nothing after, if the text is the last one written under its key and what is not older than the commit fitted all along. |
| `ReasoningCapture.CurrentAfterCommit` | internal/reasoning/stream.go:146-190 | Right after a commit with one complete choice these conditions say that its text was accepted and fits together with the entries that are not older. |
| `ReasoningCapture.CommitThenPatch` | internal/reasoning/stream.go:146-190 | On one cache: a stream is committed, other requests use the cache, a request is patched; under the same conditions every such message gets exactly its streamed text. |
| `ReasoningCapture.SameIdsSameText` | internal/reasoning/cache.go:165-195 | A message with the ids of the streamed turn, in any order, gets whatever is found under the turn's key. |
| `Systemd.JoinArgs` | internal/daemon/systemd.go:192-198 | The quoted arguments, with spaces between them. |
| `Systemd.VerbatimIff` | internal/daemon/systemd.go:200-214 | An argument is written as it is if and only if it is not empty and holds no white space, quote, backslash, dollar or percent sign. |
| `Systemd.QuotesIff` | internal/daemon/systemd.go:200-214 | Quotes stand around it if and only if it is empty or holds any of these but the percent sign. |
| `Systemd.CommandIsOneLine` | internal/daemon/systemd.go:192-214 | Whatever the arguments, the command stays on one line, as reading the unit back line by line requires. |
| `Systemd.ParseCommandLine` | internal/daemon/systemd.go:248-292 | The loop computes the parser's run over the line. |
| `Systemd.ParsedArguments` | internal/daemon/systemd.go:248-292 | For every argument list, parsing the joined line gives the list without its empty arguments and no error. |
| `Systemd.RoundTripIff` | internal/daemon/systemd.go:192-214 | The round trip is exact if and only if no argument is empty. |
| `Systemd.UndoubleDoubled` | internal/daemon/systemd.go:253-259 | Undoubling one character leaves the other doubled ones alone. |
| `FactoryRewrite.RewriteFactory` | internal/migration/factory.go:220-260 | Fails exactly when some span lacks its old port; otherwise the right-to-left loop equals the simultaneous replacement at all ports. |
| `FactoryRewrite.SortDescending` | internal/migration/factory.go:226-233 | The exchange sort orders disjoint spans from right to left and keeps them all. |
| `FactoryRewrite.PortSuffix` | internal/migration/factory.go:262-270 | What follows the last colon, or nothing without one. |
| `FactoryRewrite.OrderIsUnique` | internal/migration/factory.go:226-233 | The order of the changes on entry does not matter. |
| `FactoryRewrite.OtherBytesAreKept` | internal/migration/factory.go:236-257 | Every byte outside the ports is kept, moved by the replacements to its left. |
| `FactoryRewrite.NewTextIsThere` | internal/migration/factory.go:236-257 | Every new port stands where its place has moved to. |
| `FactoryRewrite.PortAtTheEnd` | internal/migration/factory.go:240-245 | In a span that ends with the port and a quote, the port found is the one at the end. |
| `FactoryRewrite.ReplacingIsReversible` | internal/migration/factory.go:236-257 | Replacing is undone by replacing back, whatever the lengths. |
| `FactoryRewrite.RewritingBackRestores` | internal/migration/factory.go:220-260 | With ports of equal length, rewriting back in the same spans gives the original bytes. |

## Left out

- File-system detail of the migration: symlink and ownership checks, permissions, fsync, temp-file names; a rename is one atomic write and the lock is exclusive and released by a crash.
- `SelectRollbackCandidates` and the search for journals by config path: they filter and sort what `ListJournals` gives.
- Locating spans in the Factory document (`AnalyzeFactory`) and all YAML handling: spans and staged bytes are given.
- Usage records, request models and reasoning text in the chat translators; a finish reason is an optional string.
- Timers, keep-alives, size caps and goroutines of the chat reader and of `stream.Forward`; keep-alive comments are covered by `ChatReader.NoiseIsIgnored`.
- Failing writes of the repaired stream: the destination takes every frame.
- ChatForward.ReadChatStream: does not model size caps, the idle timeout, cancellation, keep-alive output and scanner errors, which end the loop early.
- ChatForward.ForwardedAnswerIsBatchAnswer: requires that the decoder reads the encoded chunks back (`ChatReader.Encodes`), because the JSON library is not part of this model.
- ReasoningCapture.CapturedTurnIsReplayed: supposes room for what is not older than the commit; without room eviction may take any of the entries made at one instant (`ReasoningCache.CrowdedMayGo`).
- AccountPool.AccountPool.Select: does not model how round-robin, fill-first, least-connections and random choose among the candidates, or the order of labels; outside sticky conversations the choice is arbitrary.
- Affinity.AffinityStore.Bind: does not model the file that is written after every change; that write's failure is ignored by the pool.
- AccountPool.BindingsAgreeWithPool: requires token paths without outer white space, because Bind trims the path; `BindAgreesIff` gives the exact condition for one binding.
- Failover.Handler.Respond: does not model which body accompanies a relayed status, how a rate limit's end is read from the response, quota records and log lines; a streamed answer counts as written when forwarding starts.
- ReasoningMessages.PatchRequest: is modelled on decoded messages, for a caller whose lookups run at one time and with no other caller in between; `Lookup` itself allows others.
- ReasoningCapture.StreamCapture.Commit: leaves out the text content of the turn, which the key does not use once there is an id.
- Quota parsing, header filtering, provider registry, provenance, restart, updater and user interface: they would only add easy members.
