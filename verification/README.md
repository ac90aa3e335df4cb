# Verification of the agent runtime, the message transform, terminal wrapping and streaming

Dafny proofs about four parts of the workspace. `dafny verify dfyconfig.toml` checks them all.

**The agent run.** `Types`, `History`, `PendingQueue`, `Looks`, `Tools`, `Agent` model an agent with its two queues,
its transcript, its runtime state and the loop that streams responses and runs tools. Every await point is a
nondeterministic choice: provider streams, tool results and progress, hook answers, the interleaving of a
parallel batch, and calls of other tasks that steer, queue, clear or abort. The contracts hold for every choice.
A run keeps four records of the same history: the event trace, the transcript, the new messages and the runtime
state. `History` gives a fifth, a sequence of turns, and the records are proved to be projections of it.
`Looks` records what each look at a queue found. `Streams`, `Protocol`, `Traces`, `Agreement`, `RunState`, `Batches`,
`Shutdown`, `Polling` draw the consequences: when a provider stream makes one balanced message, the grammar of the
trace (by an acceptor that knows nothing of turns), the agreement of the records, the runtime state, tool batches under
every completion order, what cancellation bounds, and which queued messages each turn begins with. `Pairing` and
`Session` follow the transcript and the queues over any number of runs, which a script of calls starts one after
another.

**The message transform.** `Images`, `Rewriting`, `Orphans`, `Transform` model the pipeline that makes a
conversation replayable against another model: placeholders for images, response ids, rewritten assistant
content with renamed tool-call ids, and the repair of unanswered calls. `RepairJson` is the lexical JSON repair.

**Terminal text.** `Ansi`, `Tracker`, `Replay` model escape codes as strings and the style tracker that is printed
back as codes at every line break. `Wrap`, `WrapTheorems`, `WrapGreedy`, `WrapStyle`, `WrapWidth`, `WrapBound`,
`WrapClosed`, `WrapExamples`, `Truncate` work on a text given as escape codes and grapheme clusters with their widths.

**Streaming.** `Proxy` and `ProxyStream` model the reducer that rebuilds a message from wire events and the line
buffer in front of it; `Retry` the retry wrapper around a provider, for any streams of its attempts and any moments
of cancellation and timeout.

Methods with loops and classes follow the source's own loops and objects and are proved against specification
functions; the lemmas are about those functions. Some predicates keep their facts folded, for the solver's sake:
`Agents.Agent.ReportMeans` and `Agents.Agent.SteadyMeans` say what those of the agent amount to.

## Findings

Some statements hold only under a condition. Each is given with an input on which it fails, and with an exact
condition: for all inputs, or for the inputs that the finding names.

- The loop pushes a message for every `Start` (crates/agent/src/agent_loop.rs:444-449), and the retry wrapper
  forwards every attempt's `Start` (crates/model/src/stream.rs:257). So a retry after a `Start` whose next attempt
  starts as well leaves a stale partial message on the transcript: `Agreement.SecondStartBreaksAgreement`; exactly when:
  `Streams.OrderlyIffBalanced`, `Retrying.UncancelledIsBalancedExactly`; `Retrying.RetryAfterStartLeavesPartial` gives two
  such streams. The results about traces, agreement and pairing therefore assume orderly streams.
- Wrapping documents that each line has visible width at most `width` (crates/tui/src/utils.rs:624). For texts of words
  and plain spaces that holds exactly if each word cluster is that narrow: `WrapWidth.WithinExactly`. It fails for a tab,
  which counts three columns when a line is measured but none when a long word is broken
  (`WrapWidth.TabBreaksTheBound`); for a wide run of other white space, which is never broken
  (`WrapWidth.BlankRunBreaksTheBound`); and for wide plain spaces at the start of a line with an escape code behind them,
  where trimming stops (`WrapWidth.SpacesBeforeCodeBreakTheBound`). With codes, `WrapBound.CodedWithinExactly` says
  exactly when; with other white space `WrapWidth.WrappingIsWithin` gives a condition that is enough.
- Wrapping documents that styles carry over to continued lines (crates/tui/src/utils.rs:626-627). A code on a space that
  is dropped at a break is lost to the rest of its line: `WrapWidth.DroppedSpaceLosesStyle`. Texts of words, plain spaces
  and codes keep their style at every width exactly if no token that can be dropped carries codes that matter:
  `WrapStyle.StyleKeptExactly`; for other texts `WrapTheorems.WrappingKeepsStyle` gives the one direction and
  `WrapStyle.SomeWidthLosesStyle` the other, wherever ink follows the dropped token. Any text without a code right before
  white space keeps its style: `WrapStyle.ClearTextKeepsStyle`.
- Wrapping documents that underline is closed at line ends, so that padding does not inherit it
  (crates/tui/src/utils.rs:628-629). Only where a line is broken are closing codes added. So underline stays on at the end
  of a line that is not broken, and before and after a line break in underlined text
  (`WrapExamples.UnbrokenLineStaysOpen`, `WrapExamples.NewlineLeavesOpen`). It stays on, too, in a line that shows nothing:
  the codes put on the new line for what follows a dropped space, if the space switched underline off and nothing follows
  (`WrapExamples.DroppedTrailingSpace`) or what follows is itself broken (`WrapExamples.DroppedSpaceBeforeBrokenWord`,
  `WrapClosed.StrayLine`). All lines of a text of words, plain spaces and codes are closed at every width exactly if each
  input line, continued as it is, ends closed and has no blank token behind something visible, the last token included,
  that closes what is open: `WrapClosed.TextClosedExactly`. For any other text that is enough: `WrapClosed.TextIsClosed`.
  The broken-off parts alone need less: `WrapClosed.BrokenLinesAreClosed`, `WrapClosed.BrokenOffClosedExactly`.
- Truncation documents that styling does not bleed into following content (crates/tui/src/utils.rs:847-849). Its resets
  are of SGR only, so a hyperlink stays open exactly if the longest part that fits, with the ellipsis, leaves it open:
  `Truncate.LinkStaysOpen`; for example `Truncate.CutLeavesLinkOpen`.
- Tool-call ids shared between the target model's own messages and another model's can orphan a call when they are
  renamed: `Rewriting.PairingKeptExactly` says exactly when; `Transform.SharedIdClashesExactly` shows it for the
  Anthropic normalizer and every id that it changes.

## Model

| member | source | states |
|---|---|---|
| `PendingQueues.PendingQueue.Drain` | crates/agent/src/agent.rs:102-113 | a drain takes the oldest messages, all or one by mode, and removes exactly those |
| `PendingQueues.PendingQueue.Enqueue` | crates/agent/src/agent.rs:98-100 | a message joins at the end; the log of everything enqueued stays what was taken followed by what is queued |
| `PendingQueues.PendingQueue.Clear` | crates/agent/src/agent.rs:119-121 | only a clear can lose messages, and it is recorded |
| `Agents.Agent.Deliver` | crates/agent/src/agent.rs:693-744 | every event reaches the listeners in order and changes the runtime state as the sink does |
| `Agents.Agent.OthersAct` | crates/agent/src/agent.rs:413-451 | at any await point other tasks may steer, queue, clear and abort any number of times; a cancelled token stays cancelled |
| `Tools.Prepare` | crates/agent/src/agent_loop.rs:818-889 | a call reaches its tool exactly if the tool exists, its arguments are valid and the hook neither blocks it nor gives invalid ones; it runs with the replacement arguments if there are any; otherwise it fails with an error and no wish to stop |
| `Agents.Agent.FailTruncatedToolCalls` | crates/agent/src/agent_loop.rs:581-602 | every call of a response cut off by the token limit fails, in source order, with one start, end and result each; no tool runs; the loop is not asked to stop |
| `Agents.Agent.ExecutePrepared` | crates/agent/src/agent_loop.rs:904-955 | a tool's updates are forwarded in order; once the token is cancelled the tool loses the race |
| `Agents.Agent.ExecuteInOrder` | crates/agent/src/agent_loop.rs:668-706 | start, updates, end and result message of one call, with the outcome that preparation, run and after-hook determine |
| `Agents.Agent.ExecuteSequential` | crates/agent/src/agent_loop.rs:656-710 | one outcome per call as its environment determines, results in source order, terminate exactly if the batch is non-empty and all results ask for it, nothing cut short unless cancelled |
| `Agents.Agent.PrepareAll` | crates/agent/src/agent_loop.rs:732-752 | all calls are announced and prepared in source order before any runs |
| `Agents.Agent.RunConcurrently` | crates/agent/src/agent_loop.rs:754-787 | in every interleaving of progress, race and completion each slot ends exactly once with the outcome its environment determines |
| `Agents.Agent.ReportAll` | crates/agent/src/agent_loop.rs:789-805 | result messages follow in source order whatever the completion order |
| `Agents.Agent.ExecuteParallel` | crates/agent/src/agent_loop.rs:712-805 | for every completion order the same outcomes, results and terminate flag as the sequential batch; nothing cut short unless cancelled |
| `Batches.ParallelRefinesSequential` | crates/agent/src/agent_loop.rs:656-805 | a parallel and a sequential batch of the same calls under the same answers return the same message for every call that both cut short or neither did, and the same flag if they agree on all |
| `Batches.UncutBatchesAgree` | crates/agent/src/agent_loop.rs:656-805 | in particular the same messages and flag when nothing was cancelled |
| `Batches.EachCallStartsAndEndsOnce` | crates/agent/src/agent_loop.rs:581-805 | in every batch each call starts once and ends once, counted by id even when ids repeat |
| `Batches.StartsComeFirst` | crates/agent/src/agent_loop.rs:732-752 | in a parallel batch all starts, in source order, precede everything else |
| `Batches.ResultSays` | crates/agent/src/agent_loop.rs:904-1006 | of a prepared call that was not cut short: the result is an error exactly if the tool raised, its content, details and wish to stop are the tool's, and each field the after-hook gives replaces that field and no other |
| `Batches.RefusedIsError` | crates/agent/src/agent_loop.rs:818-889 | a call that did not reach its tool, or was cut off with its response, is reported as an error |
| `Batches.TruncatedIsError` | crates/agent/src/agent_loop.rs:581-602 | each call of a response cut off by the token limit is reported as an error that asks nothing |
| `Batches.TerminatesExactly` | crates/agent/src/agent_loop.rs:656-805 | a batch asks the loop to stop exactly if it is not empty and every result in it asks so |
| `Batches.SequentialExactly` | crates/agent/src/agent_loop.rs:605-654 | a batch is sequential exactly if that is the configured mode or the first tool of the name of some call asks for it |
| `Agents.Agent.ConsumeEvent` | crates/agent/src/agent_loop.rs:442-503 | one provider event: what it pushes on or overwrites in the transcript and what it emits |
| `Agents.Agent.ConsumeStream` | crates/agent/src/agent_loop.rs:442-504 | for every event sequence, well formed or not, transcript, trace and final message are the fold over it |
| `Agents.Agent.StreamAssistantResponse` | crates/agent/src/agent_loop.rs:354-533 | a cancelled run asks the provider nothing and answers with an aborted message; a truncated stream is closed with an error; only a refused request gives no message |
| `Streams.OrderlyIffBalanced` | crates/agent/src/agent_loop.rs:442-533 | a response is one message, announced once and closed once at the end, exactly if its stream has at most one Start, none of it after a terminal event, at most one terminal event, and no update after it once started |
| `Streams.WellFormedIsOrderly` | crates/agent/src/agent_loop.rs:442-533 | the expected shape, a Start first if at all and a terminal event last, is enough |
| `Agreement.SecondStartBreaksAgreement` | crates/agent/src/agent_loop.rs:444-449 | a second Start leaves a stale partial message on the transcript that no other record has |
| `Agents.Agent.RunTurn` | crates/agent/src/agent_loop.rs:215-297 | one turn extends trace, transcript, new messages and history by the same facts; once cancelled it fails without a request |
| `Agents.Agent.Poll` | crates/agent/src/agent_loop.rs:1048-1072 | a queue is polled only while the run is not cancelled; the look records what the queue held then, of which all or the oldest message is taken by mode |
| `Agents.Agent.RunLoop` | crates/agent/src/agent_loop.rs:187-337 | the loop ends with the records in agreement, every drained message delivered, AgentEnd unless the client refused, a reason to end, and every turn begun with what the looks at the queues before it found; it starts another turn only for tool results or injected messages |
| `Agents.Agent.Run` | crates/agent/src/agent.rs:530-651 | a run from any transcript leaves the report of a succeeded or refused run: its first turn begins with the prompts, each prompt and drained message is delivered once and in order, every turn begins with what the queues held before it, and it succeeds only by ending for a reason: a failed turn, the hook, cancellation, or no tool results to look at and both queues found empty since the last turn |
| `Agents.Agent.Prompt` | crates/agent/src/agent.rs:469-480 | refused exactly if the agent is busy, and then without effect |
| `Agents.Agent.Continue` | crates/agent/src/agent.rs:502-528 | runs exactly if the transcript allows it: after an assistant message only with queued messages, steering before follow-up; queued steering messages get a first turn of their own; a refusal loses nothing |
| `Polling.LaterTurnsBeginWithTheQueue` | crates/agent/src/agent_loop.rs:310-331 | every turn after the first follows one that went on, and begins with what the steering queue held since then: all of it or the oldest message by mode; if it held nothing, with nothing where there are tool results to look at, and otherwise with what the follow-up queue held; only a cancelled run looks at nothing, and its turn is the last and withheld |
| `Polling.FirstTurnBeginsWithTheQueue` | crates/agent/src/agent_loop.rs:200-236 | the first turn begins with the prompts; unless they are to be alone the steering messages follow, first those queued when the run started if nobody cleared the queue |
| `Polling.IdleRunFoundQueuesEmpty` | crates/agent/src/agent_loop.rs:320-337 | a run that ends for lack of work found both queues empty after its last turn, which left no tool results to look at |
| `Polling.GoesOnExactly` | crates/agent/src/agent_loop.rs:240-292 | a turn goes on exactly if its message ended neither in an error nor aborted, and leaves tool results to look at exactly if it ran calls not all of which ask the loop to stop |
| `Polling.TruncatedStreamEnds` | crates/agent/src/agent_loop.rs:504-533 | a turn whose stream broke off without a terminal event ends in an error, runs no tool and does not go on |
| `Shutdown.ShutdownIsBounded` | crates/agent/src/agent_loop.rs:316-348 | a run cancelled during a turn begins no other; otherwise at most one more TurnStart follows the cancellation, its turn aborted without a request; no poll, no request, no tool run to its end, and AgentEnd last |
| `Protocol.SucceededRunIsAccepted` | crates/agent/src/agent_loop.rs:138-336 | the trace of a run that succeeded obeys the listener protocol: turns of message pairs, one assistant message, a tool phase with nothing left running, TurnEnd with exactly the results reported; then AgentEnd |
| `Protocol.RefusedRunIsAccepted` | crates/agent/src/agent.rs:608-650 | a refused request cuts the last turn short and AgentEnd still ends the protocol |
| `Protocol.OverIsLast` | crates/agent/src/agent_loop.rs:333-336 | in an accepted trace AgentEnd occurs exactly once, as the last event |
| `Protocol.AcceptPhase` | crates/agent/src/agent_loop.rs:581-805 | a batch ends every tool it started, under its id, and reports every result in order |
| `Agreement.RecordsAgree` | crates/agent/src/agent_loop.rs:138-336 | on success the messages closed by the trace are the new messages, the AgentEnd payload and exactly what the transcript grew by |
| `Agreement.EndsOfPhase` | crates/agent/src/agent_loop.rs:656-805 | whatever the completion order, results are closed in source order |
| `RunState.PhaseLeaves` | crates/agent/src/agent.rs:717-722 | a batch leaves no call pending in the runtime state, even with repeated ids |
| `RunState.LiveMessage` | crates/agent/src/agent.rs:702-716 | while a response streams, the runtime state shows exactly the message the transcript ends with; once closed, none |
| `RunState.RuntimeAfterRun` | crates/agent/src/agent.rs:584-606 | the events alone bring the runtime state to rest with the last error, so what the agent clears afterwards was clear |
| `Pairing.PairedInOrder` | crates/agent/src/agent_loop.rs:260-292 | what well-paired means: each message that did not fail is followed at once by one result per call, in order, with its id and name, and no further result |
| `Pairing.TurnKeepsPairing` | crates/agent/src/agent_loop.rs:260-292 | sequential, parallel and truncated batches alike pair their turn |
| `Pairing.SucceededRunKeepsPairing` | crates/agent/src/agent_loop.rs:187-336 | a run with orderly streams and only user messages injected keeps a well-paired transcript well paired |
| `Pairing.RefusedRunKeepsPairing` | crates/agent/src/agent.rs:608-633 | so does a run whose last request was refused |
| `Pairing.ReplaySynthesizesNothing` | crates/model/src/transform.rs:485-550 | replaying a well-paired transcript only drops its failed messages |
| `Sessions.Session` | crates/agent/src/agent.rs:469-664 | for any script of calls the transcript grows by exactly what the runs made; every prompt opens a run of its own, in order; what was queued was logged, what was taken was delivered into the transcript, in order, and what was logged was taken or is still queued unless somebody cleared the queue; the transcript stays well paired |
| `Sessions.RunsKeepPairing` | crates/agent/src/agent.rs:469-664 | over any number of runs with orderly streams and only user messages injected the transcript stays well paired, so that replaying it makes nothing up |
| `Sessions.RunsAreReplayable` | crates/model/src/transform.rs:48-60 | the transcript of such runs, if the target model and others share no id, comes out of the whole transform as its kept messages, downgraded and rewritten, with no result made up |
| `Sessions.DeliveredIsThere` | crates/agent/src/agent_loop.rs:187-337 | what the runs delivered from a queue stands in what they appended to the transcript, in order |
| `Images.CollapseImages` | crates/model/src/transform.rs:89-113 | the loop computes the collapsed content |
| `Images.CollapseFixesImageFree` | crates/model/src/transform.rs:283-317 | exactly the image-free contents are left alone |
| `Images.CollapseKeepsTexts` | crates/model/src/transform.rs:89-113 | no text is lost, changed or moved |
| `Images.CollapseSignalsImages` | crates/model/src/transform.rs:70-113 | a content with images shows a placeholder afterwards |
| `Images.RunsLeaveOnePlaceholder` | crates/model/src/transform.rs:89-113 | each run of images becomes exactly one placeholder, or none if the text right before it is one, between what the contents around it become |
| `Images.OmissionsAreSaid` | crates/model/src/transform.rs:41-113 | for a model without image input a user message with images says that an image was omitted, a tool result that a tool's image was, each in its own words |
| `Images.DowngradedExactly` | crates/model/src/transform.rs:253-339 | the image and response-id stages fix exactly what the target cannot take |
| `Images.DowngradeMessages` | crates/model/src/transform.rs:70-339 | both stages over a transcript |
| `Rewriting.OneKeepsMeaning` | crates/model/src/transform.rs:402-462 | one block becomes at most one block that says the same to a reader, and a call stays a call of the same tool with the same arguments, under the id that its message gives it |
| `Rewriting.TransformAssistantContent` | crates/model/src/transform.rs:366-469 | the rewriting loop with its growing id map computes the specified transcript |
| `Rewriting.RewriteKeepsMeaning` | crates/model/src/transform.rs:397-464 | no readable text is lost or moved, and the same tools are called with the same arguments in the same order |
| `Rewriting.PrivateSurvivesExactly` | crates/model/src/transform.rs:386-448 | signed thinking, redacted thinking, text signatures and thought signatures survive exactly if provider, API and model id of their message all equal the target's |
| `Transform.NothingPrivateLeaks` | crates/model/src/transform.rs:48-60 | over the whole transform: what is private in an assistant message of the output comes from an input message whose provider, API and model id all equal the target's |
| `Rewriting.RewriteFixesExactly` | crates/model/src/transform.rs:366-469 | the transcripts that the stage leaves alone, exactly; it renames nothing in them |
| `Rewriting.RewriteSettles` | crates/model/src/transform.rs:366-469 | with a stable normalizer every rewritten message is one the stage leaves alone |
| `Rewriting.RenamesExactly` | crates/model/src/transform.rs:371-448 | an id is renamed exactly if an earlier cross-model call had it and the normalizer changes it |
| `Rewriting.PairingKeptExactly` | crates/model/src/transform.rs:376-448 | an answered call stays answered however the new ids collide, unless, and only unless, it is a same-model call whose id an earlier message renamed |
| `Rewriting.NothingOrphanedExactly` | crates/model/src/transform.rs:366-550 | stages 4 and 5 add no result to a fully answered transcript exactly if no id clashes so |
| `Transform.SharedIdClashesExactly` | crates/model/src/transform.rs:119-136 | when another model and then the target model call a tool under the same id, both answered, the target model's call loses its result exactly if the Anthropic normalizer changes the id, as it does "a.b" |
| `Orphans.FlushOrphanedToolCalls` | crates/model/src/transform.rs:552-566 | an error result for each pending call without one, in order |
| `Orphans.FlushOrphansAndSkipErrored` | crates/model/src/transform.rs:485-550 | the pass with its pending calls and answered ids computes the specified transcript |
| `Orphans.FlushIsAnswered` | crates/model/src/transform.rs:485-566 | whatever the input, no failed message is left and every call has a result before the next user or assistant message |
| `Orphans.FlushKeepsExactly` | crates/model/src/transform.rs:485-566 | nothing is synthesized exactly if every call of a message that did not fail is answered |
| `Orphans.FlushFixesExactly` | crates/model/src/transform.rs:485-566 | the transcripts the pass leaves alone are exactly those without failed messages and unanswered calls |
| `Orphans.FlushIdempotent` | crates/model/src/transform.rs:485-566 | a second application changes nothing |
| `Orphans.FlushExplained` | crates/model/src/transform.rs:485-566 | the output is the input without its failed messages, in order, plus results added only for calls that no original result answers; each of these is an error under the call's id and tool name |
| `Orphans.KeptExactly` | crates/model/src/transform.rs:485-550 | only assistant messages that ended in an error or were aborted are dropped |
| `Transform.NormalizeForAnthropic` | crates/model/src/transform.rs:119-136 | the id gets the accepted alphabet and at most 64 characters, character by character, and is unchanged exactly if it was acceptable |
| `Transform.AnthropicIsStable` | crates/model/src/transform.rs:119-136 | normalizing a normalized id changes nothing, whatever the message |
| `Transform.TransformMessages` | crates/model/src/transform.rs:48-60 | the pipeline is its stages in order |
| `Transform.TransformIdempotent` | crates/model/src/transform.rs:48-60 | for every transcript and target, with any stable normalizer, a second pass changes nothing |
| `Transform.TransformIdempotentInPractice` | crates/model/src/transform.rs:48-136 | in particular without a normalizer and with the Anthropic one |
| `Transform.TransformRepairs` | crates/model/src/transform.rs:48-60 | whatever the input, the output has no message that ended in an error or was aborted, and every call in it has its result |
| `Transform.TransformFixesExactly` | crates/model/src/transform.rs:48-60 | of the messages no stage rewrites, the transcripts left alone are exactly the repaired ones |
| `Transform.AnsweredIsOnlyRewritten` | crates/model/src/transform.rs:48-60 | a fully answered transcript that shares no id between the target and other models gets no synthetic result |
| `RepairJson.RepairText` | crates/model/src/transform.rs:153-220 | the index loop computes the repair |
| `RepairJson.RepairKeepsMeaning` | crates/model/src/transform.rs:153-220 | the repaired text is valid (section 7 of RFC 8259) exactly if every \u in a string has its four digits, and then says what a lenient reader makes of the original |
| `RepairJson.RepairIdempotent` | crates/model/src/transform.rs:153-220 | a second repair changes nothing, whatever the text |
| `RepairJson.ValidExactly` | crates/model/src/transform.rs:153-220 | valid texts are exactly those left alone whose \u have their digits |
| `RepairJson.RepairedParseIsEnough` | crates/model/src/transform.rs:224-234 | for a parser that accepts only valid texts, parsing the repaired text is as good as trying twice |
| `Ansi.ExtractAnsiCodeAt` | crates/tui/src/utils.rs:162-221 | the scan finds the code that starts at a position, if it is whole |
| `Ansi.CodeLengthExactly` | crates/tui/src/utils.rs:162-221 | a CSI ends with the first m, G, K, H or J, an OSC or an APC string with the first BEL or ESC and backslash; no other text starts with a code |
| `Ansi.CodeDelimitsItself` | crates/tui/src/utils.rs:162-221 | a code's end does not depend on what follows |
| `Ansi.SplitJoin` | crates/tui/src/utils.rs:400-412 | splitting parameters at semicolons undoes joining them |
| `Tracker.OpenRoundTrip` | crates/tui/src/utils.rs:278-309 | printing a parsed hyperlink gives back its code, terminator included |
| `Tracker.CloseCode` | crates/tui/src/utils.rs:278-313 | a printed close is one code that closes |
| `Tracker.AnsiCodeTracker.Process` | crates/tui/src/utils.rs:376-473 | the tracker's fields follow the specified style, code by code |
| `Tracker.AnsiCodeTracker.UpdateFromText` | crates/tui/src/utils.rs:533-545 | every whole code of a text takes effect, in order |
| `Replay.OffUndoesOn` | crates/tui/src/utils.rs:441-470 | each attribute is undone by its own off code and by a reset, each color by its default code, and nothing else changes |
| `Replay.BasicColors` | crates/tui/src/utils.rs:426-470 | as codes: 30 to 37 and 90 to 97 set the foreground and nothing else and are undone by 39; 40 to 47 and 100 to 107 set the background and are undone by 49 |
| `Replay.ActiveCodesRestore` | crates/tui/src/utils.rs:475-516 | the active codes of a tracked style are whole codes that bring a fresh tracker to exactly that style |
| `Replay.TrackerReplays` | crates/tui/src/utils.rs:475-545 | the same for the printed text, for every style reached by any codes |
| `Replay.LineEndResetCloses` | crates/tui/src/utils.rs:521-530 | the codes at a line's end close the underline and the hyperlink, and only those |
| `Wrap.SplitIntoTokens` | crates/tui/src/utils.rs:554-591 | the tokenizer loop computes the tokens |
| `WrapTheorems.TokensAreTheLine` | crates/tui/src/utils.rs:554-591 | the tokens are the line cut into non-empty pieces, each but the last ending in a cluster |
| `WrapGreedy.TokensAreRuns` | crates/tui/src/utils.rs:554-591 | the tokens are the longest runs of spaces and of other clusters, which take turns |
| `Wrap.BreakLongWord` | crates/tui/src/utils.rs:762-829 | the loop over codes and clusters computes the pieces and the style after them |
| `WrapTheorems.BrokenWordShows` | crates/tui/src/utils.rs:762-829 | the pieces of a long word, each shown afresh, show its clusters in their styles |
| `WrapGreedy.PiecesAreFull` | crates/tui/src/utils.rs:793-829 | a piece of a broken word ends only where the first cluster of the next piece would not have fit |
| `Wrap.WrapToken` | crates/tui/src/utils.rs:675-730 | one token: broken, moved to a new line, dropped or appended |
| `Wrap.WrapSingleLine` | crates/tui/src/utils.rs:660-744 | the loop over tokens computes the wrapped line |
| `WrapGreedy.WrappedGreedily` | crates/tui/src/utils.rs:660-744 | the wrapped lines share the line's clusters out in order, each showing its share but for blanks at its end; each but the last ends only where the next token, or within a word wider than any line the next cluster, would not fit |
| `WrapGreedy.NoTrailingSpace` | crates/tui/src/utils.rs:736-760 | a line that had to be wrapped leaves no line with a space or tab at its end |
| `Wrap.SplitLineEndings` | crates/tui/src/utils.rs:603-619 | a carriage return, a line feed or both together end a line |
| `WrapTheorems.LinesAreTheText` | crates/tui/src/utils.rs:603-619 | only the line breaks are taken out |
| `WrapTheorems.BreaksSplitTheText` | crates/tui/src/utils.rs:603-619 | every line break, both characters of it if there are two, ends one line and begins another: the lines are those of the texts before and after it |
| `Wrap.WrapTextWithAnsi` | crates/tui/src/utils.rs:630-658 | each input line is wrapped in the style the earlier ones left |
| `WrapTheorems.WrappingKeepsStyle` | crates/tui/src/utils.rs:630-829 | at every width each surviving cluster, its output line shown afresh, has the style it has in the text, if no token that can be dropped carries codes that matter to the next token |
| `WrapStyle.SomeWidthLosesStyle` | crates/tui/src/utils.rs:710-729 | if a blank token that can be dropped carries codes that matter to the ink right behind it, some width loses them |
| `WrapStyle.StyleKeptExactly` | crates/tui/src/utils.rs:630-829 | a text of words, plain spaces and codes keeps the style of its words at every width exactly if no token that can be dropped carries codes that matter |
| `WrapStyle.ClearTextKeepsStyle` | crates/tui/src/utils.rs:630-829 | any text without an escape code right before white space, other than at the start of a line, keeps its style at every width |
| `WrapTheorems.WrappingKeepsClusters` | crates/tui/src/utils.rs:554-829 | for any text no cluster is lost, duplicated or moved, except that white space may be dropped |
| `WrapClosed.TextIsClosed` | crates/tui/src/utils.rs:621-658 | every line that a text is wrapped into leaves a terminal without underline and outside any hyperlink, if each input line, continued as it is, ends so and has no blank token behind something visible that closes what is open |
| `WrapClosed.TextClosedExactly` | crates/tui/src/utils.rs:621-658 | for a text of words, plain spaces and codes this holds at every width exactly under that condition |
| `WrapClosed.ClosedExactly` | crates/tui/src/utils.rs:660-744 | the same for one line: all lines it is wrapped into, the last one included, are closed at every width exactly if the line ends closed and no blank token behind something visible closes what is open |
| `WrapExamples.UnbrokenLineStaysOpen` | crates/tui/src/utils.rs:665-667 | a line that fits is left as it is, with underline on |
| `WrapExamples.NewlineLeavesOpen` | crates/tui/src/utils.rs:638-652 | a line break in underlined text leaves underline on before it and after it |
| `WrapExamples.DroppedTrailingSpace` | crates/tui/src/utils.rs:710-735 | a dropped trailing space that switches underline off leaves a last line that shows nothing, with underline on |
| `WrapExamples.DroppedSpaceBeforeBrokenWord` | crates/tui/src/utils.rs:679-730 | a dropped space that switches underline off before a word that is broken: the second of four lines shows nothing and has underline on |
| `WrapClosed.StrayLine` | crates/tui/src/utils.rs:679-716 | a dropped space whose next word is broken up leaves a line that shows nothing; it leaves open what the space closed |
| `WrapWidth.WithinExactly` | crates/tui/src/utils.rs:630-829 | a text of words and plain spaces is wrapped within the width exactly if each word cluster is that narrow, however wide the spaces |
| `WrapWidth.WideInkIsTooWide` | crates/tui/src/utils.rs:762-829 | whatever the text, a word cluster wider than the line makes some line too wide |
| `WrapBound.CodedWithinExactly` | crates/tui/src/utils.rs:630-829 | a text of words, plain spaces and codes is wrapped within the width exactly if each word cluster is that narrow and each line's leading spaces are, as far as trimming cannot take them off |
| `WrapWidth.WrappingIsWithin` | crates/tui/src/utils.rs:630-829 | with codes and other white space but no tabs: no produced line is wider than asked if no cluster and no run of white space is |
| `WrapWidth.TabBreaksTheBound` | crates/tui/src/utils.rs:621-626 | a line with a tab can come out wider than documented |
| `WrapWidth.BlankRunBreaksTheBound` | crates/tui/src/utils.rs:621-682 | so can a run of white space other than spaces |
| `WrapWidth.SpacesBeforeCodeBreakTheBound` | crates/tui/src/utils.rs:734-760 | so can plain spaces with a code behind them, which are not trimmed; without the code they are |
| `WrapWidth.DroppedSpaceLosesStyle` | crates/tui/src/utils.rs:710-729 | a code on a space that is dropped at a break is lost to the rest of the line |
| `Truncate.CutPlain` | crates/tui/src/utils.rs:909-940 | the loop without codes stops as soon as the text is too wide, with the specified part kept |
| `Truncate.CutStyled` | crates/tui/src/utils.rs:941-1012 | so does the loop with codes and tabs |
| `Truncate.ClipFragment` | crates/tui/src/utils.rs:1030-1120 | the clipped ellipsis is the specified part |
| `Truncate.TruncateToWidth` | crates/tui/src/utils.rs:850-1023 | every path, the fast ones included, comes to the same specification |
| `Truncate.TruncatedWidth` | crates/tui/src/utils.rs:850-1143 | never wider than asked; with padding exactly as wide |
| `Truncate.UnchangedExactly` | crates/tui/src/utils.rs:850-1023 | a text is returned as it is exactly if it fits |
| `Truncate.PaddedBehind` | crates/tui/src/utils.rs:863-940 | with padding a text that fits comes first, unchanged, and only blanks follow |
| `Truncate.KeptIsLongest` | crates/tui/src/utils.rs:909-1012 | the kept part is a prefix of whole clusters that fits and no such prefix is longer |
| `Truncate.CutTextIsBracketed` | crates/tui/src/utils.rs:843-849 | in a cut text the kept clusters have the style they have in the text, ellipsis and padding, which fills the width, have no SGR attribute of the text, and none is left at the end |
| `Truncate.LinkStaysOpen` | crates/tui/src/utils.rs:1122-1143 | the resets are of SGR only: a cut text leaves a hyperlink open exactly if the longest prefix that fits beside the ellipsis, followed by the ellipsis, does |
| `Truncate.LinkOfClippedEllipsis` | crates/tui/src/utils.rs:1030-1143 | where nothing fits beside the ellipsis, the same of the longest part of the ellipsis, unless that has no width |
| `Truncate.OnlyEllipsisShows` | crates/tui/src/utils.rs:863-884 | where nothing fits beside the ellipsis, its longest fitting part shows, followed by blanks only, and nothing of the text |
| `Truncate.CutLeavesLinkOpen` | crates/tui/src/utils.rs:1122-1143 | three linked letters cut to two leave the link open |
| `Proxy.ProxyReducer.Process` | crates/agent/src/proxy.rs:225-453 | one event: accepted or rejected, the new message and buffers, and the reply, which carries the message as it then is |
| `Proxy.SlotsAreTold` | crates/agent/src/proxy.rs:225-453 | after any accepted events a text or thinking slot holds the deltas since it was last opened, a call slot the last fragments that parsed since then or an empty object, and every buffer belongs to a slot |
| `Proxy.AcceptedExactly` | crates/agent/src/proxy.rs:238-257 | a start is accepted exactly if it leaves no gap, an edit exactly if its slot was last opened as its own kind, anything else always |
| `Proxy.EndingIsTold` | crates/agent/src/proxy.rs:429-449 | after any events the message has the stop reason and usage of the last event that ended it and the error text of the last error; everything else but its content is as at first |
| `Proxy.ListenersCanFollow` | crates/agent/src/proxy.rs:225-453 | the event announced last carries the message as it is, and the announced deltas of a text or thinking slot since it opened add up to what it holds |
| `ProxyStream.LinesAppend` | crates/agent/src/proxy.rs:600-603 | reading on from what was left gives the lines of the whole |
| `ProxyStream.LinesAreTheText` | crates/agent/src/proxy.rs:600-603 | lines with their newlines and the rest are the text |
| `ProxyStream.PayloadExactly` | crates/agent/src/proxy.rs:604-616 | a line carries a payload exactly if it is "data: " and that payload, which is not empty and ends in no white space, up to white space around the two |
| `ProxyStream.DrainLines` | crates/agent/src/proxy.rs:602-640 | the complete lines of the buffer are dispatched one by one up to the first that fails |
| `ProxyStream.StreamProxy` | crates/agent/src/proxy.rs:560-642 | events and final message depend only on the concatenated characters, not on the chunks; an incomplete last line counts for nothing |
| `ProxyStream.FailureIsLast` | crates/agent/src/proxy.rs:618-640 | a stream whose lines fail has taken all lines before the failing one, adds exactly one failure of its own, with the final message, as the last event, and nothing comes of later lines |
| `ProxyStream.StreamEnds` | crates/agent/src/proxy.rs:565-640 | a failed line, a broken-off body and a cancellation each leave the content alone and end the stream with one failure that carries the final message, aborted only for the cancellation; a body read to its end adds nothing |
| `Retrying.BackoffGrows` | crates/model/src/stream.rs:390-395 | delays start at a second, never shrink, never exceed the cap, and double until they reach it |
| `Retrying.RetriesAreNumbered` | crates/model/src/stream.rs:397-413 | the diagnostics are numbered from 1, with delays that never shrink and never exceed the cap |
| `Retrying.ReadAttempt` | crates/model/src/stream.rs:133-170 | an attempt's stream is read up to its first terminal event, its end or a cancellation, and ends as cancelled only if it was; only non-terminal events are forwarded |
| `Retrying.StreamSimple` | crates/model/src/stream.rs:122-267 | for any streams of the attempts and any moments of cancellation and timeout: at most max_retries + 1 provider calls; the events are the attempts' non-terminal events in order and then the conclusion; a reported failure was not worth another attempt, and a cut-off was a cancellation |
| `Retrying.AccountIsUnique` | crates/model/src/stream.rs:122-267 | the streams, cancellations and timeouts settle everything that is yielded and what was retried |
| `Retrying.RetriedExactly` | crates/model/src/stream.rs:205-250 | unless it is cancelled, an attempt is retried exactly if it and all before it failed with a retriable error and attempts are left |
| `Retrying.TerminalIsLast` | crates/model/src/stream.rs:122-267 | at most one terminal event, which comes last and carries the log of the retries after its own diagnostics |
| `Retrying.EndingSays` | crates/model/src/stream.rs:150-258 | the last event keeps kind, reason and message of the provider's, its own diagnostics before those of the retries; only a cancellation that was the timeout has its error text replaced; a run cut off while reading ends with an empty aborted message, one cut off while waiting with the failed message, aborted, and either says whether it was the timeout or the caller |
| `Retrying.RetriesStayBalancedExactly` | crates/model/src/stream.rs:250-262 | the agent loop makes one balanced message of the wrapper's stream exactly if at most one Start was forwarded |
| `Retrying.UncancelledIsBalancedExactly` | crates/model/src/stream.rs:122-267 | unless it is cancelled, exactly if the streams of the attempts that are read have at most one Start between them before their terminal events |
| `Retrying.RetryAfterStartLeavesPartial` | crates/model/src/stream.rs:122-267 | two streams that start, the first failing with a retriable error: both Starts are forwarded, and the loop leaves the first partial message on the transcript |

## Left out

- Agents.Agent.RunLoop: a run that would go on for ever is represented by its finite beginnings: after `horizon` turns the environment aborts.
- Agents.Agent.ExecutePrepared: an update emitted by a tool after its race with the token was lost is not modelled.
- Rewriting.PairingKeptExactly: for normalizers that look only at the id, as the Anthropic one does; one that also looks at the message can rename two calls of the same id differently.
- WrapTheorems.WrappingKeepsStyle: texts in which an unfinished escape sequence is completed by codes that wrapping itself appends are not represented, since a text is given as whole codes and clusters.
- Wrap.SplitLineEndings: escape codes and clusters contain no line break; the source splits a text into lines before it looks for codes, so a break inside an unfinished code would cut the code in two.
- WrapWidth.WrappingIsWithin: one direction only, for texts with tabs excluded and other white space allowed; the exact results are WithinExactly for words and plain spaces and WrapBound.CodedWithinExactly with codes.
- Sessions.Session: whether another task cleared a queue is recorded by the queue and not derived from the script, since other tasks may clear at any time.
- Retrying.StreamSimple: an attempt's stream is finite; one that goes on for ever is represented by a run that is cancelled.
- Wrap.SplitIntoTokens: works on clusters where the source works on characters, so a cluster that begins with a space and goes on with other characters is not represented.
- ProxyStream.StreamProxy: chunks are decoded characters; a multi-byte character cut by a chunk border is replaced in the source, and the result then does depend on the chunks.
- Timestamps, usage details, response models and constant role tags of messages.
- The wording of error results and error messages, which is abbreviated, except for a cancelled or timed-out request.
- Grapheme segmentation, width tables, JSON parsing, argument shims, JSON Schema validation, the table of retriable messages, the streams and the moments of cancellation and timeout of a retried request: parameters or arbitrary answers.
- HTTP, tokio scheduling, clocks, listener registration, the locking of shared state.
- `prompt_with_images`, `reset`, setters of the agent, option plumbing of `build_config`, key resolution.
- Providers' own stream adapters; `normalize_terminal_output`, `wrap_text`, `pad_to_width`, `strip_ansi`.
- Model catalogue, capability tables, session files, command line and user interface.
