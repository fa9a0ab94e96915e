# Verified model of the aibuddy runtime

A Dafny model of the parts of aibuddy whose correctness depends on more than one function at a time,
with proofs of what they keep over every input, every run and every interleaving.

- **Slots of the local inference runtime** (`SlotProtocol`, `SlotSafety`, `SlotProgress`,
  `SlotOutcomes`, `SlotRuntime`). Requests and evictions share model slots, a cold-load lock, slot
  locks and notifications. The protocol is a transition system with one program counter for each
  task. A rely and guarantee proof shows that at most one model is in memory and that a generation
  is never disturbed. A lexicographic measure shows that no wake-up is lost, nothing deadlocks and
  every run ends. What a request was answered and what it found decide how it ends. `SlotRuntime` is
  the program itself: its loop and its sections under locks, updating the slots in place, with every
  other task running between any two of its steps; a history shows that whatever it does is a run of
  the protocol.
- **Streaming** (`Messages`, `Accumulator`, `Reassembly`, `ToolThinking`, `ChunkDetails`,
  `ThinkingForecast`, `StreamLoop`, `ReceivedCalls`). Chunks are pushed into an accumulator, merged
  by id, and thinking is moved in front of the call it led to. Content is compared piece by piece
  (`Atom`), so nothing is lost unless a theorem says so.
- **The agent loop** (`ToolCalls`, `AgentLoop`, `LoopDetails`, `InferenceContent`, `LoopSafety`,
  `LoopAnswers`, `LoopEnds`, `LoopWitnesses`, `AgentMachine`). The pipeline of tools and inference
  over an append-only conversation, with cancellation arriving at any look at the token. Time counts
  the looks, so one number says when cancellation comes. `AgentMachine` runs it step by step;
  `AgentLoop` is what it is proved against.
- **Summary extraction** (`Characters`, `ObjectScanner`, `JsonText`, `Occurrences`, `Candidates`,
  `CandidateOrder`, `CandidateSearch`, `PrintedSummary`). The scanner for brace-balanced objects
  against a grammar, and the terminator-counting rules against plain occurrences of the markers.
- **Resumable downloads** (`Download`, `DownloadLifecycle`). The retry loop against any server that
  follows RFC 9110, and the life of a download under its lock.
- **Model files** (`ShardSets`, `Variants`, `VariantSelection`, `SelectedFiles`, `CaseTwins`,
  `CacheDeletion`). Which shards form a set, whether what is advertised is what is resolved, and
  which blobs a deletion removes.
- **Smaller loops** (`ToolFilter`, `CodeFence`, `TokenBucket`). Middle-out removal and its retry
  ladder, backtick fences, and the token bucket of the OIDC proxy.

`dafny verify dfyconfig.toml` checks everything. Methods with loops and classes follow code that
works in place; each is proved against a function, and the theorems are about those functions.

Where the code does not do what its documentation, its structure or its messages suggest, the model
follows the code, and the exact condition is proved:

- Thinking streamed before a tool call is dropped when the call's message brings thinking of its own
  and earlier thinking is still waiting (`ThinkingForecast.ThinkingSurvivesExactly`).
- A request id that the provider reuses while it is pending can be answered twice, and its call
  started twice (`LoopAnswers.OneAnswerExactly`, `LoopAnswers.CallsStartOnceExactly`,
  `LoopWitnesses.ReusedIdIsAnsweredTwice`).
- A cancelled run can end with requests open. It depends on the look at the token that finds it
  (`LoopEnds.CancelledRunClosesExactly`), and `LoopWitnesses` has a run for every look that fails.
- A 206 that ends early and cleanly is taken for the whole file (`Download.Downloader.Fetch`,
  `Download.ShortPartIsHonest`).
- Deleting a cached model takes the files of one whose quantization differs by case only
  (`CacheDeletion.Cache.DeleteCachedLocalModel`, `CacheDeletion.CaseTwinsGoTogether`).
- A start that fails to create its directories leaves its id busy for good
  (`DownloadLifecycle.StuckExactlyWhenAbandoned`, `DownloadLifecycle.StuckForever`).
- A complete shard set whose names do not sort as its indices is advertised but does not resolve
  (`VariantSelection.AdvertisedIsResolved`, `VariantSelection.UnpaddedShardsAreRefused`).
- A variant whose quantization differs from another's by case only may resolve to the other's files
  (`CaseTwins.ResolvedAsAdvertisedExactly`, `CaseTwins.TwinTakesOver`).
- Removing all tool responses keeps the last one of an odd number (`ToolFilter.AllGoExactly`).
- A carriage return at the end of fenced code is lost (`CodeFence.FenceRoundTripsExactly`).
- The `Loading` arm of the second look at a slot is dead code (`SlotSafety.InnerLoadingArmIsDead`).

## Model

| member | source | states |
|---|---|---|
| SlotSafety.AtMostOneModelInMemory | crates/aibuddy-local-inference/src/lib.rs:850-1022 | in every state of every interleaving of any number of requests and evictions at most one slot is loaded, also when slots are created after the unload snapshot, and a running generation holds the lock of a loaded slot |
| SlotSafety.GenerationIsUndisturbed | crates/aibuddy-local-inference/src/lib.rs:982-1012 | no step of anything else unloads the slot a generation runs on, or stops the generation |
| SlotSafety.LoadingExactlyWhileOwned | crates/aibuddy-local-inference/src/lib.rs:866-961 | a slot is `Loading` exactly while one task is between setting and taking away its mark; at most one task holds the cold-load lock |
| SlotSafety.InnerLoadingArmIsDead | crates/aibuddy-local-inference/src/lib.rs:868-876 | the second look at the slot, under both locks, never finds it `Loading` |
| SlotSafety.StepPreserves | crates/aibuddy-local-inference/src/lib.rs:850-1022 | each step of each task keeps the whole invariant, by rely and guarantee |
| SlotSafety.RunIsSafe | crates/aibuddy-local-inference/src/lib.rs:850-1022 | the invariant holds in every state of every run |
| SlotProgress.NoLostWakeUp | crates/aibuddy-local-inference/src/lib.rs:858-862 | a task registered on a slot that is no longer loading is about to be woken by the task that ended the load |
| SlotProgress.NoDeadlock | crates/aibuddy-local-inference/src/lib.rs:850-961 | while any request or eviction is unfinished, some task can step |
| SlotProgress.OthersCanStep | crates/aibuddy-local-inference/src/lib.rs:850-961 | while a task waits for a lock or for a load, another task can step |
| SlotProgress.StepLowers | crates/aibuddy-local-inference/src/lib.rs:850-1022 | every step of every task lowers one lexicographic measure, wake-ups and snapshots included |
| SlotProgress.RunFalls | crates/aibuddy-local-inference/src/lib.rs:850-1022 | the measure falls from any state of a run to any later one |
| SlotProgress.EveryRunStops | crates/aibuddy-local-inference/src/lib.rs:850-1022 | there is no infinite run: the retry loop of a request cannot go round for ever, whatever the schedule |
| SlotProgress.StoppedMeansAllEnded | crates/aibuddy-local-inference/src/lib.rs:850-1022 | where a run cannot be continued, every request and eviction has ended |
| SlotOutcomes.OutcomesAreEarned | crates/aibuddy-local-inference/src/lib.rs:850-1012 | in every run a request ends without a model if and only if its announcement could not be sent or its load failed, finds the model gone if and only if its slot was not loaded under its lock, and generates if and only if it was; a load that succeeded is put in place; it loads only if it found the slot empty and waits only if it found it loading |
| SlotOutcomes.RunExecutes | crates/aibuddy-local-inference/src/lib.rs:850-1022 | every run of the protocol is made of moves by its tasks, so this holds of all runs |
| SlotOutcomes.EveryRequestGenerates | crates/aibuddy-local-inference/src/lib.rs:850-1012 | requests for one model, nothing refused and nothing evicted: however they interleave, when the run cannot go on all of them have generated |
| SlotOutcomes.SomeRunGenerates | crates/aibuddy-local-inference/src/lib.rs:850-1012 | from any number of requests for one model there is a run in which all of them generate |
| SlotRuntime.InferenceRuntime.Stream | crates/aibuddy-local-inference/src/lib.rs:850-1012 | the request as the program is written, every other task running between any two of its steps: whatever it does extends a run of the protocol, its loops end, and it ends without a model if and only if the send or the load it asked for was answered no; otherwise it generated on a slot loaded under its lock, or found it not loaded under its lock |
| SlotRuntime.InferenceRuntime.LoopRound | crates/aibuddy-local-inference/src/lib.rs:852-961 | one round of the loop: ready, with no question asked or all answered yes; again, with none asked; or failed, with one answered no |
| SlotRuntime.InferenceRuntime.WaitForLoad | crates/aibuddy-local-inference/src/lib.rs:855-862 | a request that finds the slot loading registers under its lock before it lets go, and comes back behind a moment at which it was woken |
| SlotRuntime.InferenceRuntime.TookStep | crates/aibuddy-local-inference/src/lib.rs:850-1022 | a change that is a step of the protocol extends the run by it, brings the task to its next point, and is followed by any steps of others |
| SlotRuntime.InferenceRuntime.ColdLoad | crates/aibuddy-local-inference/src/lib.rs:866-961 | second look and load under the cold-load lock: ready without a question if the slot was seen loaded at the second look, otherwise as the answers to the send and the load decide |
| SlotRuntime.InferenceRuntime.LoadModel | crates/aibuddy-local-inference/src/lib.rs:878-961 | announcement, unloading, load, and both ways to leave it: ready if and only if both the send and the load were answered yes, with a moment before the load when no slot was loaded and one behind it when the slot was loaded under its lock |
| SlotRuntime.InferenceRuntime.LoadNow | crates/aibuddy-local-inference/src/lib.rs:903-961 | the load itself: no slot is loaded when it starts, and its answer decides how it is left |
| SlotRuntime.InferenceRuntime.UnloadOthers | crates/aibuddy-local-inference/src/lib.rs:894-901 | emptying the snapshot slot by slot leaves no slot loaded, although slots may be created meanwhile |
| SlotRuntime.InferenceRuntime.EndLoad | crates/aibuddy-local-inference/src/lib.rs:886-961 | the task goes through exactly the points of the source: slot locked, mark replaced, waiters woken, locks dropped in order, with the slot loaded when waiters are woken if the load succeeded |
| SlotRuntime.InferenceRuntime.AwaitNotification | crates/aibuddy-local-inference/src/lib.rs:858-862 | a registered task goes on only behind a moment at which it was woken, and then looks at the slot again |
| SlotRuntime.InferenceRuntime.GetOrCreateModelSlot | crates/aibuddy-local-inference/src/lib.rs:154-159 | in its own step a missing slot is created empty, an existing one is kept, and no other slot changes |
| SlotRuntime.InferenceRuntime.Generate | crates/aibuddy-local-inference/src/lib.rs:966-1022 | it generates only at a moment when the slot is loaded and its lock is held, and says that the model is gone only if the slot was seen not loaded |
| SlotRuntime.InferenceRuntime.EvictModel | crates/aibuddy-local-inference/src/lib.rs:219-241 | each slot the model had at the start is seen not loaded, and the answer is yes if and only if the task came through a point at which it emptied one |
| SlotRuntime.InferenceRuntime.EvictOne | crates/aibuddy-local-inference/src/lib.rs:228-239 | one slot under its lock: emptied and its waiters woken if it was loaded, and let go |
| SlotRuntime.OthersStep | crates/aibuddy-local-inference/src/lib.rs:850-1022 | what a task may rely on: another task's step leaves it where it is and its locked slot as it is |
| StreamLoop.Conversation.Push | crates/aibuddy-provider-types/src/conversation.rs:50-125 | `push` in place computes `Pushed`: reports recorded on the right message, deltas joined to the block they continue, everything else appended |
| StreamLoop.Conversation.RecordReport | crates/aibuddy-provider-types/src/conversation.rs:56-73 | the backward search finds the last message a report concerns |
| Accumulator.MergeKeepsAtoms | crates/aibuddy-provider-types/src/conversation.rs:89-121 | joining deltas neither loses, duplicates nor reorders a character or a block |
| Accumulator.PushedSaysMore | crates/aibuddy-provider-types/src/conversation.rs:50-125 | pushing adds exactly what the message says at the end, whatever it is merged with |
| ChunkDetails.ReportExactly | crates/aibuddy-provider-types/src/conversation.rs:52-76 | an empty message that only reports is recorded on the last message it can be about; without one a report of the output limit becomes a message that only the user sees, and any other is dropped |
| ChunkDetails.PushExactly | crates/aibuddy-provider-types/src/conversation.rs:78-122 | any other message joins the last one if and only if they have the same id, block by block, flags and signatures included, and otherwise stands behind it |
| Reassembly.BlocksReassemble | crates/aibuddy-provider-types/src/conversation.rs:89-121 | however blocks are cut into pieces, thinking with its signature on the last piece, the pieces make up exactly those blocks, if adjacent ones are not continuations of each other |
| Reassembly.StreamedBlocksReassemble | crates/aibuddy-provider-types/src/conversation.rs:50-125 | the same in the accumulator: streamed in chunks of one id the blocks stand in one message, whole and in order |
| Reassembly.SignaturesStay | crates/aibuddy-provider-types/src/conversation.rs:98-111 | thinking joins thinking that is unsigned and takes its signature, or that is signed alike; different signatures stay apart |
| StreamLoop.Conversation.NormalizeToolCallThinking | crates/aibuddy-agent/src/inference.rs:78-122 | the in-place loop takes thinking out of call-free messages of the role, drops emptied messages, and splices what it took before the call unless the call brings its own |
| StreamLoop.DropRepeats | crates/aibuddy-agent/src/inference.rs:466-471 | requests whose id was seen in this stream are dropped, new ids recorded |
| ChunkDetails.ThinkingMovesExactly | crates/aibuddy-agent/src/inference.rs:78-122 | a call takes the thinking out of all earlier call-free messages of its role and of no other, what is left empty goes, and what was taken stands directly in front of its first request, unless it brings thinking of its own |
| ChunkDetails.ChunkExactly | crates/aibuddy-agent/src/inference.rs:462-482 | a chunk is marked with its inference, loses repeated requests, gets an id if it has none and says something, and is pushed |
| ToolThinking.FirstRequestsStay | crates/aibuddy-agent/src/inference.rs:466-471 | a block is dropped exactly when it is a request whose id an earlier request of the stream had |
| ToolThinking.MovingKeepsTheRest | crates/aibuddy-agent/src/inference.rs:78-122 | moving thinking touches nothing else |
| ToolThinking.NothingElseIsLost | crates/aibuddy-agent/src/inference.rs:433-485 | over any stream, whatever the roles and ids, the accumulator says apart from thinking exactly what was streamed, in order, without repeated requests |
| ToolThinking.StripMovesThinking | crates/aibuddy-agent/src/inference.rs:89-109 | in a settled accumulator the thinking taken out, put behind what remains, is all the thinking in its order |
| ToolThinking.StreamsSettle | crates/aibuddy-agent/src/inference.rs:78-122 | after any stream of one role no message without a call holds thinking ahead of a message with one |
| ThinkingForecast.ForeseenIsRight | crates/aibuddy-agent/src/inference.rs:78-122 | an automaton that reads only the kinds and ids of the chunks knows of the accumulator: its last message, whether that makes a call, whether thinking waits, and which ids the user sees |
| ThinkingForecast.NeverSpoilsExactly | crates/aibuddy-agent/src/inference.rs:433-485 | no thinking is dropped if and only if no chunk with a call and thinking of its own comes while the automaton has thinking waiting |
| ThinkingForecast.ThinkingSurvivesExactly | crates/aibuddy-agent/src/inference.rs:78-122 | over any stream of one role all thinking survives in order if and only if the chunks never bring a call with thinking of its own while the automaton has other thinking waiting |
| ThinkingForecast.QuietCallsKeepThinking | crates/aibuddy-agent/src/inference.rs:78-122 | if no chunk with a call brings thinking, all thinking survives |
| ToolThinking.ThinkingLeadsTheCall | crates/aibuddy-agent/src/inference.rs:111-121 | thinking that a call takes over stands in front of every request of the message |
| ReceivedCalls.StreamedCalls | crates/aibuddy-agent/src/inference.rs:433-485 | the accumulator requests the ids that were streamed, each once, and answers what was answered |
| AgentMachine.TakeChunk | crates/aibuddy-agent/src/inference.rs:462-482 | one round of the streaming loop, in the order of the source, absorbs one chunk |
| AgentMachine.StateMachine.ReceiveStream | crates/aibuddy-agent/src/inference.rs:433-485 | the loop, cancelled, broken off or exhausted, leaves the accumulator of exactly the chunks received |
| AgentMachine.CancellationResponse | crates/aibuddy-agent/src/inference.rs:240-265 | one pass with two sets gathers the answers a cancelled turn owes |
| LoopDetails.KickoffExactly | crates/aibuddy-agent/src/operation.rs:20-31 | a turn begins at the last message of the user that the user sees and that answers no tool call |
| ToolCalls.OpenIdsExactly | crates/aibuddy-agent/src/inference.rs:240-265 | they are for exactly the ids requested and not answered, once each |
| ToolCalls.ClosingLeavesNothing | crates/aibuddy-agent/src/inference.rs:240-265 | once they are appended, nothing is unanswered or pending, and no id has two answers |
| AgentMachine.ToolRegistry.Register | crates/aibuddy-agent/src/tool.rs:172-183 | a tool of the same name is replaced where it stands, so names stay distinct |
| AgentMachine.ToolRegistry.WithProvider | crates/aibuddy-agent/src/tool.rs:185-188 | a provider of tools is added behind the others |
| AgentMachine.ToolRegistry.AvailableTools | crates/aibuddy-agent/src/tool.rs:233-255 | all names in order, or an error if and only if two of them are the same |
| AgentMachine.AddNames | crates/aibuddy-agent/src/machine.rs:56-68 | tools are added unless a name repeats one that is there |
| AgentMachine.StateMachine.AnswerPending | crates/aibuddy-agent/src/tool.rs:333-367 | the dispatch loop with its looks at the token, tied to the specification of answers, calls and time |
| AgentMachine.StateMachine.RunTools | crates/aibuddy-agent/src/tool.rs:284-370 | one run of the tool operation: what it appends, which calls it starts, when it does not apply |
| LoopSafety.ToolsAnswer | crates/aibuddy-agent/src/tool.rs:284-370 | when tools apply they answer, in one message, all pending requests if the token is found cancelled while tools are listed, and all dispatchable ones otherwise; when they do not apply nothing is dispatchable |
| LoopDetails.ToolsExactly | crates/aibuddy-agent/src/tool.rs:284-370 | the whole tool operation, in terms of the blocks of the turn: which requests are left to answer, which of them can be, when it fails or does not apply, and one response for each of them, in order, an output only of a call that was started |
| LoopSafety.ToolsAnswerOnceExactly | crates/aibuddy-agent/src/tool.rs:284-370 | cancelled or not, tools answer nobody twice if and only if nobody was, and the requests they choose have distinct ids: all pending ones if cancelled while listing, the dispatchable ones otherwise |
| LoopEnds.ReportsAreTrue | crates/aibuddy-agent/src/tool.rs:333-367 | each response is for its own request, with its verdict or interrupted; from the first interruption on all are, and there is one exactly when cancellation was seen |
| LoopEnds.CancellationIsSeen | crates/aibuddy-agent/src/tool.rs:344-360 | the dispatch loop sees a cancellation exactly when it comes before its last look |
| LoopEnds.OutputsWereStarted | crates/aibuddy-agent/src/tool.rs:348-366 | an output is reported only for a call that was started |
| LoopDetails.OutputsAreReal | crates/aibuddy-agent/src/machine.rs:79-179 | over every run, cancelled at any moment, an output is reported only of a call that the run started |
| LoopEnds.RequestsShown | crates/aibuddy-agent/src/inference.rs:192-216 | of earlier turns the provider sees exactly the answered requests, of the current turn all of them |
| LoopDetails.ViewExactly | crates/aibuddy-agent/src/inference.rs:192-216 | the provider is sent the messages of which the agent may see something, in order, each with exactly the blocks it may see: for its audience, and requests of earlier turns only if answered |
| LoopDetails.AppliesExactly | crates/aibuddy-agent/src/inference.rs:341-347 | an inference is made if and only if there is a turn, the last message reports no error, and the last message of which the provider sees anything is from the user |
| LoopDetails.InferExactly | crates/aibuddy-agent/src/inference.rs:349-415 | what an inference does that does not apply, or that the provider refuses |
| InferenceContent.ReceivedExactly | crates/aibuddy-agent/src/inference.rs:433-485 | what is received: the chunks up to the cancellation, the break or the end, whichever comes first |
| InferenceContent.SilentExactly | crates/aibuddy-agent/src/inference.rs:498-509 | the accumulator is taken for silent if and only if no chunk reported the output limit and every block streamed is text or thinking of white space |
| InferenceContent.FinishExactly | crates/aibuddy-agent/src/inference.rs:487-510 | only the remark is appended, handing back, if and only if the stream was read to its end, came to nothing by its chunks, and no cancellation seen by then owes an answer; otherwise all that was received, and behind it the error or the answers owed |
| InferenceContent.FinishSaysExactly | crates/aibuddy-agent/src/inference.rs:487-510 | an inference not taken for empty says exactly what was streamed, without repeated requests, and behind it the error or the answers owed; its thinking is that of the accumulator |
| AgentMachine.StateMachine.Infer | crates/aibuddy-agent/src/inference.rs:349-510 | the inference, from the provider's reply to the messages appended |
| AgentMachine.StateMachine.FinishStream | crates/aibuddy-agent/src/inference.rs:487-510 | closing on cancellation, the remark on an empty response, and a stream that broke off |
| LoopEnds.InferenceClosesExactly | crates/aibuddy-agent/src/inference.rs:487-510 | after a stream that did not break off, every request of the turn is answered if and only if cancellation was seen by then, or nothing was outstanding and the stream asked for nothing new |
| LoopEnds.InferClosesExactly | crates/aibuddy-agent/src/inference.rs:349-510 | the same of every inference: refused, broken off, cut short or complete |
| LoopEnds.ToolsCloseExactly | crates/aibuddy-agent/src/tool.rs:284-370 | running tools leaves every request of the turn answered if and only if all that was open is among those they choose |
| AgentMachine.StateMachine.Step | crates/aibuddy-agent/src/machine.rs:79-141 | one pass over the pipeline of tools and inference, look by look at the token |
| AgentMachine.StateMachine.AfterInfer | crates/aibuddy-agent/src/machine.rs:113-136 | the machine's own look behind an inference: cancel what did not apply, and hand back |
| AgentMachine.StateMachine.Run | crates/aibuddy-agent/src/machine.rs:161-179 | any number of steps, each applied before the next begins |
| LoopSafety.StepAnswersOnceExactly | crates/aibuddy-agent/src/machine.rs:79-141 | a step that appends leaves the kickoff in place, takes time, and answers nobody twice if and only if nobody was and its tools choose distinct ids; pending ids stay distinct if the reply reuses none |
| LoopSafety.RunFollows | crates/aibuddy-agent/src/machine.rs:161-179 | a run only appends and keeps the start of the turn |
| LoopAnswers.OneAnswerExactly | crates/aibuddy-agent/src/machine.rs:79-179 | over every run, cancelled at any moment, no request of the turn has two answers if and only if none had and each step began where the pending requests its tools choose had distinct ids |
| LoopAnswers.StartedExactly | crates/aibuddy-agent/src/tool.rs:333-367 | the dispatch loop starts exactly the well-formed calls it reaches before cancellation, in order |
| LoopAnswers.CallsStartOnceExactly | crates/aibuddy-agent/src/machine.rs:79-179 | over every run no call answered before is started, and none is started twice if and only if each step began where the requests it comes to start had distinct ids |
| LoopAnswers.NoReuseIsEnough | crates/aibuddy-agent/src/machine.rs:79-179 | if the provider reuses no pending id, each request of the turn gets at most one answer and no call is started twice, over every run |
| LoopWitnesses.ReusedIdIsAnsweredTwice | crates/aibuddy-agent/src/tool.rs:305-320 | a run from its kickoff: two requests, one answered, the open one asked for again, tools cancelled while listed; its id is answered twice |
| LoopEnds.NothingDispatchableIsLeft | crates/aibuddy-agent/src/machine.rs:161-179 | when a run that was never found cancelled stops, no pending request names an available tool |
| LoopEnds.OneStepAfterCancellation | crates/aibuddy-agent/src/machine.rs:161-179 | after cancellation at most one step begins, calls nothing, and then the run ends with every request of the turn answered |
| LoopEnds.StepClosesExactly | crates/aibuddy-agent/src/machine.rs:79-141 | a step that finds the token cancelled on its way ends the run, with every request of the turn answered if and only if the look that found it closes the turn: a case for listing, dispatch, before the inference, gathering, the stream, and the machine's own look |
| LoopEnds.CancelledRunClosesExactly | crates/aibuddy-agent/src/machine.rs:79-179 | a run that ends with the token found cancelled has every request of the turn answered if and only if a step began after the cancellation, or the look of its last step that found it closes the turn |
| LoopWitnesses.ListingLeavesExternalOpen | crates/aibuddy-agent/src/tool.rs:305-320 | a run that is cancelled while tools are listed and ends with an external request open |
| LoopWitnesses.DispatchLeavesUnavailableOpen | crates/aibuddy-agent/src/tool.rs:333-367 | a run that is cancelled while calls are dispatched and ends with a request for an unavailable tool open |
| LoopWitnesses.GatheringLeavesOpen | crates/aibuddy-agent/src/machine.rs:96-100 | a run that is cancelled while tools are gathered for the inference and ends with a request open |
| LoopWitnesses.RefusalLeavesOpen | crates/aibuddy-agent/src/machine.rs:113-136 | a run that is cancelled behind a refused inference and ends with a request open |
| LoopWitnesses.BrokenStreamLeavesOpen | crates/aibuddy-agent/src/machine.rs:113-136 | a run that is cancelled behind a stream that broke off and ends with the streamed requests open |
| LoopWitnesses.LateCancellationLeavesOpen | crates/aibuddy-agent/src/machine.rs:113-136 | a run that is cancelled between the inference's last look and the machine's and ends with a request open |
| ObjectScanner.LeadingObject | crates/aibuddy-context-management/src/structured.rs:255-290 | the scanner's loop computes `Leading`; its depth never underflows |
| ObjectScanner.LeadingIsExact | crates/aibuddy-context-management/src/structured.rs:255-290 | the scanner answers with a text if and only if that text is an object, by a grammar of its own, and the trimmed input starts with it |
| ObjectScanner.ObjectsArePrefixFree | crates/aibuddy-context-management/src/structured.rs:255-290 | no object is a proper prefix of another, so what is found is the shortest and the only one |
| ObjectScanner.LeadingFindsObject | crates/aibuddy-context-management/src/structured.rs:255-290 | any object, after blanks and before anything, is found exactly |
| Characters.WhitespaceExactly | crates/aibuddy-context-management/src/structured.rs:255-259 | the blanks that are trimmed are those of the Unicode White_Space property, by number |
| JsonText.PrintedIsObject | crates/aibuddy-context-management/src/structured.rs:255-290 | every JSON object value, printed in any way RFC 8259 allows, is an object of the scanner's grammar: any blanks at any place, each character of a string as it is, by a letter or by its code, surrogates included |
| JsonText.PrintedObjectIsFound | crates/aibuddy-context-management/src/structured.rs:255-290 | blanks, the object printed in any of these ways, and anything after it scan back to the printed object |
| JsonText.EveryValuePrints | crates/aibuddy-context-management/src/structured.rs:255-290 | every JSON value has such a text |
| Occurrences.MatchIndices | crates/aibuddy-context-management/src/structured.rs:221-233 | left-to-right search, going on behind each match |
| Occurrences.MatchesAreAll | crates/aibuddy-context-management/src/structured.rs:221-233 | for a marker that does not overlap itself the search finds every occurrence once |
| Occurrences.EqualCountHasAll | crates/aibuddy-context-management/src/structured.rs:227-236 | a part of a text has as many terminators as the text if and only if it has them all |
| CandidateSearch.CollectFencedBlocks | crates/aibuddy-context-management/src/structured.rs:246-252 | objects directly behind a fence, last fence first |
| CandidateSearch.CollectCandidates | crates/aibuddy-context-management/src/structured.rs:216-240 | the candidates in the order in which they are tried |
| CandidateSearch.RemoveRepeats | crates/aibuddy-context-management/src/structured.rs:238-239 | of equal neighbours the first stays |
| Candidates.CandidatesExactly | crates/aibuddy-context-management/src/structured.rs:216-252 | what is a candidate, in terms of occurrences alone: an object behind a cut or a fence after it that quotes as many terminators as follow the cut, or the object the text starts with |
| CandidateOrder.CandidatesInOrder | crates/aibuddy-context-management/src/structured.rs:216-252 | the candidates in the order in which they are tried: last cut first, behind a cut the last fence first and what has no fence last, and at the end what the text starts with; each source once, and none left out |
| CandidateOrder.DedupExactly | crates/aibuddy-context-management/src/structured.rs:238-239 | merging leaves no equal neighbours and only drops repeats of the one before |
| Candidates.CandidateCoversLaterTerminators | crates/aibuddy-context-management/src/structured.rs:227-236 | a candidate taken behind a cut holds every terminator after the cut: a fenced example in the scratchpad cannot leak |
| Candidates.FencedSummaryIsCandidate | crates/aibuddy-context-management/src/structured.rs:216-252 | whatever scratchpad and object quote, an object in a fence behind the closing terminator is among the candidates if the tail is free of terminators |
| Candidates.BareSummaryIsCandidate | crates/aibuddy-context-management/src/structured.rs:216-252 | the same without a fence |
| PrintedSummary.PrintedSummaryIsCandidate | crates/aibuddy-context-management/src/structured.rs:216-290 | the same for every JSON object, however it is printed |
| CandidateSearch.OrdinarySummaryIsFirst | crates/aibuddy-context-management/src/structured.rs:216-252 | when object and tail quote no marker, the object is tried before everything else |
| Download.Downloader.Fetch | crates/aibuddy-download-manager/src/lib.rs:468-654 | the retry loop against any honest server: partial file and counters agree at every head, it ends after at most twice the allowed attempts although a 416 costs none, each request asks for exactly what is missing, on success the file is the remote content if and only if the completing reply did not stop short, and however it ends a later run can resume; unless something is cancelled or a file operation fails, it fails only at a rejection or at the eleventh failure, and the first body that ends cleanly before that ends it with success |
| Download.Downloader.Attempt | crates/aibuddy-download-manager/src/lib.rs:468-654 | one round: another attempt at a failure that may still be counted or at a 416, success at a body that ends cleanly, giving up at a rejection or when no failure is left, and a partial file that can be resumed in each case |
| Download.Downloader.TakeReply | crates/aibuddy-download-manager/src/lib.rs:495-651 | what is made of each kind of reply |
| Download.OneVerdict | crates/aibuddy-download-manager/src/lib.rs:468-654 | no sequence of replies both ends the download with success and makes it fail |
| Download.ShortPartIsHonest | crates/aibuddy-download-manager/src/lib.rs:573-654 | a short 206 that ends cleanly is honest (section 15.3.7 of RFC 9110); with the last clause of `Fetch` it is taken for the whole file |
| Download.Downloader.Receive | crates/aibuddy-download-manager/src/lib.rs:559-634 | the body of a 200 or 206 is written behind the bytes that are kept |
| Download.Downloader.AppendChunks | crates/aibuddy-download-manager/src/lib.rs:573-631 | chunks are appended one by one and counted |
| Download.Downloader.OpenPartial | crates/aibuddy-download-manager/src/lib.rs:559-568 | the partial file is opened and cut to the bytes that are kept |
| Download.Downloader.DownloadOneFile | crates/aibuddy-download-manager/src/lib.rs:425-658 | on success only the destination is new, and only its partial file is gone; on failure only the partial file has changed, and it can be resumed |
| Download.Downloader.DownloadFilesSequentially | crates/aibuddy-download-manager/src/lib.rs:345-422 | the whole list: the byte counter equals what lies on disk, files that were there stay, and every new file equals its remote content unless some reply stopped short; whether it succeeds or fails, it can be run again |
| Download.Downloader.CountExisting | crates/aibuddy-download-manager/src/lib.rs:381-394 | the bytes present are counted before the first download |
| Download.TotalChangesAt | crates/aibuddy-download-manager/src/lib.rs:380-419 | a change of one file changes the total by that file's share |
| Download.OthersUntouched | crates/aibuddy-download-manager/src/lib.rs:400-419 | downloading one file leaves the others of the list alone |
| Download.OthersResumable | crates/aibuddy-download-manager/src/lib.rs:400-419 | a failed download leaves every partial file of the list as resumable as it was |
| Download.PartialPathInjective | crates/aibuddy-download-manager/src/lib.rs:9-19 | two destinations never share a partial file |
| DownloadLifecycle.OneWorkerPerModel | crates/aibuddy-download-manager/src/lib.rs:126-311 | over every interleaving of start, reserve, cancel, finish and clear, an id has at most one worker, whose entry is present, not exited, not cleared and not taken over |
| DownloadLifecycle.RunPreserves | crates/aibuddy-download-manager/src/lib.rs:126-311 | the invariant behind it, over every sequence of operations |
| DownloadLifecycle.StuckExactlyWhenAbandoned | crates/aibuddy-download-manager/src/lib.rs:221-262 | an id looks busy with nobody working for it if and only if some start of it failed to create its directories |
| DownloadLifecycle.StuckForever | crates/aibuddy-download-manager/src/lib.rs:221-262 | once so, no sequence of operations ever gets it a worker again |
| DownloadLifecycle.RefusedExactly | crates/aibuddy-download-manager/src/lib.rs:126-253 | after any sequence of operations a start or a reservation is refused if and only if somebody works for the id or a start of it was abandoned; otherwise it enters the id for one new worker |
| DownloadLifecycle.ClearedExactly | crates/aibuddy-download-manager/src/lib.rs:660-671 | an entry is cleared if and only if nobody works for the id and no start of it was abandoned |
| DownloadLifecycle.EndsExactly | crates/aibuddy-download-manager/src/lib.rs:276-307 | a task that ends leaves its id free, completed if it succeeded, and otherwise cancelled if and only if the id was cancelled since it was entered |
| DownloadLifecycle.DownloadManager.ReserveDownload | crates/aibuddy-download-manager/src/lib.rs:126-142 | reserving any entry, under the lock: refused if and only if the id is downloading, or cancelled with its worker not gone |
| DownloadLifecycle.DownloadManager.BeginDownload | crates/aibuddy-download-manager/src/lib.rs:221-253 | the part of a start under the lock |
| DownloadLifecycle.DownloadManager.FinishDownload | crates/aibuddy-download-manager/src/lib.rs:276-307 | what a task does at its end; `Completed` may overwrite `Cancelled` |
| DownloadLifecycle.DownloadManager.CancelDownload | crates/aibuddy-download-manager/src/lib.rs:152-164 | cancelling, under the lock |
| DownloadLifecycle.DownloadManager.ClearCompleted | crates/aibuddy-download-manager/src/lib.rs:660-671 | only an ended and exited entry is cleared |
| ShardSets.IsCompleteShardSet | crates/aibuddy-local-inference/src/hf_models.rs:388-407 | counting, range checks and a set of indices decide whether the indices are exactly 1 to N: the pigeonhole argument |
| SelectedFiles.CompleteExactly | crates/aibuddy-local-inference/src/hf_models.rs:388-407 | complete means that every shard says how many there are and every index from one to that number is there |
| ShardSets.SelectPreferredShardSet | crates/aibuddy-local-inference/src/hf_models.rs:409-427 | grouping in a hash map and taking the minimum gives the preferred set, whatever order the map yields |
| ShardSets.PreferredKeyIsPreferred | crates/aibuddy-local-inference/src/hf_models.rs:417-426 | there is a best set: better than every other by completeness, length and name |
| ShardSets.OnlyOnePreferred | crates/aibuddy-local-inference/src/hf_models.rs:417-426 | and only one |
| ShardSets.CompleteWheneverPossible | crates/aibuddy-local-inference/src/hf_models.rs:409-427 | a complete set is chosen whenever there is one |
| ShardSets.ChoiceIgnoresOrder | crates/aibuddy-local-inference/src/hf_models.rs:409-427 | the choice does not depend on the order of the listing |
| Variants.SortOfQuant | crates/aibuddy-local-inference/src/hf_models.rs:690-697 | sorting by quantization and plainness sorts each quantization by plainness |
| Variants.DedupFirst | crates/aibuddy-local-inference/src/hf_models.rs:697 | deduplicating keeps the plainest file of each quantization |
| Variants.InSequenceExactly | crates/aibuddy-local-inference/src/hf_models.rs:972-1014 | the checks on the sorted shards pass if and only if the set is complete and names sort as indices do |
| VariantSelection.GroupIntoVariants | crates/aibuddy-local-inference/src/hf_models.rs:652-748 | one variant for each quantization, each what its files offer; an error if and only if some quantization mixes families |
| SelectedFiles.AdvertisedExactly | crates/aibuddy-local-inference/src/hf_models.rs:652-748 | what each variant stands for: the single file of its quantization with the shortest name, and of those the first, or the shards of the key that goes before every other; one variant for every quantization that some file has |
| VariantSelection.EnsureOneFamily | crates/aibuddy-local-inference/src/hf_models.rs:514-534 | an error exactly when two files differ in family |
| VariantSelection.ResolveModelSpec | crates/aibuddy-local-inference/src/hf_models.rs:914-1037 | the files a quantization resolves to, and every way to fail |
| SelectedFiles.ResolvedExactly | crates/aibuddy-local-inference/src/hf_models.rs:914-1037 | what a quantization resolves to, told by names, lengths and shard sets alone: every failure, the single file with the shortest name, or the shards of the key that goes before every other if their indices count up in the order of their names |
| VariantSelection.CheckSequence | crates/aibuddy-local-inference/src/hf_models.rs:975-1014 | totals, count and contiguity of the shards |
| VariantSelection.AdvertisedIsResolved | crates/aibuddy-local-inference/src/hf_models.rs:652-1037 | where no two quantizations differ by case only, every advertised variant resolves to files with the advertised first name and total size; it fails if and only if it is sharded and its preferred set is incomplete or its names do not sort as its indices |
| CaseTwins.ResolvedAsAdvertisedExactly | crates/aibuddy-local-inference/src/hf_models.rs:652-1037 | whatever the spellings, an advertised variant resolves to the very files it stands for if and only if all files of its quantization up to case are of one family, none of another spelling goes before its own, and its shards, if it has only shards, are complete and named in the order of their indices |
| CaseTwins.BestAgrees | crates/aibuddy-local-inference/src/hf_models.rs:409-427 | the best shard set of one spelling is the best of all if and only if it beats every set of another spelling |
| CaseTwins.TwinTakesOver | crates/aibuddy-local-inference/src/hf_models.rs:914-965 | two spellings of one quantization are two variants, and one resolves to the file of the other |
| VariantSelection.UnpaddedShardsAreRefused | crates/aibuddy-local-inference/src/hf_models.rs:652-1037 | a complete set with unpadded indices is among the variants of every listing of its catalogue, and does not resolve |
| CacheDeletion.Cache.CountReferences | crates/aibuddy-local-inference/src/hf_models.rs:2982-2992 | the reference count of every blob |
| CacheDeletion.Cache.RemoveOne | crates/aibuddy-local-inference/src/hf_models.rs:3031-3042 | after each link the counts equal the surviving references, and a blob went if and only if its last one did |
| CacheDeletion.Cache.RemoveFiles | crates/aibuddy-local-inference/src/hf_models.rs:3031-3042 | the whole loop, also when it fails half way: no surviving file loses its blob |
| CacheDeletion.Cache.DeleteFiles | crates/aibuddy-local-inference/src/hf_models.rs:2982-3042 | with other models in the repository: on success exactly the weights of the quantization up to case and an unshared projector are gone, and a blob is gone if and only if it was scanned and nothing links to it any more; the files of the others are intact if and only if none of them was selected |
| CacheDeletion.Cache.RemovableProjector | crates/aibuddy-local-inference/src/hf_models.rs:2994-3008 | the projector is to go if and only if it leads to a blob to which no other cached model's projector leads |
| CacheDeletion.TakenExactly | crates/aibuddy-local-inference/src/hf_models.rs:2994-3029 | a file of another model is selected if and only if another model of the repository has a weight whose quantization is the same up to case, or one with the contents of the removed projector |
| CacheDeletion.Cache.DeleteRepository | crates/aibuddy-local-inference/src/hf_models.rs:2967-2980 | the only model of its repository: its directory goes, and nothing else |
| CacheDeletion.NamedExactly | crates/aibuddy-local-inference/src/hf_models.rs:2948-2954 | the model deleted is the first of that id |
| CacheDeletion.Cache.DeleteCachedLocalModel | crates/aibuddy-local-inference/src/hf_models.rs:2945-3042 | unknown, downloading or missing models are refused and nothing changes; otherwise it fails only if a removal failed, and on success exactly its files are gone, and blobs with their last link; without a case twin every file of every other cached model keeps its contents, however it ends, and with one a success takes it away |
| CacheDeletion.CaseTwinsGoTogether | crates/aibuddy-local-inference/src/hf_models.rs:3010-3029 | two cached models whose quantizations differ by case only are such twins |
| ToolFilter.FilterToolResponses | crates/aibuddy-context-management/src/summarize.rs:38-75 | the middle-out loop removes exactly the tool responses of the specified ranks and keeps everything else in order |
| ToolFilter.MiddleOut | crates/aibuddy-context-management/src/summarize.rs:55-67 | alternating around the middle covers exactly the window of ranks, clipped at both ends |
| ToolFilter.LargerShareDropsMore | crates/aibuddy-context-management/src/summarize.rs:38-75 | a larger percentage removes what a smaller one removes |
| ToolFilter.MiddleGoesFirst | crates/aibuddy-context-management/src/summarize.rs:55-67 | what is dropped lies between two ranks around the middle: as many stay before it as behind it, or up to two fewer |
| ToolFilter.KeptExactly | crates/aibuddy-context-management/src/summarize.rs:69-75 | what is left stands at exactly the places that are not dropped, in order and as it was |
| ToolFilter.RemovedExactly | crates/aibuddy-context-management/src/summarize.rs:38-75 | how many messages go, all of them tool responses: the quota, but one less when all of an odd number are asked for |
| ToolFilter.AllGoExactly | crates/aibuddy-context-management/src/summarize.rs:38-75 | asking for all removes all if and only if their number is even, although the last error says all were removed |
| ToolFilter.Summarize | crates/aibuddy-context-management/src/summarize.rs:124-180 | the ladder tries again only after overflow and only if there is a tool response, and the answer to its last attempt decides |
| CodeFence.FoldFinds | crates/aibuddy-context-management/src/templates.rs:35-44 | the fold finds the length of the longest run of backticks |
| CodeFence.FenceIsShortest | crates/aibuddy-context-management/src/templates.rs:34-44 | the fence is the shortest of at least three backticks that is longer than every run of them in the code |
| CodeFence.OnlyNewlinesGo | crates/aibuddy-context-management/src/templates.rs:45-47 | only trailing newlines are cut off, and all of them |
| CodeFence.BodyIsText | crates/aibuddy-context-management/src/templates.rs:34-47 | text whose runs are shorter than the fence is read back up to the closing fence, whatever its line endings |
| CodeFence.FenceRoundTripsExactly | crates/aibuddy-context-management/src/templates.rs:34-47 | read by section 4.5 of CommonMark 0.31.2 the fenced code is the code without trailing newlines, if and only if what comes last then is not a carriage return |
| TokenBucket.Bucket.Check | oidc-proxy/src/index.js:16-42 | one check, in place: budget, pruning, rate, count and storage |
| TokenBucket.ListIsRecentHistory | oidc-proxy/src/index.js:27-35 | the pruned list is the whole accepted history cut to the last second |
| TokenBucket.RateIsKept | oidc-proxy/src/index.js:16-42 | with a clock that does not go back, no second within one lifetime holds more accepted requests than the rate allows |
| TokenBucket.BudgetIsKept | oidc-proxy/src/index.js:9-38 | over any restarts the stored count grows by exactly the accepted requests, and accepting never exceeds the budget |
| TokenBucket.AnsweredExactly | oidc-proxy/src/index.js:9-42 | the answer to every request over any restarts: refused if and only if the budget is spent or the last second of this lifetime is full |

## Left out

- LoopAnswers.OneAnswerExactly: assumes, as all theorems about runs do, that the provider speaks as the assistant and sends no tool responses.
- LoopEnds.NothingDispatchableIsLeft: external requests and requests that name no available tool may stay open, as in the source.
- ThinkingForecast.ThinkingSurvivesExactly: is about the text of thinking and about redacted blocks; signatures are not part of it (see `Reassembly.BlocksReassemble`), since the signature of an empty thinking block may go.
- AgentMachine.StateMachine.Run: runs any given number of steps, because the loop of the source need not end; the theorems hold for every number.
- SlotRuntime.InferenceRuntime.Stream: assumes of the scheduler that while a task waits some task that can step does; which one, and how many others step, is open.
- Download.Downloader.Fetch: a partial file found at first is taken to be a prefix of the remote content or longer than it; every run leaves it so.
- VariantSelection.AdvertisedIsResolved: assumes that no two quantizations differ only by case (see `CaseTwins.ResolvedAsAdvertisedExactly`) and that every shard file has a shard-set key, without which the source panics.
- CaseTwins.ResolvedAsAdvertisedExactly: assumes that file names of a repository differ, and that a shard's key, which holds the text its quantization is read from, determines that quantization.
- CacheDeletion.Cache.DeleteCachedLocalModel: assumes that each scanned path leads to the blob the scan reports for it, that a repository has one MLX model at most, and that a projector is an auxiliary file of its model's repository.
- Tokio: futures, channels and wake-ups are atomic steps; a `Notified` created before `notify_waiters` is woken.
- Loading and generating: foreign calls that succeed or fail. Loading a model and dropping an unloaded one take no memory into account beyond which slots are loaded.
- Cache keys, paths, hashes, model ids and names: integers or ranks where only their equality or order matters. Parsing quantizations, families and shard names out of file names is not modelled.
- The settings, templates and payload of a request, and the messages sent through its channel.
- `loaded_model_paths`, `is_model_loaded` and `loaded_model_ids` read slots only.
- The request preparer is the identity; `fix_conversation` and the merging of messages for the request only change what the provider is sent, and the provider may answer anything.
- Usage records, provider sessions, tracing, events to the client, and metadata of messages beyond visibility, inference and the output limit. An inference record is a flag.
- Effects other than appending a message. Ids given to messages outside an accumulator are unique and left out.
- Tool results: only whether a call returned, was refused for its arguments, was interrupted or never started.
- `assistant_turn_count`, `ends_turn` and slash commands: no part of the pipeline of tools and inference.
- Deserializing and rendering a summary; byte offsets, since the markers are ASCII and texts are sequences of characters.
- Progress percentages, speed, ETA, delays between retries, and `total_bytes` once known; 2xx replies other than 200 and 206; the width of `u64`.
- `set_progress` and `update_progress`: callers can break the lifecycle with them. So can code outside the download manager that marks entries exited.
- The final sort of variants by quality and size, projectors of a resolved model, recommendations and merging of model info.
- Cached model discovery: which files the scan reports is an input of the deletion.
- Token estimates and the text of the summarizer's prompt.
- Fences that are indented or lie inside lists or quotes.
- `TokenBucket`: overlapping requests, which the durable object's input gates keep apart, and the proxy around it.
