# Verification of the agent run engine and the protocols around it

A Dafny model of the code that runs an agent, with proofs of what that code
promises. The centre is the run loop of `packages/pi-agent-core`: a nested loop
that streams a reply, runs its tool calls one after another or concurrently, and
absorbs steering and follow-up messages; and the `Agent` class around it, with its
two queues, its streaming flag and the reducer that rebuilds the transcript from
events. Around it stand the stream adapter for Claude Code, the proxy stream, the
RPC client of the editor extension, the answer injector of headless mode, and the
mirror of managed resources.

Every asynchronous call is an input: what a provider streams, what each hook and
tool does, what other code does to the queues before each poll, in which order
concurrent tools make progress. The theorems quantify over all of them.

Check everything with `dafny verify dfyconfig.toml`.

## How the model is built

Each piece of code that changes things step by step is there twice: as a method or
class with the loops and assignments of the original, and as a function of its
inputs that the method is proved equal to. Theorems are lemmas about the functions.

| file | what it holds |
|---|---|
| `Messages.dfy` | messages, replies, events; what a consumer reads out of an event log |
| `Queues.dfy` | the two queues with a ledger of every message's fate; class `MessageQueues` |
| `ReplyStream.dfy` | one streamed reply, for arbitrary providers |
| `ToolPhase.dfy`, `ToolPhaseFacts.dfy`, `ParallelFacts.dfy`, `ToolPhaseTheorems.dfy` | the tool calls of one reply, in both modes |
| `ToolPhaseEvents.dfy` | what the events of a tool phase carry, and when a call ends |
| `ToolPhaseFailures.dfy` | what each result says, and which inputs make a tool phase fail, or lose results |
| `AgentLoop.dfy`, `AgentLoopTheorems.dfy`, `AgentLogTheorems.dfy`, `ConversationTheorems.dfy`, `TranscriptTheorems.dfy`, `ScheduleTheorems.dfy` | whole runs |
| `RunFailures.dfy` | which inputs make the logs of a run disagree, and two runs whose logs do |
| `LogContents.dfy` | what the log of a whole run says, when a run goes on, and what it says of an exception |
| `AgentLoopMethods.dfy` | the run loop as imperative code |
| `Agent.dfy`, `AgentTheorems.dfy`, `QueueHistory.dfy`, `SessionTheorems.dfy`, `AgentMethods.dfy` | the reducer, `prompt()`, `continue()`, whole sessions, and the class |
| `Lines.dfy` | line framing over chunks |
| `Adapter.dfy`, `AdapterRuns.dfy` | the Claude Code adapter, alone and under the run loop |
| `Proxy.dfy`, `ProxyStreamTheorems.dfy`, `ProxyMethods.dfy` | the proxy stream |
| `Client.dfy`, `ClientMethods.dfy` | the RPC client |
| `Answers.dfy`, `AnswersMethods.dfy` | the answer injector |
| `Mirror.dfy`, `Fingerprint.dfy`, `Numerals.dfy` | the resource mirror and its fingerprint |

A run may go on for ever, and a method may not; so the methods that run one take a
`limit` of passes for which it is watched, and say where it stands then.

A run is `Reached(u, o, n)`: the state after `n` passes of the inner loop, from
setup `u`, with the inputs of every pass supplied by `o`. So a lemma about
`Reached(u, o, n)` speaks of every turn boundary of every run.

## Where code and documentation disagree

Each of these has its exact condition on the inputs, and a concrete case.

- The documentation of the parallel mode says results come in source order
  (`packages/pi-agent-core/src/types.ts:24-25`). They do not when a call answered
  at once (unknown tool, invalid arguments, blocked) follows one that is prepared:
  `ToolPhaseFailures.SourceOrderExactlyWhen`; `UnknownToolComesFirst`.
- `continue()` reads the queues before `_runLoop` looks at the model, so without a
  model it throws with the queued messages in hand: `ContinueLosesExactlyWhen`;
  `ContinueCanLose`.
- An exception from `afterToolCall`, or from a poll inside a tool phase, leaves the
  results committed before it in the transcript, but in neither the context nor
  `agent_end`: `RunFailures.TranscriptAgreesExactlyWhen`; `HookLosesResult`.
- An exception from a poll between turns puts a message and a `turn_end` outside
  any turn: `RunFailures.BracketsExactlyWhen`; `PollBreaksBrackets`.
- A provider that throws after start leaves both the message it began and the one
  about the failure in the context, and two `message_start` events with one
  `message_end`: `AskKeepsContextExactlyWhen`, `RunFailures.BracketsExactlyWhen`;
  `LateThrowBreaks`.
- A request to Claude Code aborted after its first output never ends as aborted:
  `AbortedExactlyWhen`; `AbortAfterOutputShowsAsError`.
- Stripping the partial message from what the proxy pushes does not give back what
  it received: `StreamsEqualExactlyWhen`; `UnendedCallsLookAlike`.
- A `toolcall_delta` after a `toolcall_end` is appended to the word `undefined`:
  `ArgumentsExactlyWhen`; `DeltaAfterEndSpoils`.
- A question asked before it is announced and not answered by the file is dropped
  under `first_option`, without any response: `Answers.DroppedExactlyWhen`;
  `AnnouncedLateIsDropped`.
- A resource file dropped from the bundle stays in the agent directory unless its
  other-extension sibling is bundled: `UpgradeLeavesBehind`; `DroppedFileStays`.

## Model

| member | source | states |
|---|---|---|
| Messages.CallsAppend | packages/pi-agent-core/src/agent-loop.ts:232 | the calls of two stretches of blocks are those of the first and then those of the second; with CallsOfOne, exactly the tool-call blocks, in order |
| Messages.CallBlocks | packages/pi-agent-core/src/agent-loop.ts:383 | of the blocks of a reply each tool call comes right after the calls of the blocks before it, and every other block adds none |
| Queues.ApplyKeepsFaith | packages/pi-agent-core/src/agent.ts:291-360 | each queue operation keeps the queue, and the lists of delivered, drained and cleared messages, equal to what the ledger of fates says, in order, and forgets nothing enqueued |
| Queues.ExactlyOneFate | packages/pi-agent-core/src/agent.ts:291-360 | over every history of operations on a queue, the ledger holds everything enqueued, in order, and the four lists agree with it |
| Queues.FatesPartition | packages/pi-agent-core/src/agent.ts:291-360 | waiting, delivered, drained and cleared together are everything enqueued, each once |
| Queues.DeliveredBeforeWaiting | packages/pi-agent-core/src/agent.ts:332-360 | first in, first out: nothing delivered is younger than something still waiting |
| Queues.DrainPicks | packages/pi-agent-core/src/agent.ts:320-326 | draining takes exactly the user's waiting messages, in order, and leaves the others in order |
| Queues.AwaitPollKeepsFaith | packages/pi-agent-core/src/agent.ts:490-497 | a poll hands over exactly what leaves its queue, whatever happened to the queues before it, and nothing when it throws |
| Queues.ActChanges | packages/pi-agent-core/src/agent.ts:291-330 | for each operation by name: what it does to each of the two queues, its mode, its ledger and its ways out, entry by entry; the queue it is not about is left alone |
| Queues.PollChanges | packages/pi-agent-core/src/agent.ts:332-360 | a dequeue hands over the head or the whole queue by mode, leaves the rest, and leaves the other queue alone |
| Queues.PollDelivers | packages/pi-agent-core/src/agent.ts:332-360 | and of the fates it changes that of the oldest waiting entry, or of all of them, to delivered |
| QueueHistory.StepActs | packages/pi-agent-core/src/agent.ts:291-360 | one session input performs on the queues exactly its own operation, or only what other code does while a poll of it is awaited, after everything performed before |
| QueueHistory.HistoryIs | packages/pi-agent-core/src/agent.ts:291-360 | when nobody works on the queues during a poll, the operations performed are exactly the session's own, in order |
| Queues.MessageQueues.Perform | packages/pi-agent-core/src/agent.ts:291-330 | each operation, by name, on the two real queues and their modes: what it adds, empties, filters or sets, what it returns, and that all else stays; and the ledgers as ActChanges says |
| Queues.MessageQueues.DequeueSteeringMessages | packages/pi-agent-core/src/agent.ts:332-345 | the steering dequeue returns the head or the whole queue by mode and removes exactly that; modes and follow-ups stay |
| Queues.MessageQueues.DequeueFollowUpMessages | packages/pi-agent-core/src/agent.ts:347-360 | the same for follow-ups; modes and steering stay |
| Queues.MessageQueues.HasQueuedMessages | packages/pi-agent-core/src/agent.ts:328-330 | true exactly when the ledger has a waiting message in either queue |
| ReplyStream.StreamOutcome | packages/pi-agent-core/src/agent-loop.ts:197-222 | for every provider: exactly when its reply's events are bracketed, when the context gains exactly the reply, when the transcript does, and what the reply is |
| ReplyStream.ConformingKeepsEveryLog | packages/pi-agent-core/src/agent-loop.ts:322-370 | a provider of the form start? delta* (done or error), or one that throws before start, keeps all three logs in order |
| ReplyStream.ReplyIs | packages/pi-agent-core/src/agent-loop.ts:199-222 | the reply is the provider's result, or, for an exception before done or error, an empty one with its text, aborted exactly when the signal was |
| ReplyStream.RepliesAreShown | packages/pi-agent-core/src/agent-loop.ts:322-370 | for every provider: message_start and message_update show each partial message from the first start on, in order, and then the reply where nothing was shown of it, or it tells of a failure |
| ToolPhaseTheorems.PhaseShape | packages/pi-agent-core/src/agent-loop.ts:390-516 | in both modes a completed phase starts every call once in source order, answers each exactly once, commits exactly its results, and loses no polled message |
| ToolPhaseTheorems.PhaseCloses | packages/pi-agent-core/src/agent-loop.ts:390-516 | a completed phase leaves no call pending, and with distinct ids every end follows its start |
| ToolPhaseEvents.EndsAreEchoed | packages/pi-agent-core/src/agent-loop.ts:659-707 | in every phase, also one that fails: each tool_execution_end is followed at once by the start and end of one result with its call's id and name and the same content, details and error flag |
| ToolPhaseEvents.ExecuteOneReports | packages/pi-agent-core/src/agent-loop.ts:586-610 | sequentially, a call that reaches its tool reports what the tool reports, in order; any other call nothing |
| ToolPhaseEvents.RunAllReports | packages/pi-agent-core/src/agent-loop.ts:488-506 | concurrently, the reports are emitted as they come, each under its call, all of them unless a hook throws |
| ToolPhaseEvents.AwaitsInOrder | packages/pi-agent-core/src/agent-loop.ts:488-506 | the awaiting loop ends the next call in source order exactly when its own promise has settled, whatever the others did, with one end and one result, or with its hook's exception |
| ParallelFacts.ScheduleIndependence | packages/pi-agent-core/src/agent-loop.ts:488-506 | for every order in which concurrent tools report and settle, results and all events but updates are a function of the per-call outcomes |
| ParallelFacts.PrepareAllShape | packages/pi-agent-core/src/agent-loop.ts:456-486 | the preparation loop starts the calls it reaches, answers the immediate ones, sets the others aside in order, and stops at the first poll that returns something |
| ToolPhaseTheorems.PhaseIgnoresSchedule | packages/pi-agent-core/src/agent-loop.ts:444-516 | a whole phase gives the same results, polls and committed events under any two schedules |
| ScheduleTheorems.RunsIgnoreSchedules | packages/pi-agent-core/src/agent-loop.ts:163-278 | two runs that differ only in the schedules of their turns' tools have at every turn boundary the same queues, context, newMessages, turns and outcome, and the same log but for progress updates |
| ToolPhaseFailures.SourceOrderExactlyWhen | packages/pi-agent-core/src/types.ts:20-27 | of phases that do not fail: sequential results are always in source order; parallel ones exactly when, among the calls up to the first whose poll brings a message, none that is answered at once follows one that reaches its tool |
| ToolPhaseTheorems.SourceOrderIsVisible | packages/pi-agent-core/src/types.ts:20-27 | with distinct ids, source order of the results is what an observer of the ids sees |
| ToolPhaseTheorems.SequentialPrefix | packages/pi-agent-core/src/agent-loop.ts:390-442 | a sequential phase executes a prefix of the calls and skips the rest, and skips only after a poll that returned something |
| ToolPhaseTheorems.ParallelAllOrNothing | packages/pi-agent-core/src/agent-loop.ts:472-506 | a parallel phase executes every prepared call or none of them |
| ToolPhaseTheorems.ParallelRefinesSequential | packages/pi-agent-core/src/agent-loop.ts:390-516 | without steering, parallel results are the stable partition of the sequential ones: immediate outcomes first, then prepared ones |
| ToolPhaseFailures.ContentIs | packages/pi-agent-core/src/types.ts:43-57 | every result of a completed phase, in both modes: the skip notice, word for word, as an error; or the reason its call never reached the tool; or, field by field, what the hook gave over what the tool returned, an exception of the tool counting as an error |
| ToolPhaseFailures.PhaseFailsExactlyWhen | packages/pi-agent-core/src/agent-loop.ts:390-516 | exactly which inputs make a phase fail, and which make it fail after a result was committed, in both modes and for every schedule |
| ToolPhaseFailures.PhaseErrorIs | packages/pi-agent-core/src/agent-loop.ts:390-516 | which exception a failing phase lets out, from its inputs: the first, in the order of the loops, of the hooks and polls that throw |
| ToolPhaseFailures.PhaseQuietExactlyWhen | packages/pi-agent-core/src/agent-loop.ts:390-516 | exactly which inputs make a phase complete without a message to deliver |
| ToolPhaseFailures.GentlePhasesComplete | packages/pi-agent-core/src/agent-loop.ts:390-516 | with hooks and polls that do not throw every phase completes |
| ToolPhaseFailures.PhasePairs | packages/pi-agent-core/src/agent-loop.ts:401-440 | with distinct ids the tool events of any phase, failed or not, start only what is closed and end only what is open |
| ToolPhaseFailures.UnknownToolComesFirst | packages/pi-agent-core/src/types.ts:20-27 | a concrete parallel phase whose second call's result comes before the first's |
| AgentLoopTheorems.ExactlyOnceDelivery | packages/pi-agent-core/src/agent-loop.ts:163-278 | at every turn boundary of every run, and however it ended, each message polled was injected into one turn, in poll order, or is about to be |
| AgentLoopTheorems.SteeringPriority | packages/pi-agent-core/src/agent-loop.ts:253-271 | each pass polls follow-ups at most once, last, right after an empty steering poll and a reply without calls; the next turn gets the answer of exactly one poll |
| AgentLoopTheorems.OneMessagePerTurn | packages/pi-agent-core/src/agent-loop.ts:189-196 | in one-at-a-time mode the polls inject at most one queued message into any turn of a run |
| SessionTheorems.QueueStartIsAlone | packages/pi-agent-core/src/agent.ts:432-445 | a run that continue starts from a queue takes its prompts from one poll, and the poll before its first turn is skipped or finds nothing, in every mode |
| SessionTheorems.OneQueuedMessagePerTurn | packages/pi-agent-core/src/agent.ts:332-360 | in every session, while the queues are in one-at-a-time mode no turn of any run is given more than one queued message, the first turn with prompts that continue took from a queue included |
| AgentLoopTheorems.TurnBound | packages/pi-agent-core/src/agent-loop.ts:171-274 | a run has at most one turn more than replies with tool calls plus messages delivered |
| AgentLoopTheorems.RunTerminates | packages/pi-agent-core/src/agent-loop.ts:171-274 | if tool-call replies and enqueued messages are finite, every run ends |
| LogContents.GoesOnExactlyWhen | packages/pi-agent-core/src/agent-loop.ts:171-277 | a run goes on after a pass exactly when the reply is neither an error nor aborted, nothing throws, and it had calls or the steering or else the follow-up queue brings a message |
| LogContents.LogsAreTruthful | packages/pi-agent-core/src/agent-loop.ts:222-253 | in the log of every run, at every boundary and however it ended: each tool end is followed by its result, which says the same; each turn_end carries the reply and the results of its turn, in order |
| LogContents.CallBlocksAreRun | packages/pi-agent-core/src/agent-loop.ts:232-245 | unless a tool phase threw: the calls started and ended are exactly the tool-call blocks of the replies that did not stop the run |
| LogContents.PassTells | packages/pi-agent-core/src/agent-loop.ts:28-74 | a pass that ends a run by an exception hands over newMessages and one reply with the text of that exception, which its inputs determine |
| LogContents.BeginTells | packages/pi-agent-core/src/agent-loop.ts:28-74 | the same when the first poll throws, and otherwise the run begins |
| RunFailures.BracketsExactlyWhen | packages/pi-agent-core/src/agent-loop.ts:56-110 | a finished run's log is agent_start, bracketed turns and one final agent_end exactly when every provider it asked closes what it opens and no pass it made has its poll after turn_end, or its follow-up poll, reached and throwing |
| RunFailures.ConformingRunsAreBracketed | packages/pi-agent-core/src/agent-loop.ts:56-110 | with conforming providers and polls that do not throw between turns every finished run follows that grammar |
| RunFailures.PollBreaksBrackets | packages/pi-agent-core/src/agent-loop.ts:65-74 | the whole log of a run whose poll after turn_end throws, with a message and a turn_end outside any turn |
| RunFailures.LateThrowBreaks | packages/pi-agent-core/src/agent-loop.ts:198-221 | a concrete run whose provider throws after start: its context, newMessages and whole log |
| AgentLogTheorems.AskKeepsContextExactlyWhen | packages/pi-agent-core/src/agent-loop.ts:198-223 | one reply keeps context and newMessages in step exactly when its provider leaves one message |
| AgentLogTheorems.ContextAgrees | packages/pi-agent-core/src/agent-loop.ts:189-251 | when each provider leaves one message, at every turn boundary the context is the initial context plus newMessages |
| RunFailures.TranscriptAgreesExactlyWhen | packages/pi-agent-core/src/agent-loop.ts:240-277 | when each provider commits its reply, the transcript rebuilt from events is what agent_end carries, exactly when no pass the run made has a tool phase that fails after committing a result, a condition on the pass's inputs and the queues it starts from |
| RunFailures.GentleTranscriptAgrees | packages/pi-agent-core/src/agent-loop.ts:240-277 | with hooks and tool-phase polls that do not throw, and providers that each commit their reply, the two always agree |
| RunFailures.HookLosesResult | packages/pi-agent-core/src/agent-loop.ts:616-650 | a concrete run in which a hook throws on the second of two calls: its transcript, and what agent_end carries |
| RunFailures.GentleRunsNeverThrow | packages/pi-agent-core/src/agent-loop.ts:163-278 | with hooks and polls that do not throw no run ends by an exception |
| TranscriptTheorems.TranscriptIs | packages/pi-agent-core/src/agent-loop.ts:188-262 | at every turn boundary of every run, and however it ended, the transcript is the prompts and then, turn by turn, the messages it was given, its reply if the provider let it be heard, and the committed results |
| ConversationTheorems.RunsAreCoherent | packages/pi-agent-core/src/agent-loop.ts:188-262 | newMessages is the prompts and then whole turns: injected messages, one reply, and right behind it one result per call, none after an error reply, which ends the run; only a turn whose tool phase threw is cut after its reply |
| RunFailures.GentleRunsAreCoherent | packages/pi-agent-core/src/agent-loop.ts:188-262 | with hooks and tool-phase polls that do not throw, that holds of every run without exception |
| ConversationTheorems.ToolLifecycle | packages/pi-agent-core/src/agent-loop.ts:401-440 | at every turn boundary each call made has one start and one end, none is pending, and with distinct ids starts and ends alternate, unless a tool phase threw |
| RunFailures.GentleToolLifecycle | packages/pi-agent-core/src/agent-loop.ts:401-440 | with hooks and tool-phase polls that do not throw, that holds of every run without exception |
| AgentLoopMethods.AgentRun.StreamAssistantResponse | packages/pi-agent-core/src/agent-loop.ts:284-371 | the loop over provider events, updating the context in place, appends, emits and returns what StreamReply says |
| AgentLoopMethods.AgentRun.SkipToolCall | packages/pi-agent-core/src/agent-loop.ts:687-707 | a skipped call gets an error result, an end, and a start unless it had one |
| AgentLoopMethods.AgentRun.ExecuteToolCallsSequential | packages/pi-agent-core/src/agent-loop.ts:390-442 | the sequential loop does what the function about which the theorems are proved says |
| AgentLoopMethods.AgentRun.PrepareCalls | packages/pi-agent-core/src/agent-loop.ts:456-486 | the preparation loop does what PrepareAll says |
| AgentLoopMethods.AgentRun.RunPrepared | packages/pi-agent-core/src/agent-loop.ts:488-506 | the concurrent part, step by step under a schedule, comes to RunAll |
| AgentLoopMethods.AgentRun.ExecuteToolCallsParallel | packages/pi-agent-core/src/agent-loop.ts:444-516 | the three stages of parallel execution, with both skipping loops, come to Parallel |
| AgentLoopMethods.AgentRun.RunTurn | packages/pi-agent-core/src/agent-loop.ts:181-253 | one pass up to turn_end ends in the state the function Pass gives: stopped, thrown out of, or on to the polls |
| AgentLoopMethods.AgentRun.RunLoop | packages/pi-agent-core/src/agent-loop.ts:163-278 | the two nested loops, watched for any number of passes, are after each in the state Reached gives, and stop where it does |
| AgentLoopMethods.AgentRun.EmitErrorSequence | packages/pi-agent-core/src/agent-loop.ts:65-74 | what an escaped exception pushes, and the messages the stream resolves to |
| AgentLoopMethods.AgentRun.RunWithin | packages/pi-agent-core/src/agent-loop.ts:80-151 | within any number of passes a run has ended, leaving the log, the queues and the messages of that Reached state, or is still going in one; it has ended once the number exceeds finite input |
| AgentTheorems.ReducerRebuilds | packages/pi-agent-core/src/agent.ts:509-523 | reading any log, the Agent's messages grow by exactly the messages the log commits |
| AgentTheorems.PendingAtEveryMoment | packages/pi-agent-core/src/agent.ts:524-530 | after every prefix of every run's log, also of one cut short, with ids distinct within each reply: an id is in the Agent's pending set exactly when it has one start more than ends, and none has more |
| AgentTheorems.PartialFollowsBrackets | packages/pi-agent-core/src/agent.ts:512-523 | while a log is in order the Agent shows a partial message exactly when one is open |
| AgentTheorems.LatestMessageShows | packages/pi-agent-core/src/agent.ts:509-551 | the message shown, and the one kept in case events stop, is that of the latest message_start or message_update, and none once it has ended |
| SessionTheorems.StreamingUntilEnd | packages/pi-agent-core/src/agent.ts:538-548 | reading any log, the Agent is streaming exactly until agent_end |
| AgentTheorems.LatestErrorShows | packages/pi-agent-core/src/agent.ts:532-536 | the error shown is that of the latest turn whose reply carried one, whatever else the log holds |
| AgentTheorems.NoErrorUnlessReported | packages/pi-agent-core/src/agent.ts:456-536 | a run whose log reports no error shows none, and none of an earlier run either |
| AgentTheorems.WhatIsKept | packages/pi-agent-core/src/agent.ts:549-588 | the end of a run: a reply left open is kept exactly when some block says something; if none does and the run was aborted, an empty reply and the error record that; nothing else is added |
| AgentTheorems.AgentAgreesExactlyWhen | packages/pi-agent-core/src/agent.ts:509-588 | when each provider closes what it opens and commits its reply: after a run the Agent is idle, with its transcript extended by exactly what agent_end carries, exactly when no pass of the run has a tool phase that fails after committing a result |
| AgentTheorems.AgentMessagesAre | packages/pi-agent-core/src/agent.ts:509-588 | the Agent's messages after any run: those before it, the prompts, then turn by turn what was injected, the reply and the results, and at most a message left open |
| AgentTheorems.NothingPendingBetweenTurns | packages/pi-agent-core/src/agent.ts:524-530 | between two turns the Agent's set of pending tool calls is empty |
| SessionTheorems.SessionsAreSound | packages/pi-agent-core/src/agent.ts:385-588 | every session, any interleaving of queue operations, prompts, continues and turns, keeps every run sound and accounts for every dequeued message |
| SessionTheorems.EveryMessageAccountedFor | packages/pi-agent-core/src/agent.ts:291-449 | from a new Agent: what was ever enqueued is what the steer and followUp calls performed gave, in order; each such message is waiting, drained, cleared or delivered, once; what was delivered, in order, is what runs were started with or injected |
| SessionTheorems.DeliveredIntoTranscript | packages/pi-agent-core/src/agent.ts:432-445 | what a finished run took from the queues stands in the Agent's messages once, in poll order: as its prompts and then in front of each turn's reply, whatever providers did and however it ended |
| SessionTheorems.FinishingTurnAgreesExactlyWhen | packages/pi-agent-core/src/agent.ts:509-588 | in any session, the turn that ends a run whose providers close what they open and commit their replies leaves the Agent idle and its transcript in step with agent_end exactly when the turn's tool phase does not fail after committing a result |
| SessionTheorems.GentleSessionsAgree | packages/pi-agent-core/src/agent.ts:509-588 | in a session whose hooks and tool-phase polls do not throw, every finished run whose providers close what they open and commit their replies left the Agent idle and its transcript in step |
| SessionTheorems.OneRunAtATime | packages/pi-agent-core/src/agent.ts:387-392 | while a run is in progress prompt and continue are refused and change nothing |
| SessionTheorems.PromptEntersExactlyWhen | packages/pi-agent-core/src/agent.ts:387-418 | prompt starts a run exactly when the Agent is idle and has a model, with exactly its messages, nothing from the queues, which stay, and the first poll to come; otherwise which exception it throws |
| SessionTheorems.PromptStarts | packages/pi-agent-core/src/agent.ts:387-418 | the same in any session: the run that starts, from the Agent's messages and queues as they are |
| SessionTheorems.PromptsReachTranscript | packages/pi-agent-core/src/agent.ts:387-418 | whatever happens after prompt(ms): the Agent's messages begin with those before and then ms, during the run and after it |
| SessionTheorems.ContinueStarts | packages/pi-agent-core/src/agent.ts:423-449 | continue after a user message or a tool result starts a run with no prompts, and takes nothing from the queues |
| SessionTheorems.ContinueEntersExactlyWhen | packages/pi-agent-core/src/agent.ts:423-449 | exactly when continue starts a run, with which prompts, with steering before follow-ups, the initial poll skipped only for steering, and the queues it leaves; and otherwise which exception it throws |
| SessionTheorems.ContinueLosesExactlyWhen | packages/pi-agent-core/src/agent.ts:423-458 | exactly when continue throws away queued messages: no model, the transcript ends in a reply, something is queued |
| SessionTheorems.ContinueCanLose | packages/pi-agent-core/src/agent.ts:432-458 | a concrete call after which one queued message is in no queue and no transcript |
| SessionTheorems.WithModelNothingIsRefused | packages/pi-agent-core/src/agent.ts:423-449 | in a session that always has a model no call ever throws with a queued message in hand |
| AgentMethods.AgentObject.ReadEvents | packages/pi-agent-core/src/agent.ts:509-551 | from any state of the fields and the local partial message, the loop over any stretch of events leaves them as reading it event by event gives |
| AgentTheorems.ReduceSplit | packages/pi-agent-core/src/agent.ts:509-551 | reading events in stretches, as they arrive, comes to reading the whole log |
| AgentMethods.AgentObject.WindUp | packages/pi-agent-core/src/agent.ts:549-588 | a message left open is kept if it says something, otherwise an abort is recorded; the Agent ends idle with nothing pending |
| AgentMethods.AgentObject.RunLoop | packages/pi-agent-core/src/agent.ts:456-588 | within any number of passes _runLoop has ended, leaving queues and state as the finished run and its log say, or leaves them as the log so far gives; it has ended once the number exceeds finite input |
| AgentMethods.AgentObject.Prompt | packages/pi-agent-core/src/agent.ts:387-418 | prompt is refused without effect while streaming or without a model; otherwise it leaves the state the log of its run gives, the run that PromptEntersExactlyWhen says |
| AgentMethods.AgentObject.Continue | packages/pi-agent-core/src/agent.ts:423-449 | continue throws or runs as its entrance says, with exactly the queue changes that entails |
| Lines.SplitRebuilds | packages/pi-agent-core/src/proxy.ts:158-160 | complete lines and leftover rebuild the text, and no line holds a newline |
| Lines.SplitIsUnique | vscode-extension/src/gsd-client.ts:448-456 | there is no other way to cut a text into newline-free lines and a newline-free rest |
| Lines.ChunkingDoesNotMatter | vscode-extension/src/gsd-client.ts:129-132 | the lines delivered depend on the text, not on its chunks, and with the leftover buffer they rebuild it |
| Lines.SplitThenPop | src/claude-code-stream.ts:92-97 | split and pop give the complete lines and the leftover |
| Lines.ReadersAgree | vscode-extension/src/gsd-client.ts:456-462 | from the lines the scan loop handles, the adapter's filter and the proxy's filter take what they take from the lines themselves, less one carriage return |
| Lines.TrimIs | packages/pi-agent-core/src/proxy.ts:165 | trimming takes off white space at both ends, all of it and nothing else |
| Lines.PayloadIs | packages/pi-agent-core/src/proxy.ts:163-167 | a line that starts with the data prefix gives the trimmed rest, unless that is empty; any other line gives nothing |
| Adapter.LinesAreNonBlank | src/claude-code-stream.ts:99-101 | the adapter's loop acts on exactly the lines that are not blank, in order |
| Adapter.AdapterReadsHandledLines | src/claude-code-stream.ts:92-101 | the scan loop's stripping and skipping would make no difference to the adapter, a carriage return being white space to its parser |
| Proxy.LinesArePayloads | packages/pi-agent-core/src/proxy.ts:162-174 | the proxy's loop acts on exactly the trimmed, non-empty rests of the lines that start with the data prefix, in order |
| Proxy.ProxyReadsHandledLines | packages/pi-agent-core/src/proxy.ts:158-174 | the scan loop's stripping and skipping would make no difference to the proxy |
| Adapter.AdapterFollowsGrammar | src/claude-code-stream.ts:87-191 | for every interleaving of output, abort, error and close: (start delta*)? and at most one terminal event, last, all text, which has come once the process closed |
| Adapter.AbortedExactlyWhen | src/claude-code-stream.ts:146-165 | for every interleaving: the reply is marked aborted exactly when the signal was aborted before the request, or some abort came before any output was delivered |
| Adapter.AbortDecidesAtOnce | src/claude-code-stream.ts:146-165 | of a request in progress that is aborted, whatever comes later, the reply is marked aborted exactly when nothing had been delivered |
| Adapter.Listens | src/claude-code-stream.ts:146-164 | an abort is listened for until there is one, or the process has closed |
| Adapter.AbortAfterOutputShowsAsError | src/claude-code-stream.ts:146-191 | a concrete request with output, then an abort, then close: it ends as an error that tells of an exit code |
| Adapter.AdapterConforms | src/claude-code-stream.ts:52-60 | a finished request is a conforming provider of the run loop whose reply has no tool call |
| Adapter.FinalReplyIs | src/claude-code-stream.ts:87-191 | for every interleaving of output, aborts, process errors and close: the final reply is that of the first moment that decides (a result, an abort before any output, a process error, close), with the latest output and all of stderr where they count, and there is none before; and every event delivered up to it, with its text, one by one |
| Adapter.ChunksCompose | src/claude-code-stream.ts:92-101 | where output is cut into chunks makes no difference |
| Adapter.ClaudeCodeStream.OnData | src/claude-code-stream.ts:92-141 | the stdout handler, with its split, pop and loop, does what Handle says |
| Adapter.ClaudeCodeStream.OnAbort | src/claude-code-stream.ts:146-165 | an abort delivers an aborted reply exactly when it is still listened for, nothing was started and the stream is open; it never delivers anything later |
| Adapter.ClaudeCodeStream.OnProcessError | src/claude-code-stream.ts:167-173 | a process error delivers start, if it did not go out, and an error, unless the stream is done |
| Adapter.ClaudeCodeStream.OnProcessClose | src/claude-code-stream.ts:175-191 | closing ends every stream that has no result yet, as an error exactly when the exit code is not 0 |
| Adapter.ClaudeCodeStream.PushEvent | packages/pi-ai/src/utils/event-stream.ts:19-34 | the stream keeps everything up to and including the first terminal event and drops the rest |
| AdapterRuns.AdapterRunsAreSimple | packages/pi-agent-core/src/agent-loop.ts:181-274 | an Agent run over the adapter starts no tool, keeps every log in order, and has one turn plus one for each fruitful poll after a turn |
| RpcClient.RequestsSettleOnce | vscode-extension/src/gsd-client.ts:467-519 | over every interleaving, ids are fresh, sent ids are pending or settled once, and live timers are exactly those of pending requests |
| RpcClient.AtMostOnce | vscode-extension/src/gsd-client.ts:476-519 | a sent id is either pending or settled, never both, and settled at most once |
| RpcClient.TimerFindsItsRequest | vscode-extension/src/gsd-client.ts:497-500 | a timer that fires always finds its own request pending |
| RpcClient.ResolvesOrFires | vscode-extension/src/gsd-client.ts:448-486 | over any chunk of output: the lines that parse are as many as the requests resolved and the events fired; a line resolves exactly when it is the first response there to a pending request, and all others fire, in order |
| RpcClient.ExitRejectsAll | vscode-extension/src/gsd-client.ts:141-145 | an exit rejects with its reason exactly the requests pending, and leaves none pending, no timer live, and every other outcome as it was |
| RpcClient.StopRejectsAll | vscode-extension/src/gsd-client.ts:166-192 | the end of stop() does the same with its own reason, and restarts nothing |
| RpcClient.TimeoutSettlesOne | vscode-extension/src/gsd-client.ts:497-500 | a timer that fires takes exactly its own request from pending, as timed out; all others stay |
| RpcClient.SendIssuesOne | vscode-extension/src/gsd-client.ts:488-505 | sending makes exactly one new request pending, with its timer; without a process it changes nothing |
| RpcClient.StartResets | vscode-extension/src/gsd-client.ts:96-125 | start() begins with an empty buffer and no restarts counted, and touches no request; while a process runs it changes nothing |
| RpcClient.ChunksCompose | vscode-extension/src/gsd-client.ts:129-132 | where output is cut into chunks makes no difference to the client |
| RpcClient.LimiterHolds | vscode-extension/src/gsd-client.ts:146-150 | with a monotone clock the timestamp list is exactly the crashes of the 60 s before the latest one, in order |
| RpcClient.RunsRestartAtMostThreeTimes | vscode-extension/src/gsd-client.ts:141-162 | no window of up to 60 s holds more than three scheduled restarts |
| RpcClient.RestartsExactlyWhen | vscode-extension/src/gsd-client.ts:146-161 | an exit schedules a restart exactly when it was neither clean nor by SIGTERM, at most two crashes came in the 60 s before, and fewer than three restarts were scheduled since the last start |
| ClientMethods.GsdClient.Send | vscode-extension/src/gsd-client.ts:488-505 | a request goes out under the next id with its timer, or is refused without one |
| ClientMethods.GsdClient.RejectAllPending | vscode-extension/src/gsd-client.ts:513-519 | every pending request is rejected and its timer cleared |
| ClientMethods.GsdClient.OnTimeout | vscode-extension/src/gsd-client.ts:497-500 | the callback removes and rejects the request its timer was set for |
| ClientMethods.GsdClient.OnData | vscode-extension/src/gsd-client.ts:448-465 | the scan loop handles exactly the complete lines, less carriage returns and empty ones, and keeps the rest |
| ClientMethods.GsdClient.KeepRecent | vscode-extension/src/gsd-client.ts:149-150 | the filter keeps the timestamps of the last 60 s |
| ClientMethods.GsdClient.OnExit | vscode-extension/src/gsd-client.ts:141-163 | on exit every pending request is rejected, as ExitRejectsAll says, and the restart decision is the limiter's |
| Answers.SessionsKeepAccounts | src/headless-answers.ts:123-194 | the accounting invariant holds over every order of metadata, requests and timers, repeated titles included |
| Answers.EveryQuestionAccountedFor | src/headless-answers.ts:123-194 | answered plus defaulted plus live timers is the requests seen; every deferral has a live timer; a request gets at most one response, and under cancel exactly one once its timer is gone |
| Answers.FromFileExactlyWhen | src/headless-answers.ts:239-284 | the file gives a response exactly when it has a valid answer, all of whose choices, or the first if only one counts, are among the options; and then that |
| Answers.FireDefaultsOne | src/headless-answers.ts:177-190 | a timer writes exactly one response, to its own request: cancelled, or the first option, by strategy; other requests, responses and metadata stay |
| Answers.UnknownWaits | src/headless-answers.ts:162-194 | without metadata a request waits with a timer, under its title, and nothing is written |
| Answers.LearnIs | src/headless-answers.ts:123-147 | of several announcements of a title the last counts; other titles stay |
| Answers.SessionsMatch | src/headless-answers.ts:123-284 | over every session: what was written for a request is the response its fate says, and the ids used are those of the answered requests |
| Answers.MetadataFirstAnswersAtOnce | src/headless.ts:384-408 | with metadata first a request is responded to at once: with the file's valid answer, or else cancelled or the first option, by strategy |
| Answers.AnnouncedFates | src/headless-answers.ts:123-160 | what announcing questions makes of every waiting request, through all deferrals: the one deferred under an announced title is answered by the file, or else cancelled or dropped by strategy; any other goes on waiting |
| Answers.DroppedExactlyWhen | src/headless-answers.ts:123-194 | for every input in every state: a request becomes one without a response exactly when questions are announced while it is the deferral of its title, they announce that title, the strategy is first_option and the file has no valid answer; requests and timers drop nothing |
| Answers.AnnouncedLateIsDropped | src/headless-answers.ts:148-156 | a session in which a question asked before it is announced gets no response, though it is counted as defaulted |
| Answers.SettledForGood | src/headless-answers.ts:123-194 | nothing that comes later touches a settled request |
| AnswersMethods.AnswerInjector.ProcessEventWithMeta | src/headless-answers.ts:239-284 | a valid answer is sent and counted, anything else is counted as defaulted and cancelled or left to the caller, as the result says |
| AnswersMethods.AnswerInjector.OnSelect | src/headless-answers.ts:162-194 | a select request is answered, defaulted, or deferred under its title with a live timer |
| AnswersMethods.AnswerInjector.OnTimer | src/headless-answers.ts:177-190 | the callback responds to its own request by the default, and forgets the title even if a later request has taken it over |
| AnswersMethods.AnswerInjector.ObserveEvent | src/headless-answers.ts:123-156 | after metadata arrives no deferral has known metadata, and every account still balances |
| Proxy.EventsRebuildContent | packages/pi-agent-core/src/proxy.ts:205-334 | after every accepted sequence each index holds exactly what its events amount to |
| Proxy.ContentIsWhatWasSaid | packages/pi-agent-core/src/proxy.ts:205-310 | each index holds the kind of its latest start and the joined deltas since; tool arguments are their parse exactly when no delta followed an end |
| Proxy.ArgumentsExactlyWhen | packages/pi-agent-core/src/proxy.ts:277-315 | the arguments are parsed from the joined deltas exactly when no delta reopened an ended call, or what came before was the word undefined |
| Proxy.DeltaAfterEndSpoils | packages/pi-agent-core/src/proxy.ts:277-315 | a concrete accepted sequence of events after which the arguments are the parse of a text that was never sent |
| Proxy.AcceptedExactlyWhen | packages/pi-agent-core/src/proxy.ts:205-334 | a sequence is accepted exactly when every delta and text or thinking end follows a start of its kind at its index |
| ProxyStreamTheorems.PushedAsTold | packages/pi-agent-core/src/proxy.ts:205-334 | for every accepted sequence, what is pushed is determined by what was said at each index: type, index and delta of each event, the joined text at an end, the call at the end of a call |
| ProxyStreamTheorems.PushedMatchesReceived | packages/pi-agent-core/src/proxy.ts:205-334 | pushed events match the received ones in type, index and delta, one by one, but for ends of things that are not tool calls |
| ProxyStreamTheorems.ReadingBackUndoesRebuilding | packages/pi-agent-core/src/proxy.ts:205-334 | from the pushed events and the partial message at each, every such received event is read back whole, with id, name, signature, error message and usage |
| ProxyStreamTheorems.StreamsEqualExactlyWhen | packages/pi-agent-core/src/proxy.ts:205-334 | two accepted sequences push the same events, partial messages stripped, exactly when they agree in type, index, delta and reason, and in id and name wherever a tool call ends |
| ProxyStreamTheorems.UnendedCallsLookAlike | packages/pi-agent-core/src/proxy.ts:282-287 | two concrete sequences with different ids push the same stripped events |
| Proxy.ReadingIgnoresChunks | packages/pi-agent-core/src/proxy.ts:150-178 | the result depends on the text read, not on its chunks |
| ProxyStreamTheorems.ReadingIs | packages/pi-agent-core/src/proxy.ts:158-178 | reading payloads that hold accepted events gives the message they build and the events they push, up to the first that ends the stream |
| ProxyStreamTheorems.ReadingStops | packages/pi-agent-core/src/proxy.ts:158-178 | the first payload that does not parse, or is not accepted, ends the reading with its exception; what comes later makes no difference |
| ProxyStreamTheorems.ResponseIs | packages/pi-agent-core/src/proxy.ts:148-195 | a whole response, however cut into chunks: a clean end, or one error event, aborted exactly when the signal was, with the failure or the abort as its message, dropped if the stream was done |
| ProxyStreamTheorems.StreamEnds | packages/pi-agent-core/src/proxy.ts:180-195 | of an exception from a line, a failure to fetch or read, and an abort, the first there is gives the message; without any the stream is left as it is |
| ProxyMethods.ProxyStream.ProcessProxyEvent | packages/pi-agent-core/src/proxy.ts:205-334 | the in-place update of the one partial message, the event pushed for it and the exceptions are those of Process |
| ProxyMethods.ProxyStream.StreamProxy | packages/pi-agent-core/src/proxy.ts:148-195 | the read loop delivers what reading the chunks gives, and an exception or abort becomes one error event, dropped if the stream was done |
| Mirror.SyncMirrors | src/resource-loader.ts:181-222 | a sync succeeds exactly when no source file meets a directory, and then every source-owned name is an exact copy and every other entry is untouched but for stale siblings |
| Mirror.StaleExactlyWhen | src/resource-loader.ts:202-222 | a file is a stale sibling exactly when the source lacks it but has one that differs in the extension alone, .ts against .js, either way |
| Mirror.MirrorIsUnique | src/resource-loader.ts:181-222 | those conditions determine the result |
| Mirror.SyncIsIdempotent | src/resource-loader.ts:181-200 | a second sync changes nothing |
| Mirror.SyncOfNothing | src/resource-loader.ts:181-200 | a missing source changes nothing; a missing destination becomes a copy |
| Mirror.UpgradeLeavesBehind | src/resource-loader.ts:202-222 | exactly which dropped entries an upgrade leaves behind |
| Mirror.DroppedFileStays | src/resource-loader.ts:181-222 | a concrete upgrade that leaves a dropped file |
| Mirror.CopyFreshDir | src/resource-loader.ts:227-238 | copying into nothing is an exact copy at every depth |
| Mirror.CopyDirRecursive | src/resource-loader.ts:227-238 | the entry-by-entry copy gives what CopyDir says |
| Mirror.Destination.PruneStaleSiblingFiles | src/resource-loader.ts:202-222 | the pruning loop removes exactly the stale siblings |
| Mirror.Destination.SyncResourceDir | src/resource-loader.ts:181-200 | the sync of a destination succeeds exactly without a clash and leaves the mirror; failing, it leaves entries that are not the source's as the mirror has them, and under the source's names exact copies or what was there |
| Fingerprint.SameCollected | src/resource-loader.ts:104-116 | two listings of one tree collect the same entries |
| Fingerprint.CollectedExactly | src/resource-loader.ts:104-116 | the entries collected are exactly path:size, the path joined by slashes, of each file at any depth; with OneForEach, one for each |
| Numerals.DecimalReads | src/resource-loader.ts:112-113 | a size is written as its decimal numeral |
| Fingerprint.FingerprintIgnoresListingOrder | src/resource-loader.ts:97-116 | what is hashed does not depend on the order in which directories are listed |
| Fingerprint.Collector.CollectFileEntries | src/resource-loader.ts:104-116 | the recursive procedure pushes exactly the path and size of every file |

## Assumptions

- A provider's `result()` resolves to one message, `final`, also when its events end
  without done or error.
- Hooks (`transformContext`, `convertToLlm`, `beforeToolCall`, `afterToolCall`) do not
  change the context array, and tools report no progress after they settle.
- Listeners do not throw and do not prompt again from `agent_end`; nobody calls
  `reset()`, `replaceMessages()`, `appendMessage()` or `clearMessages()` while a run
  is in progress.
- `getSteeringMessages` and `getFollowUpMessages` are configured, as the Agent does.
  The first poll of the Agent's runs comes at once: `prompt()` and `continue()` reach it
  without awaiting anything (`packages/pi-agent-core/src/agent.ts:385-508`,
  `packages/pi-agent-core/src/agent-loop.ts:80-173`), so nothing happens to the queues
  before it. For runs started otherwise it is arbitrary, like every other poll.
- Where the restart limit says so, the clock does not go back.
- A consumer of the proxy stream looks at the partial message of an event when the event
  is pushed: it is one object, which later events go on changing.
- JSON parsers are arbitrary functions from a line to what it holds, and no line
  holds a bare `null`, on which the handlers throw. The adapter's handler also throws
  when `message.content` is not an array, or holds a `null` block
  (`src/claude-code-stream.ts:105-107`); no line does.

## Left out

- Timestamps, usage counters (one number stands for them in the proxy), image blocks, model and session settings: they carry no control flow.
- `transformContext`, `convertToLlm`, `getApiKey` and the provider call are one provider input; what they compute is not modelled.
- Sessions are observed between turns. The run does not read the Agent's fields, so how far the Agent has read when the run goes on is left out; `ReadEvents` and `ReduceSplit` cover every stretch.
- A provider whose `result()` never resolves, or a tool that never settles, would hang the run.
- After a hook has thrown in a parallel phase, progress reports of tools still running are dropped; in the source some can still reach the stream before the error messages.
- AgentLoopMethods.AgentRun.RunLoop: returns after `limit` passes, where the source's loop goes on; the limit is arbitrary, and RunTerminates says which runs end.
- Process spawning, fetch, signals, disk, permissions, symbolic links and the `node_modules` link.
- UTF-8 decoding: framing is over decoded characters. String order is by Unicode scalar value, not by UTF-16 unit.
- ClientMethods.GsdClient.RejectAllPending: the order in which pending requests are rejected is not modelled.
- ClientMethods.GsdClient.OnExit: processes are not told apart, so an exit may be that of an earlier process, as in the code; the delay of a scheduled restart is left out.
- Mirror.Destination.SyncResourceDir: copies as `copyDirRecursive` does; `cpSync`, which the source tries first, is not part of this model. Directory entries are visited in no particular order.
- Content indexes of proxy events are natural numbers.
- Supervised headless mode, secrets and unused-answer warnings, and the validation of the answer file.
- The command-specific methods of the RPC client, which send and check one response.
