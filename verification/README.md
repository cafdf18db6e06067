# Verification model of the completions engine and its controllers

A Dafny model of the parts of Ark in which several steps, components or retries
have to fit together, with proofs of what they promise. `dafny verify dfyconfig.toml`
checks the whole project.

What is modelled, module by module:

- **Human approval of tool calls.** `AgentLoop` is the agent's loop over model
  replies and tool calls, which pauses before a batch that holds a gated call, or inside
  a tool that runs an agent which pauses (`AgentTools`), and can be resumed. `TaskController` is the controller of the task that waits for the
  decision. `Approvals` is one request at the handler: a first run or a resumption.
  `ApprovalProtocol` lets requests, the controller, users and administrators take
  turns in any order. `Messages` says what a well-formed transcript is. `Handler` and
  `TaskReconciler` are the same steps as the program takes them, on objects it
  updates in place.
- **Task status.** `TaskStatus` merges the replies of a remote server into a status
  (A2A Protocol Specification 0.3.0, section 6.3); `PollRefresh` says what a successful
  poll stores, `PollBackoff` is the delay between polls.
- **Teams.** `TeamSequential` (plain and looping), `TeamSelector` (a selector under a
  transition graph), `SelectorReplies` (reading what a selector answers) and
  `EngineSelector` (what that makes the team do).
- **Streams.** `ToolCallStream` (tool calls in fragments), `ArtifactStream` (a streamed
  A2A reply), `ArtifactReply` and `ArtifactSnapshots` (that reply against the blocking
  one) and `SseDecoder` (event streams, WHATWG HTML section 9.2.6).
- **Smaller algorithms.** `TeamReach`, `AnthropicTurns`, `MemoryPages`, `ToolSweep`,
  `TokenRenewal` and `TokenRuns` (RFC 6749, sections 4.4 and 5.1), with `Text` and `Int64` below them.

The model, the tools, the selector, the remote server, the clock, random draws and
the success of every write are arbitrary: they come in as scripts or parameters,
and every lemma holds for all of them. Two things are assumed of tools: a result carries
the id of its call, and a pause that a tool hands on, because it runs another agent, is
for at least one call. `AgentTools` proves both of agents that run as tools. Loops and updates in place are methods, each proved
equal to a function; the lemmas are about the functions. Durations and times are
nanoseconds as unbounded integers; the two places where int64 arithmetic can overflow
(the poll delay and a token's lifetime) wrap explicitly.

Where the program differs from what one would expect, the model follows the program:

- A task's Completed condition is not true in every terminal phase: an invalid decision
  fails the task with a false condition, and a task first seen terminal is marked as not
  started (`TaskController.EveryReachableTaskConsistent`, `TaskController.TerminalIsAbsorbing`).
- The first successful poll after a failure resets the failure count with a write whose
  answer puts the stored status back in memory. What the poll fetched is then lost unless
  the stored field was empty (`PollRefresh.CompletionLost`), a completion time can end up
  beside a running phase (`PollRefresh.CompletionMixed`), and the next successful poll
  makes up for it (`PollRefresh.NextPollStoresTheNews`).
- A passed approval limit beats a decision that has already been given (`TaskController.WaitingWake`).
- A signal from a call that is not the last of its batch leaves calls unanswered in
  the stored transcript (`Approvals.ProcessKeepsTranscript`).
- A resumption that pauses again because a tool runs an agent that pauses drops that
  tool's answer instead of the pending message, and breaks the stored transcript for
  good (`Approvals.PauseInsideIsSaved`, `Approvals.BrokenStaysBroken`).
- A first run that pauses after its first round drops the rounds before the pause, and
  one that pauses inside a tool also the answers of that round
  (`Approvals.FirstPauseKeepsAllIffFirstRound`).
- A resumption with an empty memory shows the model the original input and never stores
  it, and a first run whose history cannot be read goes on without it
  (`Approvals.ResumptionStoresWhatTheModelSaw`, `Approvals.FirstRunStoresWhatTheModelSaw`).
- A resumption does not repeat the system prompt, and the calls of a batch stopped at
  the gate that need no approval are never run (`AgentLoop.ReconstructMessages`, `AgentLoop.LoopShape`).
- A consumer that adds the closing tool-call chunk to the fragments doubles all arguments
  (`ToolCallStream.FinalChunk`).
- A graph without a usable edge constrains nothing (`TeamSelector.UnusableGraphIgnored`).
- A streamed reply keeps artifacts that a later whole task no longer holds (`ArtifactSnapshots.ArtifactTakenBack`).
- A streamed artifact that is replaced without its name keeps the old one (`ArtifactReply.NameLeftOut`).
- A first reply can store a message twice (`TaskStatus.FirstReplyMayDuplicate`).
- Tools whose names differ only in `_` and `-` overwrite each other at every sweep
  (`ToolSweep.UnderscoreClash`).

## Model

| member | source | states |
|---|---|---|
| `Messages.WellFormedIsPointwise` | ark/executors/completions/agent.go:268-280 | Reading a transcript block by block is the same as the message-by-message rule: every tool call is answered exactly once, in order, right after its message, and no tool message stands anywhere else. |
| `Messages.WellFormedAppend` | ark/executors/completions/handler.go:1091-1126 | Behind a well-formed transcript, what is appended alone decides whether the whole is well formed (iff). |
| `Messages.SuffixCannotRepair` | ark/executors/completions/handler.go:1091-1126 | What does not begin with a tool message can never complete a transcript that is not well formed. |
| `AgentLoop.CallsAreAnswered` | ark/executors/completions/agent.go:268-281 | The calls of a batch that ran are a prefix of the batch, answered in order with their own ids; the whole batch when nothing stopped it; a batch that pauses has answered at least one call. |
| `AgentLoop.CallsStop` | ark/executors/completions/agent.go:211-281 | How far a batch gets, what every answer says, and why it stops: the message for call i is the tool's error text if it has one and its content otherwise; all calls answered but the last ran without a fault; the stop is the last one's fault, the cancelled context, or the end of the batch. |
| `AgentLoop.GatedSnoc` | ark/executors/completions/agent.go:235-242 | The calls that need approval are all those whose name is gated, in the order and number of the batch. |
| `AgentLoop.AskPauses` | ark/executors/completions/agent.go:273-279 | A running batch pauses iff the first of its calls with a fault runs an agent that pauses. |
| `AgentLoop.SignalLeavesUnanswered` | ark/executors/completions/agent.go:268-280 | After a signal, calls of the batch stay unanswered exactly when the signal came from a call other than the last. |
| `AgentLoop.FirstSignalStops` | ark/executors/completions/agent.go:268-280 | A first signal before the last call always ends the batch with that signal. |
| `AgentLoop.LoopShape` | ark/executors/completions/agent.go:230-330 | What a run of any length leaves behind: an answer leaves a well-formed transcript; a pause at the gate leaves exactly its last message unanswered, and is the agent's own, for the batch's gated calls under the first one's configuration; without its last message a paused run is well formed iff the pause was not inside a tool; a signal leaves a well-formed transcript iff it did not cut its batch short. |
| `AgentLoop.CutShortSignals` | ark/executors/completions/agent.go:285-330 | A run whose last batch is cut short by a signal ends with that signal, so the exception in LoopShape is never vacuous. |
| `AgentLoop.RequestsWellFormed` | ark/executors/completions/agent.go:171-185 | From a well-formed context, every conversation the loop ever hands to the model is well formed. |
| `AgentLoop.LastRequestIsComplete` | ark/executors/completions/agent.go:300-326 | A run that ends with an answer or a pause showed the model, in its last request, the whole conversation up to its last round; that round is a single message iff the pause was not inside a tool. |
| `AgentLoop.RunEndsFor` | ark/executors/completions/agent.go:300-329 | A run ends for nothing but its last round or a cancelled context: a failed model call, a reply without calls, a gated batch, or what stopped the batch's calls. |
| `AgentLoop.RequestsRoundByRound` | ark/executors/completions/agent.go:300-329 | Request k shows the model the context and the messages of the k rounds before it, each the model's message under the agent's name and the answers to its calls; what the run appends are the messages of all its rounds, in order. |
| `AgentLoop.BeforeThePause` | ark/executors/completions/agent.go:300-326 | A paused run had completed rounds before iff its first round went on, and had run calls iff its first batch was not stopped at the gate. |
| `AgentLoop.OnlyUngatedRun` | ark/executors/completions/agent.go:230-282 | Inside the loop no gated call is executed, and the executed calls are exactly those answered in the transcript, in order. |
| `AgentLoop.CollectGated` | ark/executors/completions/agent.go:235-242 | The loop over a batch collects exactly the calls whose name is gated, in order. |
| `AgentLoop.Conversation.ExecuteToolCalls` | ark/executors/completions/agent.go:230-282 | In place: both message lists grow by the same answers; a gated batch pauses with all of its gated calls and the configuration of the first, and changes neither list; a pause handed on by a tool stops the batch behind that tool's answer. |
| `AgentLoop.Conversation.TakeTurn` | ark/executors/completions/agent.go:306-325 | In place: the model's message is appended to both lists, then its calls are run. |
| `AgentLoop.Conversation.RunAgenticLoop` | ark/executors/completions/agent.go:300-329 | The loop, in place, produces exactly the run the lemmas above speak about. |
| `AgentLoop.ExecuteLocally` | ark/executors/completions/agent.go:285-330 | A first run opens with the system prompt; a signal counts as an ordinary end; a pause, at the gate or inside a tool, hands over no message. |
| `AgentLoop.ReconstructMessages` | ark/executors/completions/agent.go:533-584 | A resumption continues the stored transcript (the original input when memory is empty), without the system prompt, with the pending calls and their results behind it. |
| `AgentLoop.ResumeFromApproval` | ark/executors/completions/agent.go:334-351 | A resumption ends with an answer, with a further pause, at the gate or inside a tool, that hands over everything but its last message, or as a failure; a signal is a failure here. |
| `AgentLoop.BlockOfResults` | ark/executors/completions/agent.go:557-583 | One result per pending call, in order, makes the rebuilt messages a well-formed block: the unnamed message with the calls, and behind it each result's error text if it has one and its content otherwise. |
| `AgentLoop.ResumeShape` | ark/executors/completions/agent.go:587-635 | An answered resumption hands over well-formed messages; one that pauses again does so iff the pause was not inside a tool. |
| `AgentLoop.ResumeRequests` | ark/executors/completions/agent.go:587-619 | A resumption shows the model only well-formed conversations. |
| `AgentTools.AgentToolsEcho` | ark/executors/completions/agent_tools.go:263-334 | What is assumed of tools holds of agents that run as tools, to any depth: the result carries the call's id, and a pause handed on is for some call, of the agent's own gate unless a tool of that agent handed it on. |
| `AgentTools.AgentToolAnswers` | ark/executors/completions/agent_tools.go:304-334 | An agent that runs as a tool sees its prompt and the input only; its result is the last thing it said, or an error when it said nothing or stopped otherwise, with its pause handed on. |
| `AgentTools.LastSaidIs` | ark/executors/completions/message_helpers.go:59-68 | Of the messages of a run the last assistant message with content speaks. |
| `TaskStatus.HistoryOnlyGrows` | ark/internal/a2a/a2a_protocol.go:238-263 | Over any sequence of replies history and artifacts only grow at their ends, and a known start time stays. |
| `TaskStatus.UpdateTakesOver` | ark/internal/a2a/a2a_protocol.go:185-280 | One reply on any status: a status without history and artifacts receives exactly the reply's, the status message behind the history; any other keeps what it has in front; state, phase, context, metadata and last message are the reply's; each time is set at its moment only. |
| `TaskStatus.NothingReportedIsLost` | ark/internal/a2a/a2a_protocol.go:104-263 | Whatever a status held, after a reply it holds the id of every message the reply reports with parts, in history or as status message, and of every artifact with parts. |
| `TaskStatus.PartsCount` | ark/internal/a2a/a2a_protocol.go:132-152 | Of a reported history every message with parts is read, in order, and no other. |
| `TaskStatus.ArtifactPartsCount` | ark/internal/a2a/a2a_protocol.go:104-130 | Of the reported artifacts every one with parts is read, in order, and no other. |
| `TaskStatus.StatesEndTasks` | ark/internal/a2a/a2a_protocol.go:40-65 | The phase of each reported state; four states end a task. |
| `TaskStatus.TakesFirstOfEachId` | ark/internal/a2a/a2a_protocol.go:230-235 | A message of a reply is taken iff its id is non-empty and neither known nor met earlier in the reply; the order is the reply's. |
| `TaskStatus.TakesEveryUnknownArtifact` | ark/internal/a2a/a2a_protocol.go:211-215 | All artifacts with unknown ids are taken, even two of the same id in one reply. |
| `TaskStatus.NewMessagesAreNew` | ark/internal/a2a/a2a_protocol.go:218-236 | The messages a merge adds have non-empty ids, all different and none known before. |
| `TaskStatus.NewMessagesComplete` | ark/internal/a2a/a2a_protocol.go:218-236 | No non-empty id of a reply is lost by the merge. |
| `TaskStatus.MergeKeepsUnique` | ark/internal/a2a/a2a_protocol.go:218-236 | After merging, the non-empty ids are unique iff they were before, and they are the old ones and the reply's together. |
| `TaskStatus.UniqueAfterUpdate` | ark/internal/a2a/a2a_protocol.go:238-263 | Ids are unique after a reply iff they were before, or, for a still empty status, iff the reply's own are. |
| `TaskStatus.FirstReplyMayDuplicate` | ark/internal/a2a/a2a_protocol.go:190-193 | A first reply that repeats its last history message as status message does store that message twice. |
| `TaskStatus.UpdateIdempotent` | ark/internal/a2a/a2a_protocol.go:238-280 | The same reply a second time changes nothing in the whole status. |
| `TaskStatus.EqualSnapshotsLoseNothing` | ark/internal/controller/a2atask_controller.go:530-546 | When the five compared values agree before and after a reply, history, artifacts, phase, error, times and condition agree too; only echoes of the last reply may differ. |
| `TaskStatus.UpdateAfterRefresh` | ark/internal/a2a/a2a_protocol.go:238-280 | A reply merged once more after the stored status was decoded over the merged one gives the first merge again, in every field. |
| `TaskStatus.RefreshedExtremes` | ark/internal/controller/a2atask_controller.go:199-203 | Decoding a stored status over the one in memory: a blank one changes nothing, and of one that lacks nothing everything is taken. |
| `TaskController.DecisionsConsistent` | ark/internal/controller/a2atask_controller.go:338-452 | Every approval time-out and every decision, readable or not, ends the task in a consistent terminal status. |
| `TaskController.FetchedConsistent` | ark/internal/controller/a2atask_controller.go:238-323 | A successful fetch of any reply keeps a running task's condition and times consistent. |
| `TaskController.PollConsistent` | ark/internal/controller/a2atask_controller.go:187-235 | A poll, with the refresh that resetting a failure count brings, stores a consistent condition, and never touches the status of a task without a server. |
| `TaskController.PollTimeConsistent` | ark/internal/controller/a2atask_controller.go:187-216 | A poll stores a completion time beside a running phase iff it mixes: it resets a failure count, the reply ends the task with a readable time, and a field that was empty lets the change be noticed. |
| `TaskController.ReconcileConsistent` | ark/internal/controller/a2atask_controller.go:56-110 | One reconcile with any clock, reply, input and write failures keeps the stored condition consistent, and the completion time iff the wake does not mix. |
| `TaskController.EveryReachableTaskConsistent` | ark/internal/controller/a2atask_controller.go:56-110 | From creation on, in every stored status: Completed=True iff the phase is terminal and the reason is neither an invalid decision nor not-started; denial reasons only with failed, consent reasons only with completed. Completion times come only with terminal phases throughout a run iff no wake of it mixes. |
| `TaskController.TerminalIsAbsorbing` | ark/internal/controller/a2atask_controller.go:73-80 | A terminal status never changes again, except that a task first seen terminal gets its condition once, as not started. |
| `TaskController.ApprovalTaskEndsByDecision` | ark/internal/controller/a2atask_controller.go:82-104 | A task without a server reaches a terminal phase only while waiting for input and only through its time limit or a decision. |
| `TaskController.FailsAtItsTimeLimit` | ark/internal/controller/a2atask_controller.go:163-184 | A task with a server and a condition, alive, running and not settled by an approval: it ends as failed, with Completed=True for the timeout, an error and the completion time of that wake, iff creation plus its timeout (12 hours without one) has passed; before that the wake polls it. |
| `TaskController.DeletedAtItsEnd` | ark/internal/controller/a2atask_controller.go:145-161 | A task is gone after a wake iff creation plus its time to live (30 days without one) has passed and the deletion succeeds; a failed deletion leaves it as it was. |
| `TaskController.Settlement` | ark/internal/controller/a2atask_controller.go:338-452 | How a waiting approval is settled: a passed limit by its policy, even against a decision already given; else the decision; each with phase, condition, reason, error and completion time; without either nothing changes. |
| `TaskController.ExpiryComesFirst` | ark/internal/controller/a2atask_controller.go:82-90 | A passed limit settles the approval of any task, with a server or without, before anything else is looked at. |
| `TaskController.FirstWake` | ark/internal/controller/a2atask_controller.go:61-72 | A task without a condition only receives its first one, and the phase pending if it had none. |
| `TaskController.ReasonFollowsPhase` | ark/internal/controller/a2atask_controller.go:238-323 | What a fetched reply makes of the condition, state by state; a phase that stays keeps its condition, and all else is the merge. |
| `TaskController.PollLeavesStatus` | ark/internal/controller/a2atask_controller.go:187-235 | A poll that fails, or whose status cannot be written, leaves the stored status alone; the next poll is asked for after the interval, five seconds without one. |
| `PollRefresh.PollStoresWhatItFetched` | ark/internal/controller/a2atask_controller.go:187-216 | What is stored after a successful poll equals what was fetched, up to echoes of the last reply, iff the poll does not reset a failure count or everything it changed was empty in the stored status. |
| `PollRefresh.NextPollStoresTheNews` | ark/internal/controller/a2atask_controller.go:187-216 | A first success after a failure leaves the task to be polled again, and the next success with the same reply stores all that the first had fetched. |
| `PollRefresh.CompletionLost` | ark/internal/controller/a2atask_controller.go:199-210 | Concrete: the first success after a failure reports completion, all writes succeed, and the stored status is unchanged. |
| `PollRefresh.CompletionMixed` | ark/internal/controller/a2atask_controller.go:199-210 | Concrete: with a first artifact in that reply, a running task is stored with a completion time. |
| `PollBackoff.BackoffExact` | ark/internal/controller/a2atask_controller.go:509-528 | The delay is the intended one (the base times two to the number of failures, at most sixteen, capped and floored) iff the product does not overflow int64 onto a remainder below the cap. |
| `PollBackoff.BackoffBounds` | ark/internal/controller/a2atask_controller.go:509-528 | For 0 < base < 2^47 ns: no overflow, between min(base, 5 min) and 5 min, at least 30 s when rate limited, never shrinking with the failure count. |
| `PollBackoff.DelayDoubles` | ark/internal/controller/a2atask_controller.go:509-528 | The delays one by one: the base, then twice the one before for each failure up to sixteen, at most five minutes, and at least thirty seconds when rate limited. |
| `PollBackoff.BackoffWraps` | ark/internal/controller/a2atask_controller.go:520-520 | A base above 2^48 ns does wrap, to a delay of 65536 ns. |
| `PollBackoff.CountIsStreak` | ark/internal/controller/a2atask_controller.go:187-235 | Along any run of wakes whose annotation writes succeed, the stored count is the length of the current streak of failed polls. |
| `PollBackoff.DelaysDoNotShrink` | ark/internal/controller/a2atask_controller.go:219-235 | Along a whole streak of failed polls, rate limited alike, the k-th delay is the backoff of the count so far and no delay is shorter than an earlier one. |
| `TaskReconciler.A2ATask.MergeArtifactsInto` | ark/internal/a2a/a2a_protocol.go:205-216 | In place: appends exactly the artifacts with unknown ids. |
| `TaskReconciler.A2ATask.MergeHistoryInto` | ark/internal/a2a/a2a_protocol.go:218-236 | In place: appends exactly the first message of each new id. |
| `TaskReconciler.A2ATask.SetTaskTimestamps` | ark/internal/a2a/a2a_protocol.go:265-280 | In place: a start time when leaving pending without one, a completion time when entering a terminal phase, each only if the timestamp is readable. |
| `TaskReconciler.A2ATask.UpdateStatus` | ark/internal/a2a/a2a_protocol.go:238-263 | In place: the whole status after a reply, filled or merged. |
| `TaskReconciler.A2ATask.CheckApprovalTimeout` | ark/internal/controller/a2atask_controller.go:338-395 | In place: the expiry policy, with the status untouched unless it applies. |
| `TaskReconciler.A2ATask.ProcessApprovalDecision` | ark/internal/controller/a2atask_controller.go:399-452 | In place: the user's decision; unreadable and unknown decisions fail the task with a false condition. |
| `TaskReconciler.A2ATask.UpdateConditionsAndEvents` | ark/internal/controller/a2atask_controller.go:305-323 | In place: the condition follows the new phase, and only a changed one. |
| `TaskReconciler.A2ATask.FetchStatus` | ark/internal/controller/a2atask_controller.go:238-261 | In place: one fetch; a task without a server is never polled. |
| `TaskReconciler.Store.WriteObject` | ark/internal/controller/a2atask_controller.go:199-203 | In place: writing the object keeps the stored status and decodes it over the working copy. |
| `TaskReconciler.PollTaskStatus` | ark/internal/controller/a2atask_controller.go:187-235 | The poll on store and working copy: what is stored and when to wake next. |
| `TaskReconciler.ReconcileStored` | ark/internal/controller/a2atask_controller.go:56-184 | The whole reconcile on the store is the transition the controller lemmas speak about. |
| `Approvals.OneResultPerCall` | ark/executors/completions/handler.go:843-1011 | Whenever a task with a consistent condition counts as resumable, its resumption has exactly one result per pending call, same order and ids. When completed, each says what its tool returned, the error text first, else the content, `{}` when both are empty, and a fixed error text when the tool failed or never ran; when failed, each is the same rejection, by the user or by the time limit. |
| `Approvals.ResumptionRuns` | ark/executors/completions/handler.go:943-1030 | Which calls a resumption runs: after consent all pending ones, in order and for the task, after denial none of them, then those of its loop; no earlier task is touched, and one more waits iff the run pauses again. |
| `Approvals.FirstRunLeaves` | ark/executors/completions/handler.go:202-217 | What a first run leaves: the calls its loop ran, and in memory the input with all it appended when it answered or a signal ended it, alone when it paused, and with an error message when it failed. |
| `Approvals.PauseMakesTask` | ark/executors/completions/handler.go:772-833 | A pause leaves one more task, without a server, waiting for input from the request's time on, in its conversation, with the pause's calls, agent, limit and policy. |
| `Approvals.ProcessKeepsTranscript` | ark/executors/completions/handler.go:156-217 | A request leaves the stored transcript well formed iff it saves neither a first run that a signal cut short nor a resumption that pauses inside a tool. |
| `Approvals.FirstRunKeepsTranscript` | ark/executors/completions/handler.go:202-217 | The same, both directions, for a first run: answered, signalled, paused or failed, saved or not. |
| `Approvals.ResumptionKeepsTranscript` | ark/executors/completions/handler.go:156-201 | A resumption leaves the stored transcript well formed iff it does not save a run that pauses again inside a tool. |
| `Approvals.ModelSeesWellFormed` | ark/executors/completions/handler.go:156-217 | Every conversation handed to a model while serving a request is well formed. |
| `Approvals.FirstPauseKeepsAllIffFirstRound` | ark/executors/completions/handler.go:203-212 | A first run that pauses stores only its input: all it held before its last round iff it paused in its first round; and tools have run without a trace in the transcript iff its first batch was not stopped at the gate. |
| `Approvals.FirstRunStoresWhatTheModelSaw` | ark/executors/completions/handler.go:1091-1126 | After an answered first run that is saved, system prompt and stored transcript together are the model's last request and the answer iff the history could be read or there was none; an unsaved one stores nothing. |
| `Approvals.ResumptionStoresWhatTheModelSaw` | ark/executors/completions/handler.go:165-200 | After an answered or again paused resumption that is saved: exactly what the model saw last and exactly what is stored; the stored transcript is the model's last request and the answer if any, iff memory was not empty or there was no input to fall back to, and the pause was not inside a tool; every other resumption stores nothing. |
| `Approvals.BrokenStaysBroken` | ark/executors/completions/handler.go:1060-1126 | No request repairs a stored transcript that is not well formed. |
| `Approvals.CutShortRunIsSaved` | ark/executors/completions/agent.go:268-280 | Concrete: two calls of which the first terminates, an orderly request that breaks the stored transcript. |
| `Approvals.PauseInsideIsSaved` | ark/executors/completions/agent.go:623-635 | Concrete: after an approved call the agent calls a helper that asks for approval itself; the resumption waits for the helper's call, and the transcript it saves ends in a call without an answer. |
| `ApprovalProtocol.GateSafety` | ark/executors/completions/handler.go:896-1030 | Invariant over every interleaving of requests, controller wakes, user input, new tasks and edited agents, with pauses at the gate and inside tools: what tasks and executed calls may be. |
| `ApprovalProtocol.NoGatedCallWithoutConsent` | ark/executors/completions/agent.go:235-265 | From any start without tasks: a gated call runs only for a task whose pause asked for that very call and which is completed with consent, now and later. |
| `ApprovalProtocol.TranscriptStaysWellFormed` | ark/executors/completions/handler.go:104-217 | Over every run with any number of pauses and cascading resumptions the stored transcript is well formed in the end iff no request saved a first run that a signal cut short or a resumption that paused inside a tool. |
| `ApprovalProtocol.ResumptionAnswersItsPause` | ark/executors/completions/handler.go:843-1011 | In every safe world a resumption has at least one result, exactly one for each call of the pause its task was made for, with its id and in its order; after consent each says what its tool returned, after denial each is a rejection that says who denied it. |
| `ApprovalProtocol.UndecidedPauseFollowsItsConfig` | ark/executors/completions/handler.go:772-815 | A pause nobody decides waits until the gated tool's own time limit has passed since the pause and then ends by that tool's policy. |
| `ApprovalProtocol.ResumptionMatchesPause` | ark/executors/completions/handler.go:868-960 | An approval task counts for a resumption iff it has ended and its decision was readable; the resumption has exactly the calls of the pause, goes to the agent that paused, or to the target if that has no name, and takes place iff the task names a conversation and that agent exists. |
| `ApprovalProtocol.ApprovalTaskStep` | ark/internal/controller/a2atask_controller.go:56-110 | Every step of the controller keeps an approval task waiting, consented, denied or failed by an unreadable decision, and never takes a consent back. |
| `Handler.Server.CheckResumption` | ark/executors/completions/handler.go:843-891 | Which request is a resumption. |
| `Handler.Server.CollectResults` | ark/executors/completions/handler.go:943-1007 | In place: runs the pending calls of a completed task, turns those of a failed one into errors without running any. |
| `Handler.Server.HandleApprovalRequired` | ark/executors/completions/handler.go:772-833 | In place: the approval task with its calls, limit, policy and agent. |
| `Handler.Server.HandleResumption` | ark/executors/completions/handler.go:896-1030 | The outcome of a resumption and the calls it ran, for every way of failing. |
| `Handler.Server.ServeResumption` | ark/executors/completions/handler.go:156-201 | In place: what a resumption saves, and the new task of a cascading pause. |
| `Handler.Server.ServeFirstRun` | ark/executors/completions/handler.go:202-217 | In place: what a first run saves when it ends, pauses or fails. |
| `Handler.Server.ProcessMessage` | ark/executors/completions/handler.go:104-217 | One request on the server's state is the step the protocol lemmas speak about. |
| `TeamSequential.RoundRobin` | ark/executors/completions/team.go:135-188 | In a looping team turn k belongs to member k modulo the team's size, and no more turns run than allowed. |
| `TeamSequential.FairTurns` | ark/executors/completions/team.go:185-186 | No member is ever more than one turn ahead of another. |
| `TeamSequential.TurnsWithinLimit` | ark/executors/completions/team.go:146-150 | The turn limit is kept from every point of a run on. |
| `TeamSequential.EverythingSaidIsHeard` | ark/executors/completions/team.go:277-362 | Turn k is a member's reply to step k, message by message, with only the member's name set on assistant messages, to its own prompt, the history, the user's input and everything said before it; the run's messages are all that was said, and the limit message if the limit ended it; and it ends for the last reply, the limit or the context. |
| `TeamSequential.LoopRefinesPlain` | ark/executors/completions/team.go:86-188 | With one turn per member allowed, a looping run does what the plain strategy does, turn by turn, and adds one limit message when nobody ends it earlier. |
| `TeamSequential.PositionIsMod` | ark/executors/completions/team.go:186-186 | Counting members round and round is counting modulo the team's size. |
| `TeamSequential.TeamRun.ExecuteMember` | ark/executors/completions/team.go:277-308 | In place: one member's turn, its messages kept also when it fails. |
| `TeamSequential.TeamRun.ExecuteSequential` | ark/executors/completions/team.go:86-133 | The plain strategy, in place, turn records and end included. |
| `TeamSequential.TeamRun.ExecuteSequentialWithLoops` | ark/executors/completions/team.go:135-188 | The looping strategy, in place; the limit and the context are checked before a turn. |
| `TeamSelector.SelectorRespectsGraph` | ark/executors/completions/team_selector.go:355-397 | With at least one usable edge, every two members that run in succession are joined by an edge, whatever the selector says; at most max(1, limit) members run; every member is a member of the team. |
| `TeamSelector.UnusableGraphIgnored` | ark/executors/completions/team_selector.go:356-359 | A graph none of whose edges leads to a member constrains nothing: two turns in a row for one member are possible. |
| `TeamSelector.SelectorSeesEverything` | ark/executors/completions/team_selector.go:454-592 | At every selection the selector sees history, input and all said so far; the member it comes down to is given the history and the same; what it says is its reply, message by message, under its name; the run ends at the first reply that fails or terminates, at the limit, or with the selection, and hands over all that was said and what its end adds. |
| `TeamSelector.LegalEdgeByEdge` | ark/executors/completions/team_selector.go:412-430 | Each edge out of a name to a member adds that member behind those before, and no other edge does. |
| `TeamSelector.TurnsBounded` | ark/executors/completions/team_selector.go:531-538 | The limit is checked after a turn: at most the allowed turns, except that one always runs. |
| `TeamSelector.NextIsAnEdge` | ark/executors/completions/team_selector.go:367-397 | The next member is reached by an edge out of the previous one. |
| `TeamSelector.LegalMapEmpty` | ark/executors/completions/team_selector.go:412-430 | The transition map is empty iff no edge leads to a member. |
| `TeamSelector.SelectorTeam.BuildLegalTransitions` | ark/executors/completions/team_selector.go:412-430 | The map holds, for each name, the members its usable edges lead to, in order, and no other name. |
| `TeamSelector.SelectorTeam.DetermineNextMember` | ark/executors/completions/team_selector.go:355-397 | No constraint, one candidate, several or none: the choice with every way of ending. |
| `TeamSelector.SelectorTeam.TakeTurn` | ark/executors/completions/team_selector.go:454-592 | In place: one pass of the selector loop. |
| `TeamSelector.SelectorTeam.ExecuteSelector` | ark/executors/completions/team_selector.go:545-592 | The selector loop, in place, is the run the lemmas speak about. |
| `SelectorReplies.ContainsWholeName` | ark/executors/completions/team_selector.go:68-87 | The scan finds a name iff some occurrence, also one overlapping a rejected one, has no name character on either side. |
| `SelectorReplies.TerminateTokenFor` | ark/executors/completions/team_selector.go:34-41 | The plain stop word unless some candidate is called so in any case. |
| `SelectorReplies.MatchSelectedName` | ark/executors/completions/team_selector.go:283-319 | Exact name, then name in any case, then the one longest mention; anything else is no match. |
| `SelectorReplies.FoundByMention` | ark/executors/completions/team_selector.go:297-318 | Among distinct lower-case candidates a name is found by mention iff it is mentioned and holds every other mentioned candidate. |
| `SelectorReplies.NameIsNeverTermination` | ark/executors/completions/team_selector.go:34-58 | A reply that is a candidate's name, in any case and with blanks around it, is never read as a stop and always selects that candidate. |
| `SelectorReplies.TerminationIsRead` | ark/executors/completions/team_selector.go:43-58 | A reply asks to stop iff, without the blanks around it, it is the stop word in any case, alone or followed by a colon or blank; the closing response is what follows the whole run of those. |
| `SelectorReplies.FoldedLetterByLetter` | ark/executors/completions/team_selector.go:34-66 | Equal up to case is so letter by letter; what continues a name is what a name may hold in any case, except a dot. |
| `SelectorReplies.MentionedMembers` | ark/executors/completions/team_selector.go:297-303 | Mentioned are exactly the candidates that occur as whole names in the reply. |
| `EngineSelector.NamedMemberIsChosen` | ark/executors/completions/team_selector.go:321-397 | A reply that is the name of a member the graph allows, in any case and with blanks, makes the team choose a member of that name, also one called like the stop word. |
| `EngineSelector.ReplyDecides` | ark/executors/completions/team_selector.go:321-352 | With a choice to make, a reply chooses a member iff it is no request to stop and names one; it ends the run without a warning iff it is such a request; any other reply ends it with a warning. |
| `EngineSelector.SelectionDecides` | ark/executors/completions/team_selector.go:321-494 | Whatever the selector answers: nowhere to go stops the run, one candidate is chosen unasked, a name chooses a candidate of that name; any other name, no name, a request to stop with or without a response, and a failure each end the run in their own way. |
| `EngineSelector.RepliesRespectGraph` | ark/executors/completions/team_selector.go:355-397 | No reply whatever makes a constrained team leave its graph. |
| `ToolCallStream.PerIndex` | ark/executors/completions/provider_openai.go:111-147 | What is accumulated under an index depends on that index's fragments alone: id and name of the first, arguments of all in order. |
| `ToolCallStream.StreamRebuildsResponse` | ark/executors/completions/provider_openai.go:92-189 | Any cutting of calls and text into fragments, interleaved over any chunks, is rebuilt exactly: calls in index order, text in order, the first chunk's id and the last finish reason; and there is something to finalize iff there are calls. |
| `ToolCallStream.CutsRebuild` | ark/executors/completions/provider_openai.go:111-147 | The accumulated calls are exactly the original ones. |
| `ToolCallStream.ChunksAccumulate` | ark/executors/completions/provider_openai.go:92-148 | The state after any chunks is that of all their fragments and texts together. |
| `ToolCallStream.FinalChunk` | ark/executors/completions/streaming.go:90-127 | The closing chunk alone rebuilds the calls; added to the fragments it doubles every argument string, harmless iff no call has arguments. |
| `ToolCallStream.ListedAnyBound` | ark/executors/completions/provider_azure.go:174-198 | Listing up to any bound above all indices gives the same calls: the two finalizers agree. |
| `ToolCallStream.ListedByRank` | ark/executors/completions/provider_openai.go:151-176 | All accumulated calls are listed, each at the place its index takes among the indices there are, whatever the gaps between them. |
| `ToolCallStream.FirstIdLastFinish` | ark/executors/completions/provider_openai.go:92-148 | The response has the first chunk's id and the last finish reason that was given. |
| `ToolCallStream.Stream.AccumulateStreamChunk` | ark/executors/completions/provider_openai.go:92-148 | In place: one chunk absorbed into response and index map. |
| `ToolCallStream.Stream.ProcessToolCalls` | ark/executors/completions/provider_openai.go:151-189 | In place: the calls assigned in index order, and the closing chunk with all of them iff there are any. |
| `ToolCallStream.MaxIndex` | ark/executors/completions/provider_azure.go:179-184 | An index of the map that none exceeds, or -1 when all are negative. |
| `ToolCallStream.SendFinal` | ark/executors/completions/streaming.go:90-127 | The closing chunk carries each call whole under its position. |
| `ToolCallStream.FinalizeToolCalls` | ark/executors/completions/provider_azure.go:174-198 | The second finalizer yields the same response as the first, and sends the closing chunk whenever it puts calls in place. |
| `ArtifactStream.ArtifactTexts` | ark/internal/a2a/a2a.go:350-369 | One text per key in order of first occurrence, each the last non-empty one. |
| `ArtifactStream.KeysAreThoseSaid` | ark/internal/a2a/a2a.go:350-376 | No key occurs twice, and a key occurs iff something was said under it. |
| `ArtifactStream.TextsOfWhatIsSaid` | ark/internal/a2a/a2a.go:350-376 | Named artifacts count by name and unnamed ones by id; for everything said there is a text, and it is what was said there last. |
| `ArtifactStream.OrderOfFirsts` | ark/internal/a2a/a2a.go:350-369 | The texts stand in the order in which their artifacts first said something. |
| `ArtifactStream.ReplyFallsBack` | ark/internal/a2a/a2a.go:335-348 | Artifacts that say something come before the status message, that before the history; otherwise there is no reply. |
| `ArtifactStream.StreamFallsBack` | ark/executors/completions/a2a_execution.go:256-457 | The reply of a stream: its artifacts' texts if one of them speaks, else what a final status or a whole task offered last, else all bare messages together, up to the first final status. |
| `ArtifactStream.JoinSnoc` | ark/executors/completions/a2a_execution.go:432-457 | The reply's content is its texts in order with a line break between every two. |
| `ArtifactStream.ConsumeSound` | ark/executors/completions/a2a_execution.go:256-397 | After any events the order lists each collected id once, and an artifact not marked as text has none. |
| `ArtifactStream.SilentArtifactsDrop` | ark/executors/completions/a2a_execution.go:411-430 | Leaving out artifacts without text does not change the reply. |
| `ArtifactReply.CollectedIsListed` | ark/executors/completions/a2a_execution.go:313-397 | The stream collects exactly the artifacts written to before the first final status, in order of first mention, each with the text its own writes add up to and the name given last. |
| `ArtifactReply.HeldIsListed` | ark/executors/completions/a2a_execution.go:350-373 | A server that appends and replaces as the writes say holds the same artifacts in the same order with the same texts, under the names of the last replacements. |
| `ArtifactReply.StreamAgreesWithServer` | ark/executors/completions/a2a_execution.go:350-397 | Piece by piece, stream and server agree in the end on artifacts, order and texts; they agree altogether iff each artifact's last given name is the name of its last replacement. |
| `ArtifactSnapshots.AgreeExactlyInStep` | ark/executors/completions/a2a_execution.go:313-397 | For pieces and whole tasks in any mixture, a whole task being all the server holds: the stream has collected what the server holds after every event iff every whole task repeats all that was held and adds only what speaks, no append gives a held artifact another name, and no replacement leaves out a held one's. |
| `ArtifactSnapshots.SnapshotStep` | ark/executors/completions/a2a_execution.go:313-326 | A whole task is collected as it stands iff it extends what was held. |
| `ArtifactSnapshots.StreamInStepMatchesBlocking` | ark/executors/completions/a2a_execution.go:432-457 | A stream that stays in step replies as the task the server holds, read as a whole. |
| `ArtifactSnapshots.ArtifactTakenBack` | ark/executors/completions/a2a_execution.go:313-326 | Concrete: a whole task without an artifact collected before; the streamed reply still holds it. |
| `ArtifactReply.StreamingMatchesBlocking` | ark/executors/completions/a2a_execution.go:432-457 | Whenever the stream has collected what the task holds, the streamed reply is the reply read from the task; without any text the final status message takes its place in both. |
| `ArtifactReply.NameLeftOut` | ark/executors/completions/a2a_execution.go:350-373 | Concrete: an artifact replaced without its name loses its text in the streamed reply and not in the blocking one. |
| `ArtifactReply.AnyCuttingIsPutTogether` | ark/executors/completions/a2a_execution.go:350-430 | However artifacts are cut into pieces and the pieces interleaved, the stream collects the artifacts, a server holds them, and both replies agree. |
| `ArtifactReply.WholeTaskAlone` | ark/executors/completions/a2a_execution.go:313-326 | A stream that is one whole task replies exactly as the task read as a whole does. |
| `ArtifactStream.BoundariesWhereOriginChanges` | ark/executors/completions/a2a_execution.go:399-409 | The live stream gets every piece in order and a boundary exactly where the origin changes. |
| `ArtifactStream.StreamContext.ConsumeEvents` | ark/executors/completions/a2a_execution.go:256-298 | In place: all events up to the first final status; the new state is the one the lemmas speak about. |
| `ArtifactStream.StreamContext.ConsumeMessage` | ark/executors/completions/a2a_execution.go:300-311 | In place: a bare message; the new state is the one the lemmas speak about. |
| `ArtifactStream.StreamContext.ConsumeTask` | ark/executors/completions/a2a_execution.go:313-326 | In place: a whole task; the new state is the one the lemmas speak about. |
| `ArtifactStream.StreamContext.ConsumeStatusUpdate` | ark/executors/completions/a2a_execution.go:328-348 | In place: a status update; done iff it is final; the new state is the one the lemmas speak about. |
| `ArtifactStream.StreamContext.ConsumeArtifactUpdate` | ark/executors/completions/a2a_execution.go:350-373 | In place: an artifact update, appending or replacing; the new state is the one the lemmas speak about. |
| `ArtifactStream.StreamContext.GetOrCreate` | ark/executors/completions/a2a_execution.go:375-383 | In place: an artifact by id, entered in the order when new; the new state is the one the lemmas speak about. |
| `ArtifactStream.StreamContext.MergeOne` | ark/executors/completions/a2a_execution.go:385-397 | In place: an artifact of a whole task; the new state is the one the lemmas speak about. |
| `ArtifactStream.StreamContext.StreamLiveText` | ark/executors/completions/a2a_execution.go:399-409 | In place: a live piece, with its boundary; the new state is the one the lemmas speak about. |
| `ArtifactStream.StreamContext.ReplyTextsOfArtifacts` | ark/executors/completions/a2a_execution.go:411-430 | The reply texts, with textless artifacts left out, equal those of all collected artifacts. |
| `ArtifactStream.StreamContext.BuildStreamResult` | ark/executors/completions/a2a_execution.go:432-457 | The result: the artifacts' texts, else the final message, else the bare one, and their joined content. |
| `ArtifactStream.StreamContext.ConsumeStream` | ark/executors/completions/a2a_execution.go:256-298 | A whole stream from the start yields the reply the lemmas speak about. |
| `SseDecoder.DecodeUndoesPrint` | ark/executors/completions/sse_decoder.go:44-95 | For any frames of types and data lines (with or without the space, or the colon), ids and comments: decoding returns exactly their events in order, passes over keepalives, and drops an unfinished last frame. |
| `SseDecoder.NeverBlank` | ark/executors/completions/sse_decoder.go:44-95 | No stream whatever makes the decoder return blank data. |
| `SseDecoder.Decoder.Next` | ark/executors/completions/sse_decoder.go:44-95 | In place: the next event and the position behind it; without one the position is the end and the last event stays. |
| `SseDecoder.Decoder.ReadAll` | ark/executors/completions/sse_decoder.go:44-99 | Repeated calls return all events. |
| `TeamReach.TeamReachesAgent` | ark/executors/completions/handler.go:285-319 | Ends on every graph, also a cyclic one; finds the agent only in a reachable team, denies it only if all reachable teams exist and lack it, reports only a reachable missing team. |
| `TeamReach.ClosedHoldsReachable` | ark/executors/completions/handler.go:285-319 | A set closed under membership holds all reachable teams. |
| `AnthropicTurns.MergeIsRunByRun` | ark/executors/completions/anthropic_format.go:130-141 | Merging gives exactly one turn per maximal run of a role, with the run's texts in order, flagged iff the run has two or more. |
| `AnthropicTurns.MergeInStages` | ark/executors/completions/anthropic_format.go:130-141 | No equal neighbours; merging in stages gives the same; a longer conversation changes only the last turn. |
| `AnthropicTurns.CachedPrefixIsStable` | ark/executors/completions/anthropic_format.go:170-195 | A turn is marked for caching iff it is the last but one and unmerged, and every continuation is sent with it and all before it unchanged. |
| `AnthropicTurns.EachSpeaksInPlace` | ark/executors/completions/anthropic_format.go:10-128 | A message that says something has one turn at its place, user and tool messages for the user, the assistant's for itself and under its name; system and empty messages have none. |
| `AnthropicTurns.LastInstructionCounts` | ark/executors/completions/anthropic_format.go:143-168 | The system prompt is the last system message that says something. |
| `AnthropicTurns.MergeConsecutiveRoles` | ark/executors/completions/anthropic_format.go:130-141 | The loop that edits the last turn in place computes the merge. |
| `AnthropicTurns.CollectTurns` | ark/executors/completions/anthropic_format.go:143-168 | The turns of all messages that say something, merged, and the last system message. |
| `AnthropicTurns.ConvertMessages` | ark/executors/completions/anthropic_format.go:170-195 | The turns as sent, with the caching mark. |
| `MemoryPages.NeverPartial` | ark/executors/completions/memory_http.go:238-284 | Against any broker: at most a thousand requests, each with the cursor of the reply before, which must lie beyond the one before it; the reading succeeds iff every request was answered, the last answer says that there is no more, and every record of every page can be decoded; the result is all of them in order. |
| `MemoryPages.DecodedRecordByRecord` | ark/executors/completions/memory_http.go:333-346 | A page is read iff every record of it can be decoded, and then record by record. |
| `MemoryPages.FaithfulBrokerReadsAll` | ark/executors/completions/memory_http.go:238-284 | Against a faithful broker the whole log is returned, once and in order, iff it fits the cap and can be decoded. |
| `MemoryPages.DecodeMessagePage` | ark/executors/completions/memory_http.go:333-346 | A page is decoded whole or not at all. |
| `MemoryPages.GetMessages` | ark/executors/completions/memory_http.go:238-284 | The paging loop, with every way of failing. |
| `ToolSweep.PutAllHolds` | ark/internal/controller/mcpserver_controller.go:595-607 | After all tools are written: the last tool of each generated name, under the label the object had, and nothing else touched. |
| `ToolSweep.StoredUnder` | ark/internal/controller/mcpserver_controller.go:697-705 | A tool's name in the store: the server's name, a dash, and its own name with capitals as small letters and underscores as dashes. |
| `ToolSweep.LastOfItsName` | ark/internal/controller/mcpserver_controller.go:595-607 | Of the tools of one generated name the one listed last stays. |
| `ToolSweep.AltersNothing` | ark/internal/controller/mcpserver_controller.go:665-695 | The pass reports no change iff the store already holds every tool, and then writes nothing. |
| `ToolSweep.SecondSweepQuiet` | ark/internal/controller/mcpserver_controller.go:579-705 | After a sweep the store holds every tool iff no two different tools share a generated name. |
| `ToolSweep.SweepConverges` | ark/internal/controller/mcpserver_controller.go:579-705 | The server's objects afterwards are exactly the generated names iff no foreign object had one; sweeping is idempotent on the store; a second sweep reports no change iff no two different tools share a name. |
| `ToolSweep.UnderscoreClash` | ark/internal/controller/mcpserver_controller.go:697-705 | Two tools that differ only in `_` and `-` share a name, and every sweep reports a change. |
| `ToolSweep.Cluster.CreateOrUpdate` | ark/internal/controller/mcpserver_controller.go:665-695 | In place, with any call failing: one tool written or the store unchanged. |
| `ToolSweep.Cluster.PutTools` | ark/internal/controller/mcpserver_controller.go:588-607 | In place: every tool written and marked; objects of others left alone also on failure. |
| `ToolSweep.Cluster.CreateTools` | ark/internal/controller/mcpserver_controller.go:579-625 | In place: on success the synced store and an exact change report; objects of others left alone always. |
| `ToolSweep.Cluster.DeleteZombies` | ark/internal/controller/mcpserver_controller.go:609-622 | In place: all unmarked objects deleted, or only some of them on failure. |
| `TokenRenewal.ClampNeverOverflows` | ark/internal/controller/mcpserver_clientcreds.go:129-141 | A lifetime in seconds is exact up to ten years and never overflows; a grant without one has no expiry. |
| `TokenRenewal.UnclampedOverflows` | ark/internal/controller/mcpserver_clientcreds.go:125-129 | Without the clamp 300 years would lie in the past. |
| `TokenRenewal.RequeueBounds` | ark/internal/controller/mcpserver_clientcreds.go:349-377 | For every draw: at least min(poll, 1 s), at most poll and max(1 s, time to renewal), and at most a tenth of the wait early; without an expiry the poll interval. |
| `TokenRenewal.RenewedInTime` | ark/internal/controller/mcpserver_clientcreds.go:183-191 | Along the wakes after one mint, the one that renews finds at least 59 s of validity. |
| `TokenRenewal.RenewalHappens` | ark/internal/controller/mcpserver_clientcreds.go:349-377 | Some wake renews before more happen than fit into the lifetime. |
| `TokenRenewal.SafeRenewal` | ark/internal/controller/mcpserver_clientcreds.go:183-191 | Every draw leaves 59 s at renewal iff the token lives at least 59 s + min(1 s, poll). |
| `TokenRenewal.OldTokenOutlivesRenewal` | ark/internal/controller/mcpserver_clientcreds.go:170-178 | At every wake up to the one that renews the stored token is still usable, so a failed renewal can go on with it. |
| `TokenRenewal.SecretRoundTrip` | ark/internal/controller/mcpserver_clientcreds.go:299-309 | Reading back a written Secret gives the expiry in whole seconds, the token iff it has no blanks around it, and keeps other keys. |
| `TokenRenewal.ReadAsItStands` | ark/internal/mcp/authorization.go:31-69 | Any Secret: the token without the blanks around it, empty if there is none, and an expiry iff there is one that can be read. |
| `TokenRenewal.SharedKeyLosesToken` | ark/internal/controller/mcpserver_clientcreds.go:299-309 | With one key for both, the expiry takes the token's place. |
| `TokenRuns.TokenAlwaysUsable` | ark/internal/controller/mcpserver_clientcreds.go:58-191 | Over any number of whole reconciles and mints, for every draw and from any Secret: each reconcile but the first reads back the token the one before used (a minted one to the whole second), still usable (for tokens of two seconds or more, or without expiry); with 61 seconds or more, valid for at least 59 more; and a mint happens only in the last 60 seconds. |
| `TokenRuns.NextFinds` | ark/internal/controller/mcpserver_clientcreds.go:349-377 | One reconcile: what the next one reads back from the Secret, later, and still usable. |
| `TokenRuns.ReconcileToken` | ark/internal/controller/mcpserver_controller.go:140-205 | In place: read the Secret, renew when due, and the delay until the next reconcile. |
| `TokenRenewal.TokenSecret.ApplyTokenData` | ark/internal/controller/mcpserver_clientcreds.go:299-309 | In place: token written, expiry written or removed. |
| `TokenRenewal.TokenSecret.ResolveMaterial` | ark/internal/mcp/authorization.go:31-69 | What a Secret with missing or malformed keys is read as. |
| `TokenRenewal.TokenSecret.EnsureToken` | ark/internal/controller/mcpserver_clientcreds.go:58-165 | In place: a token that is not due is neither replaced nor rewritten; a granted and written one is; in every other case old material and Secret are kept. |

## Left out

- AgentLoop.RequestsWellFormed: requests are the conversation itself; that the model call leaves the agent's own name out of its messages is not modelled.
- AgentLoop.OnlyUngatedRun: the gate is keyed by function name, as the agent's table is; that a partial tool with a name of its own is registered under another name than its key is not modelled.
- ApprovalProtocol.GateSafety: agent targets only; a team target that pauses inside a member, sub-targets and requests without a memory are not modelled. JSON of tool calls and of the approval context is assumed to be read back as written, and only the agent's name is kept of the context.
- AgentTools.AgentToolsEcho: agents only; a team that runs as a tool hands on its member's pause in the same way.
- ApprovalProtocol.NoGatedCallWithoutConsent: the calls that an agent makes while it runs as a tool are those of its own loop (AgentLoop.OnlyUngatedRun) and not listed among the outer run's.
- Approvals.FirstRunStoresWhatTheModelSaw: a request reads at its start and saves at its end as one step; requests that overlap on one conversation are not modelled.
- Approvals.ResumptionStoresWhatTheModelSaw: the same; two resumptions of one task at the same time are not modelled.
- TaskStatus.UpdateAfterRefresh: decoding over a message in memory is modelled to its id, role and parts as a whole; that absent fields inside the parts of the last status message may keep older values is not.
- PollRefresh.PollStoresWhatItFetched: context id, metadata, last status message and its timestamp may stay behind, because the comparison does not look at them.
- ArtifactReply.HeldIsListed: the server is a reference of our own; the repository holds no A2A server.
- TaskStatus.UpdateIdempotent: parts of messages and artifacts are opaque; artifacts carry no description or metadata.
- TeamReach.TeamReachesAgent: a store that fails other than by not finding a team is not modelled.
- SseDecoder.DecodeUndoesPrint: starts from lines; splitting bytes into lines and read errors are left to the scanner.
- SelectorReplies.FoundByMention: ASCII names and replies; Unicode case folding is not modelled.
- TokenRuns.TokenAlwaysUsable: every due reconcile is granted a token and writes it; the single reconcile with refusals and failed writes is TokenRenewal.TokenSecret.EnsureToken.
- TokenRenewal.SafeRenewal: reconciles happen at the scheduled times and time is read once per reconcile; the printing and reading of times is a parameter that is assumed to round-trip.
- MemoryPages.FaithfulBrokerReadsAll: the log does not change while it is read.
- ToolSweep.SweepConverges: a tool's specification is its description and schema; labels and owner references beyond the server's label are not modelled.
- HandleA2ATaskResponse: creating, refetching and retrying the write of a new task races with the controller; tasks start after those writes.
- MakeTeam: the recursion that builds nested teams has no cycle guard; only the reachability search over teams is modelled.
- The prompts, notes and error texts that are only displayed are opaque or shortened.
- Telemetry, events, logging, condition messages and transition times.
- Kubernetes, HTTP, Redis, TLS, provider SDKs and JSON encoding.
- Execution engines outside the process, direct model and tool targets, query templates and target resolution.
- Header and parameter resolution, admission, simple ready/error reconcilers and generated code: only easy statements.
