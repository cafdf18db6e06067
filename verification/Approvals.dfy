/** Serving one request: a first run, or the resumption of a run that waited for
    an approval. */
module Approvals {
  import opened Messages
  import opened AgentLoop
  import opened AgentTools
  import TS = TaskStatus
  import TC = TaskController

  /** The JSON forms kept in a task's metadata: the pending tool calls, and the
      name of the agent that paused. */
  datatype Codec = Codec(encodeCalls: seq<ToolCall> -> string, decodeCalls: string -> Option<seq<ToolCall>>,
                         encodeContext: string -> string, decodeContext: string -> Option<string>)

  ghost predicate RoundTrips(codec: Codec) {
    && (forall calls :: codec.decodeCalls(codec.encodeCalls(calls)) == Some(calls))
    && (forall name :: codec.decodeContext(codec.encodeContext(name)) == Some(name))
  }

  /** A call that was run; `task` is the approval task it was run for, if any. */
  datatype Exec = Exec(call: ToolCall, gated: bool, task: Option<nat>)

  /** Everything a request can read or change. `origins` records, beside each task,
      the pause it was created for; a deleted task is None. */
  datatype World = World(agents: map<string, Agent>, memory: seq<Message>,
                         tasks: seq<Option<TC.Task>>, origins: seq<Option<Pause>>, executed: seq<Exec>)

  /** A request: the task recorded in the query's status, the target agent, the
      input, and what the environment will do. */
  datatype Request = Request(
    task: Option<nat>, target: string, input: seq<Message>, contextId: string, now: int,
    historyReadable: bool, memoryReadable: bool, saveOk: bool,
    approvedSteps: seq<ToolStep>, rounds: seq<Round>)

  function ApprovalMetadata(codec: Codec, p: Pause): map<string, string> {
    map["toolCalls" := codec.encodeCalls(p.pending), "timeout" := p.config.timeout,
        "onTimeout" := p.config.onTimeout, "context" := codec.encodeContext(p.agentName)]
  }

  function ApprovalTask(codec: Codec, p: Pause, contextId: string, now: int): TC.Task {
    TC.Task(
      TC.Spec(false, contextId, "", now, None, None, None),
      TS.Status(TS.InputRequired, "input-required", contextId, [], [], ApprovalMetadata(codec, p),
                None, "", "", Some(now), None, None),
      TC.Absent)
  }

  predicate ResumableDenial(t: TC.Task) {
    t.status.completed.Some? && TC.DenialReason(t.status.completed.value.reason)
  }

  /** An approval task that was completed, or denied in a way the agent can react to. */
  predicate Resumable(t: TC.Task) {
    !t.spec.hasServer && (t.status.phase.Completed? || ResumableDenial(t))
  }

  predicate IsResumption(w: World, task: Option<nat>) {
    && task.Some? && task.value < |w.tasks| && w.tasks[task.value].Some?
    && Resumable(w.tasks[task.value].value)
  }

  const EMPTY_CONTENT := "{}"   // how an empty tool content is rendered

  const USER_REJECTION := "Tool execution rejected by user"
  const TIMEOUT_REJECTION := "Tool execution rejected: approval timeout exceeded"

  /** A missing step stands for an executor that failed on a cancelled context. */
  function StepAt(steps: seq<ToolStep>, i: nat): (s: ToolStep)
    ensures s.Ran?
  {
    if i < |steps| && steps[i].Ran? then steps[i]
    else Ran(ToolResult("", "", "", ""), ToolError("context canceled"))
  }

  /** The result of an approved call always carries the call's own id. */
  function ApprovedResult(call: ToolCall, step: ToolStep): ToolResult
    requires step.Ran?
  {
    if !step.fault.NoFault? then ToolResult(call.id, "", "Error executing tool", "")
    else
      var content := ToolMessage(step.result).content;
      ToolResult(call.id, "", if content != "" then content else EMPTY_CONTENT, "")
  }

  function RejectionError(t: TC.Task): string {
    if t.status.completed.Some? && t.status.completed.value.reason.ApprovalTimeoutRejected?
    then TIMEOUT_REJECTION else USER_REJECTION
  }

  /** A task that is neither completed nor failed yields no result at all. */
  function ResumptionResults(t: TC.Task, calls: seq<ToolCall>, steps: seq<ToolStep>): seq<ToolResult> {
    if t.status.phase.Completed? then
      seq(|calls|, i requires 0 <= i < |calls| => ApprovedResult(calls[i], StepAt(steps, i)))
    else if t.status.phase.Failed? then
      seq(|calls|, i requires 0 <= i < |calls| => ToolResult(calls[i].id, calls[i].name, "", RejectionError(t)))
    else []
  }

  /** The agent named in the approval context; the request's target without one. */
  function ResumptionAgent(codec: Codec, t: TC.Task, target: string): string {
    var context := if "context" in t.status.metadata then codec.decodeContext(t.status.metadata["context"]) else None;
    if context.Some? && context.value != "" then context.value else target
  }

  function PendingCalls(codec: Codec, t: TC.Task): Option<seq<ToolCall>> {
    if "toolCalls" in t.status.metadata then codec.decodeCalls(t.status.metadata["toolCalls"]) else None
  }

  predicate CanResume(codec: Codec, w: World, t: TC.Task, target: string) {
    && t.spec.contextId != "" && PendingCalls(codec, t).Some?
    && ResumptionAgent(codec, t, target) in w.agents
  }

  function MemoryRead(w: World, ok: bool): Option<seq<Message>> {
    if ok then Some(w.memory) else None
  }

  function Execs(calls: seq<ToolCall>, agent: Agent, task: Option<nat>): seq<Exec> {
    seq(|calls|, i requires 0 <= i < |calls| => Exec(calls[i], calls[i].name in agent.gate, task))
  }

  /** Memory after a save that the memory service may refuse. */
  function Saved(memory: seq<Message>, ms: seq<Message>, ok: bool): seq<Message> {
    if ok then memory + ms else memory
  }

  function Await(codec: Codec, w: World, p: Pause, r: Request): World {
    w.(tasks := w.tasks + [Some(ApprovalTask(codec, p, r.contextId, r.now))], origins := w.origins + [Some(p)])
  }

  /** A resumption saves what it has to hand over, and nothing when it fails. */
  function Resumption(codec: Codec, w: World, r: Request): World
    requires IsResumption(w, r.task)
  {
    var t := w.tasks[r.task.value].value;
    if !CanResume(codec, w, t, r.target) then w
    else
      var agent, calls := w.agents[ResumptionAgent(codec, t, r.target)], PendingCalls(codec, t).value;
      var results := ResumptionResults(t, calls, r.approvedSteps);
      var executed := if t.status.phase.Completed? then Execs(calls, agent, r.task) else [];
      if !r.memoryReadable then w.(executed := w.executed + executed)
      else
        var run := Loop(agent, ResumptionContext(calls, results, w.memory, r.input), r.rounds);
        var w' := w.(executed := w.executed + executed + Execs(run.executed, agent, None));
        match Resume(agent, calls, results, Some(w.memory), r.input, r.rounds)
        case Finished(ms) => w'.(memory := Saved(w.memory, ms, r.saveOk))
        case NeedsApproval(pause, partial) =>
          Await(codec, w'.(memory := Saved(w.memory, partial, r.saveOk)), pause, r)
        case Failed => w'
  }

  const ERROR_MESSAGE := Assistant("Error", "", [])

  function History(w: World, r: Request): seq<Message>
    requires r.input != []
  {
    (if r.historyReadable then w.memory else []) + r.input[..|r.input| - 1]
  }

  /** A first run saves the input with whatever it produced; a pause saves the input only. */
  function FirstRun(codec: Codec, w: World, r: Request): World
    requires r.input != []
  {
    if r.target !in w.agents then w.(memory := Saved(w.memory, r.input + [ERROR_MESSAGE], r.saveOk))
    else
      var agent, last := w.agents[r.target], r.input[|r.input| - 1];
      var run := Loop(agent, PrepareMessages(agent, History(w, r), last), r.rounds);
      var w' := w.(executed := w.executed + Execs(run.executed, agent, None));
      match Execute(agent, History(w, r), last, r.rounds)
      case Finished(ms) => w'.(memory := Saved(w.memory, r.input + ms, r.saveOk))
      case NeedsApproval(pause, _) => Await(codec, w'.(memory := Saved(w.memory, r.input, r.saveOk)), pause, r)
      case Failed => w'.(memory := Saved(w.memory, r.input + [ERROR_MESSAGE], r.saveOk))
  }

  function Process(codec: Codec, w: World, r: Request): World
    requires r.input != []
  {
    if IsResumption(w, r.task) then Resumption(codec, w, r) else FirstRun(codec, w, r)
  }

  /** What the model is told of an approved call: what the tool returned, its error text
      first, "{}" when it returned nothing at all; a fixed text when it failed or never ran. */
  predicate TellsApproved(r: ToolResult, steps: seq<ToolStep>, k: nat) {
    && r.error == ""
    && if k < |steps| && steps[k].Ran? && steps[k].fault.NoFault? then
         var ran := steps[k].result;
         r.content == if ran.error != "" then ran.error else if ran.content != "" then ran.content else "{}"
       else r.content == "Error executing tool"
  }

  /** What the model is told of a denied call: which call it was, and by whom it was denied. */
  predicate TellsDenied(r: ToolResult, call: ToolCall, byTimeLimit: bool) {
    && r.name == call.name && r.content == ""
    && r.error == if byTimeLimit then "Tool execution rejected: approval timeout exceeded"
                  else "Tool execution rejected by user"
  }

  /** A resumable task with a consistent status is completed or failed, so its
      resumption has one result per pending call, in order and with its id: what the
      tools returned when completed, rejections when failed. */
  lemma OneResultPerCall(t: TC.Task, calls: seq<ToolCall>, steps: seq<ToolStep>)
    requires TC.ConditionConsistent(t.status) && Resumable(t)
    ensures var results := ResumptionResults(t, calls, steps);
      && |results| == |calls|
      && (forall i | 0 <= i < |calls| :: results[i].id == calls[i].id)
      && (t.status.phase.Completed? ==> forall i | 0 <= i < |calls| :: TellsApproved(results[i], steps, i))
      && (t.status.phase.Failed? ==>
            && t.status.completed.Some?
            && var byTimeLimit := t.status.completed.value.reason.ApprovalTimeoutRejected?;
               forall i | 0 <= i < |calls| :: TellsDenied(results[i], calls[i], byTimeLimit))
      && (t.status.phase.Completed? <==> !t.status.phase.Failed?)
  {
  }

  /** A world one request later: the calls it ran are behind those run before, none of
      the earlier tasks is touched, and one more task waits exactly if the run paused. */
  ghost predicate LaterBy(w: World, u: World, calls: seq<ToolCall>, agent: Agent, task: Option<nat>, paused: bool) {
    && |u.executed| == |w.executed| + |calls| && w.executed <= u.executed
    && (forall k | 0 <= k < |calls| ::
          u.executed[|w.executed| + k] == Exec(calls[k], calls[k].name in agent.gate, task))
    && |u.tasks| == |w.tasks| + (if paused then 1 else 0) && w.tasks <= u.tasks
  }

  /** From `w` by the pending calls of a task to `resumed`, and by the run behind them to `u`. */
  ghost predicate ThroughWorld(w: World, resumed: World, u: World, pending: seq<ToolCall>, run: Run, agent: Agent,
                               task: Option<nat>) {
    && LaterBy(w, resumed, pending, agent, task, false)
    && LaterBy(resumed, u, run.executed, agent, None, run.stop.Paused?)
  }

  /** The calls a resumption runs itself: after consent all pending ones, in order and for
      the task, and after a denial none; then those of its loop. */
  lemma ResumptionRuns(codec: Codec, w: World, r: Request)
    requires TasksConsistent(w) && IsResumption(w, r.task)
    requires CanResume(codec, w, w.tasks[r.task.value].value, r.target) && r.memoryReadable
    ensures var t := w.tasks[r.task.value].value;
      var agent, calls := w.agents[ResumptionAgent(codec, t, r.target)], PendingCalls(codec, t).value;
      var run := Loop(agent, ResumptionContext(calls, ResumptionResults(t, calls, r.approvedSteps), w.memory, r.input),
                      r.rounds);
      var pending := if t.status.phase.Completed? then calls else [];
      exists resumed :: ThroughWorld(w, resumed, Resumption(codec, w, r), pending, run, agent, r.task)
  {
    var t := w.tasks[r.task.value].value;
    var agent, calls := w.agents[ResumptionAgent(codec, t, r.target)], PendingCalls(codec, t).value;
    var run := Loop(agent, ResumptionContext(calls, ResumptionResults(t, calls, r.approvedSteps), w.memory, r.input),
                    r.rounds);
    var pending := if t.status.phase.Completed? then calls else [];
    var resumed := w.(executed := w.executed + Execs(pending, agent, r.task));
    RunsBehind(w, resumed, pending, agent, r.task);
    var u := Resumption(codec, w, r);
    assert |u.tasks| == |w.tasks| + (if run.stop.Paused? then 1 else 0) && w.tasks <= u.tasks;
    RunsBehind(resumed, resumed.(executed := resumed.executed + Execs(run.executed, agent, None)), run.executed, agent, None);
    assert u.executed == resumed.executed + Execs(run.executed, agent, None);
    assert ThroughWorld(w, resumed, u, pending, run, agent, r.task);
  }

  lemma RunsBehind(w: World, u: World, calls: seq<ToolCall>, agent: Agent, task: Option<nat>)
    requires u == w.(executed := w.executed + Execs(calls, agent, task))
    ensures LaterBy(w, u, calls, agent, task, false)
  {
  }

  /** What a first run leaves: the calls its loop ran, and in memory the input with all it
      appended when it answered or a signal ended it, alone when it paused, and with an
      error message when it failed or nobody could be asked. */
  lemma FirstRunLeaves(codec: Codec, w: World, r: Request)
    requires r.input != [] && !IsResumption(w, r.task)
    ensures var u, failed := Process(codec, w, r), [Assistant("Error", "", [])];
      if r.target !in w.agents then u == w.(memory := if r.saveOk then w.memory + (r.input + failed) else w.memory)
      else
        var agent := w.agents[r.target];
        var run := Loop(agent, PrepareMessages(agent, History(w, r), r.input[|r.input| - 1]), r.rounds);
        && LaterBy(w, u, run.executed, agent, None, run.stop.Paused?)
        && u.memory == if !r.saveOk then w.memory
                       else w.memory + (r.input + if run.stop.Answered? || run.stop.Signalled? then run.appended
                                                  else if run.stop.Paused? then [] else failed)
  {
    if r.target in w.agents {
      var agent := w.agents[r.target];
      var run := Loop(agent, PrepareMessages(agent, History(w, r), r.input[|r.input| - 1]), r.rounds);
      RunsBehind(w, w.(executed := w.executed + Execs(run.executed, agent, None)), run.executed, agent, None);
      assert r.input + [] == r.input;
    }
  }

  /** A request whose run pauses leaves one more task, which waits for the pause handed
      over, in the request's conversation and from its time on. */
  lemma PauseMakesTask(codec: Codec, w: World, p: Pause, r: Request)
    ensures var u := Await(codec, w, p, r);
      && |u.tasks| == |w.tasks| + 1 && w.tasks <= u.tasks && u.origins == w.origins + [Some(p)]
      && u.(tasks := w.tasks, origins := w.origins) == w
      && u.tasks[|w.tasks|].Some?
      && var t := u.tasks[|w.tasks|].value;
         && !t.spec.hasServer && t.spec.contextId == r.contextId && t.spec.input == "" && t.spec.created == r.now
         && t.status.phase.InputRequired? && TC.FreshStatus(t.status) && t.status.startTime == Some(r.now)
         && t.status.history == [] && t.status.artifacts == [] && t.status.error == ""
         && t.status.metadata["toolCalls"] == codec.encodeCalls(p.pending)
         && t.status.metadata["context"] == codec.encodeContext(p.agentName)
         && t.status.metadata["timeout"] == p.config.timeout && t.status.metadata["onTimeout"] == p.config.onTimeout
  {
  }

  /** The request would save a first run that a signal cut short in the middle of a batch. */
  ghost predicate SavesCutShortRun(w: World, r: Request) {
    && !IsResumption(w, r.task) && r.target in w.agents && r.saveOk
    && CutShort(w.agents[r.target], r.rounds)
  }

  /** The request resumes the run, and the run pauses again inside a tool. */
  ghost predicate SavesPausedInside(codec: Codec, w: World, r: Request) {
    && IsResumption(w, r.task) && CanResume(codec, w, w.tasks[r.task.value].value, r.target)
    && r.memoryReadable && r.saveOk
    && PausedInside(w.agents[ResumptionAgent(codec, w.tasks[r.task.value].value, r.target)], r.rounds)
  }

  /** The request saves a message some of whose calls have no answer. */
  ghost predicate SavesUnanswered(codec: Codec, w: World, r: Request) {
    SavesCutShortRun(w, r) || SavesPausedInside(codec, w, r)
  }

  ghost predicate OrderlyRequest(r: Request) {
    r.input != [] && WellFormed(r.input) && Echoes(r.rounds)
  }

  predicate TasksConsistent(w: World) {
    forall i | 0 <= i < |w.tasks| && w.tasks[i].Some? :: TC.ConditionConsistent(w.tasks[i].value.status)
  }

  lemma SavedWellFormed(memory: seq<Message>, ms: seq<Message>, ok: bool)
    requires WellFormed(memory)
    ensures WellFormed(Saved(memory, ms, ok)) <==> !ok || WellFormed(ms)
  {
    WellFormedAppend(memory, ms);
  }

  /** A request leaves the stored transcript well formed exactly when it saves neither a
      first run that a signal cut short nor a resumption that pauses inside a tool. */
  lemma ProcessKeepsTranscript(codec: Codec, w: World, r: Request)
    requires WellFormed(w.memory) && TasksConsistent(w) && OrderlyRequest(r)
    ensures WellFormed(Process(codec, w, r).memory) <==> !SavesUnanswered(codec, w, r)
  {
    if IsResumption(w, r.task) {
      ResumptionKeepsTranscript(codec, w, r);
    } else if r.target in w.agents {
      FirstRunKeepsTranscript(codec, w, r);
    } else {
      ErrorKeepsTranscript(w, r);
    }
  }

  lemma ErrorKeepsTranscript(w: World, r: Request)
    requires WellFormed(w.memory) && WellFormed(r.input)
    ensures WellFormed(Saved(w.memory, r.input + [ERROR_MESSAGE], r.saveOk))
  {
    PlainWellFormed(ERROR_MESSAGE);
    WellFormedAppend(r.input, [ERROR_MESSAGE]);
    SavedWellFormed(w.memory, r.input + [ERROR_MESSAGE], r.saveOk);
  }

  lemma FirstRunKeepsTranscript(codec: Codec, w: World, r: Request)
    requires WellFormed(w.memory) && OrderlyRequest(r) && r.target in w.agents
    ensures WellFormed(FirstRun(codec, w, r).memory) <==> !(r.saveOk && CutShort(w.agents[r.target], r.rounds))
  {
    var agent, last := w.agents[r.target], r.input[|r.input| - 1];
    var context := PrepareMessages(agent, History(w, r), last);
    var run := Loop(agent, context, r.rounds);
    if CutShort(agent, r.rounds) {
      CutShortSignals(agent, context, r.rounds);
    }
    match run.stop
    case Answered | Signalled =>
      LoopShape(agent, context, r.rounds);
      WellFormedAppend(r.input, run.appended);
      SavedWellFormed(w.memory, r.input + run.appended, r.saveOk);
    case Paused(_) => SavedWellFormed(w.memory, r.input, r.saveOk);
    case _ => ErrorKeepsTranscript(w, r);
  }

  lemma ResumptionKeepsTranscript(codec: Codec, w: World, r: Request)
    requires WellFormed(w.memory) && TasksConsistent(w) && Echoes(r.rounds) && IsResumption(w, r.task)
    ensures WellFormed(Resumption(codec, w, r).memory) <==> !SavesPausedInside(codec, w, r)
  {
    var t := w.tasks[r.task.value].value;
    if CanResume(codec, w, t, r.target) && r.memoryReadable {
      var agent, calls := w.agents[ResumptionAgent(codec, t, r.target)], PendingCalls(codec, t).value;
      var results := ResumptionResults(t, calls, r.approvedSteps);
      OneResultPerCall(t, calls, r.approvedSteps);
      ResumeShape(agent, calls, results, w.memory, r.input, r.rounds);
      match Resume(agent, calls, results, Some(w.memory), r.input, r.rounds)
      case Finished(ms) => SavedWellFormed(w.memory, ms, r.saveOk);
      case NeedsApproval(_, partial) => SavedWellFormed(w.memory, partial, r.saveOk);
      case Failed =>
    }
  }

  /** What a request adds to the stored transcript never begins with a tool message,
      so it cannot make up for a transcript that is already broken. */
  lemma BrokenStaysBroken(codec: Codec, w: World, r: Request)
    requires !WellFormed(w.memory) && OrderlyRequest(r)
    ensures !WellFormed(Process(codec, w, r).memory)
  {
    var stored := Process(codec, w, r).memory;
    AddedFront(codec, w, r);
    assert stored == w.memory + stored[|w.memory|..];
    if WellFormed(stored) {
      SuffixCannotRepair(w.memory, stored[|w.memory|..]);
    }
  }

  lemma AddedFront(codec: Codec, w: World, r: Request)
    requires OrderlyRequest(r)
    ensures w.memory <= Process(codec, w, r).memory
    ensures var added := Process(codec, w, r).memory[|w.memory|..]; added == [] || !added[0].Tool?
  {
    var u := Process(codec, w, r);
    if !IsResumption(w, r.task) {
      assert u.memory == w.memory || u.memory[|w.memory|..][0] == r.input[0];
    } else if CanResume(codec, w, w.tasks[r.task.value].value, r.target) && r.memoryReadable {
      ResumedMemory(codec, w, r);
      var t := w.tasks[r.task.value].value;
      var agent, calls := w.agents[ResumptionAgent(codec, t, r.target)], PendingCalls(codec, t).value;
      var results := ResumptionResults(t, calls, r.approvedSteps);
      var run := Loop(agent, ResumptionContext(calls, results, w.memory, r.input), r.rounds);
      var produced := ResumptionBlock(calls, results) + run.appended;
      assert produced[0] == Assistant("", "", calls);
      if run.stop.Paused? {
        PausedAppends(agent, ResumptionContext(calls, results, w.memory, r.input), r.rounds);
      }
    }
  }

  /** An agent that gates nothing, asked for two calls of which the first terminates. */
  function TwoCalls(name: string): Request {
    var a, b := ToolCall("1", "stop", ""), ToolCall("2", "search", "");
    Request(None, name, [User("hi")], "c", 0, true, true, true, [],
            [Reply("", [a, b], [Ran(ToolResult("1", "stop", "", ""), TerminateTeam)])])
  }

  /** Such a request is orderly, saves a run cut short, and breaks the stored transcript. */
  lemma CutShortRunIsSaved(codec: Codec, name: string)
    ensures var w := World(map[name := Agent(name, "", map[])], [], [], [], []);
      var r := TwoCalls(name);
      && OrderlyRequest(r) && SavesCutShortRun(w, r)
      && WellFormed(w.memory) && !WellFormed(Process(codec, w, r).memory)
  {
    var w, r := World(map[name := Agent(name, "", map[])], [], [], [], []), TwoCalls(name);
    var round := r.rounds[0];
    PlainWellFormed(r.input[0]);
    assert r.input == [r.input[0]];
    assert round.steps[0].Ran? && FirstFault(round.steps, 0);
    ProcessKeepsTranscript(codec, w, r);
  }

  const PAY := ToolCall("1", "pay", "")
  const HELP := ToolCall("2", "helper", "")
  const SEND := ToolCall("3", "send", "")

  /** The agent gates one tool, and calls without a gate a helper that gates another. */
  function Helped(config: ApprovalConfig): map<string, Agent> {
    map["x" := Agent("x", "", map["pay" := config]), "helper" := Agent("helper", "", map["send" := config])]
  }

  /** The approved payment of the agent, as its task records it. */
  function ApprovedPayment(codec: Codec, config: ApprovalConfig): TC.Task {
    var t := ApprovalTask(codec, Pause("x", [PAY], config), "c", 0);
    t.(status := TC.SetCompleted(t.status.(phase := TS.Completed), true, TS.ApprovalGranted))
  }

  function HelpedWorld(codec: Codec, config: ApprovalConfig): World {
    World(Helped(config), [User("hi")], [Some(ApprovedPayment(codec, config))], [Some(Pause("x", [PAY], config))], [])
  }

  /** After the payment the agent calls its helper, which asks for approval itself. */
  function CallsHelper(config: ApprovalConfig): Request {
    var step := RunAsTool(Helped(config)["helper"], HELP, Some("go"), [Reply("", [SEND], [])]);
    Request(Some(0), "x", [User("ok")], "c", 1, true, true, true, [], [Reply("", [HELP], [step])])
  }

  /** The resumption waits for the helper's call, and what it saves ends in a call without an answer. */
  lemma PauseInsideIsSaved(codec: Codec, config: ApprovalConfig)
    requires RoundTrips(codec)
    ensures var w, r := HelpedWorld(codec, config), CallsHelper(config);
      var u := Process(codec, w, r);
      && OrderlyRequest(r) && TasksConsistent(w) && !SavesCutShortRun(w, r) && SavesPausedInside(codec, w, r)
      && u.origins == w.origins + [Some(Pause("helper", [SEND], config))]
      && WellFormed(w.memory) && !WellFormed(u.memory)
  {
    var w, r := HelpedWorld(codec, config), CallsHelper(config);
    HelperPauses(config);
    HelperRequestOrderly(config);
    HelperPausesInside(codec, config);
    HelpedConsistent(codec, config);
    ResumptionPauses(codec, w, r, Pause("helper", [SEND], config));
    ResumptionKeepsTranscript(codec, w, r);
  }

  lemma HelpedConsistent(codec: Codec, config: ApprovalConfig)
    ensures TasksConsistent(HelpedWorld(codec, config)) && WellFormed(HelpedWorld(codec, config).memory)
  {
    PlainWellFormed(User("hi"));
  }

  lemma HelperRequestOrderly(config: ApprovalConfig)
    ensures OrderlyRequest(CallsHelper(config))
  {
    var r := CallsHelper(config);
    AgentToolsEcho(Helped(config)["helper"], HELP, Some("go"), [Reply("", [SEND], [])]);
    PlainWellFormed(User("ok"));
    assert r.rounds[0].calls == [HELP];
  }

  lemma HelperPausesInside(codec: Codec, config: ApprovalConfig)
    requires RoundTrips(codec)
    ensures var w, r := HelpedWorld(codec, config), CallsHelper(config);
      IsResumption(w, r.task) && SavesPausedInside(codec, w, r)
  {
    var w, r := HelpedWorld(codec, config), CallsHelper(config);
    var round := r.rounds[0];
    HelperPauses(config);
    assert FirstFault(round.steps, 0) && round.steps[0].fault.AsksApproval?;
    assert AsksAmong(round.calls, round.steps);
    AskPauses(round.calls, round.steps);
    assert Gated(Helped(config)["x"], [HELP]) == [] by {
      assert [HELP][1..] == [];
    }
    assert ApprovedPayment(codec, config).status.metadata["context"] == codec.encodeContext("x");
    assert ApprovedPayment(codec, config).status.metadata["toolCalls"] == codec.encodeCalls([PAY]);
  }

  lemma HelperPauses(config: ApprovalConfig)
    ensures RunAsTool(Helped(config)["helper"], HELP, Some("go"), [Reply("", [SEND], [])]).fault
            == AsksApproval(Pause("helper", [SEND], config))
  {
    var helper := Helped(config)["helper"];
    assert [SEND][1..] == [];
    assert Gated(helper, [SEND]) == [SEND];
  }

  lemma ResumptionPauses(codec: Codec, w: World, r: Request, pause: Pause)
    requires SavesPausedInside(codec, w, r)
    requires |r.rounds| == 1 && r.rounds[0].Reply? && |r.rounds[0].calls| == 1 == |r.rounds[0].steps|
    requires r.rounds[0].steps[0].Ran? && r.rounds[0].steps[0].fault == AsksApproval(pause)
    ensures Resumption(codec, w, r).origins == w.origins + [Some(pause)]
  {
  }

  /** The conversations a request hands to the model. */
  function ModelRequests(codec: Codec, w: World, r: Request): seq<seq<Message>>
    requires r.input != []
  {
    if IsResumption(w, r.task) then
      var t := w.tasks[r.task.value].value;
      if !CanResume(codec, w, t, r.target) || !r.memoryReadable then []
      else
        var agent, calls := w.agents[ResumptionAgent(codec, t, r.target)], PendingCalls(codec, t).value;
        var results := ResumptionResults(t, calls, r.approvedSteps);
        Loop(agent, ResumptionContext(calls, results, w.memory, r.input), r.rounds).requests
    else if r.target !in w.agents then []
    else
      var agent := w.agents[r.target];
      Loop(agent, PrepareMessages(agent, History(w, r), r.input[|r.input| - 1]), r.rounds).requests
  }

  /** Every conversation handed to the model is well formed, also after a pause. */
  lemma ModelSeesWellFormed(codec: Codec, w: World, r: Request)
    requires WellFormed(w.memory) && TasksConsistent(w) && OrderlyRequest(r)
    ensures forall q | q in ModelRequests(codec, w, r) :: WellFormed(q)
  {
    if IsResumption(w, r.task) {
      var t := w.tasks[r.task.value].value;
      if CanResume(codec, w, t, r.target) && r.memoryReadable {
        var agent, calls := w.agents[ResumptionAgent(codec, t, r.target)], PendingCalls(codec, t).value;
        var results := ResumptionResults(t, calls, r.approvedSteps);
        OneResultPerCall(t, calls, r.approvedSteps);
        ResumeRequests(agent, calls, results, w.memory, r.input, r.rounds);
      }
    } else if r.target in w.agents {
      FirstRunRequests(w.agents[r.target], if r.historyReadable then w.memory else [], r.input, r.rounds);
    }
  }

  lemma SplitInput(s: seq<Message>, history: seq<Message>, input: seq<Message>)
    requires input != []
    ensures s + (history + input[..|input| - 1]) + [input[|input| - 1]] == s + history + input
  {
  }

  lemma FirstRunRequests(agent: Agent, history: seq<Message>, input: seq<Message>, rounds: seq<Round>)
    requires WellFormed(history) && WellFormed(input) && input != [] && Echoes(rounds)
    ensures var context := PrepareMessages(agent, history + input[..|input| - 1], input[|input| - 1]);
      forall q | q in Loop(agent, context, rounds).requests :: WellFormed(q)
  {
    var context := PrepareMessages(agent, history + input[..|input| - 1], input[|input| - 1]);
    PlainWellFormed(System(agent.prompt));
    WellFormedAppend([System(agent.prompt)], history);
    WellFormedAppend([System(agent.prompt)] + history, input);
    SplitInput([System(agent.prompt)], history, input);
    RequestsWellFormed(agent, context, rounds);
  }

  /** A first run that pauses stores only its input. That is all the run held before its
      last round exactly when it paused in its first round; and tools have run of which
      nothing is stored exactly when the first batch was not stopped at the gate. */
  lemma FirstPauseKeepsAllIffFirstRound(codec: Codec, w: World, r: Request)
    requires r.input != [] && !IsResumption(w, r.task) && r.target in w.agents && r.saveOk
    requires Loop(w.agents[r.target], PrepareMessages(w.agents[r.target], History(w, r), r.input[|r.input| - 1]),
                  r.rounds).stop.Paused?
    ensures var agent := w.agents[r.target];
      var run := Loop(agent, PrepareMessages(agent, History(w, r), r.input[|r.input| - 1]), r.rounds);
      var n := |run.appended| - |LastRound(agent, r.rounds)|;
      && r.rounds != [] && r.rounds[0].Reply? && n >= 0
      && (Process(codec, w, r).memory == w.memory + r.input + run.appended[..n] <==> !Continues(agent, r.rounds[0]))
      && (run.executed == [] <==> Gated(agent, r.rounds[0].calls) != [])
  {
    var agent := w.agents[r.target];
    var context := PrepareMessages(agent, History(w, r), r.input[|r.input| - 1]);
    BeforeThePause(agent, context, r.rounds);
    var run := Loop(agent, context, r.rounds);
    assert Process(codec, w, r).memory == w.memory + r.input;
    NothingAdded(w.memory + r.input, run.appended[..|run.appended| - |LastRound(agent, r.rounds)|]);
  }

  lemma NothingAdded(a: seq<Message>, b: seq<Message>)
    ensures a == a + b <==> b == []
  {
    assert |a + b| == |a| + |b|;
  }

  lemma PausedAppends(agent: Agent, context: seq<Message>, rounds: seq<Round>)
    requires Loop(agent, context, rounds).stop.Paused?
    ensures Loop(agent, context, rounds).appended != []
  {
  }

  /** After an answered first run that is saved, the stored conversation behind the
      system prompt is the model's last request and the answer, exactly when the history
      could be read or there was none. */
  lemma FirstRunStoresWhatTheModelSaw(codec: Codec, w: World, r: Request)
    requires r.input != [] && !IsResumption(w, r.task) && r.target in w.agents
    ensures var agent := w.agents[r.target];
      var run := Loop(agent, PrepareMessages(agent, History(w, r), r.input[|r.input| - 1]), r.rounds);
      var stored := Process(codec, w, r).memory;
      if !r.saveOk then stored == w.memory
      else run.stop.Answered? ==>
        (StoresLastRequest([System(agent.prompt)] + stored, run) <==> r.historyReadable || w.memory == [])
  {
    var agent := w.agents[r.target];
    var context := PrepareMessages(agent, History(w, r), r.input[|r.input| - 1]);
    var run := Loop(agent, context, r.rounds);
    if r.saveOk && run.stop.Answered? {
      AnsweredRequestIsComplete(agent, context, r.rounds);
      SplitFirst(agent, if r.historyReadable then w.memory else [], r.input, run.appended);
      if r.historyReadable || w.memory == [] {
        assert Process(codec, w, r).memory == (if r.historyReadable then w.memory else []) + (r.input + run.appended);
      } else {
        LongerThanShown(agent, w.memory, r.input, run);
      }
    }
  }

  /** With a memory that was not shown, more is stored than was shown. */
  lemma LongerThanShown(agent: Agent, memory: seq<Message>, input: seq<Message>, run: Run)
    requires memory != [] && input != [] && run.requests != [] && run.appended != []
    requires |run.requests[|run.requests| - 1]| == 1 + |input| + |run.appended| - 1 && run.stop.Answered?
    ensures !StoresLastRequest([System(agent.prompt)] + (memory + (input + run.appended)), run)
  {
  }

  lemma SplitFirst(agent: Agent, memory: seq<Message>, input: seq<Message>, c: seq<Message>)
    requires input != [] && c != []
    ensures var context := PrepareMessages(agent, memory + input[..|input| - 1], input[|input| - 1]);
      [System(agent.prompt)] + (memory + (input + c)) == (context + c[..|c| - 1]) + [c[|c| - 1]]
  {
    var s := [System(agent.prompt)];
    assert s + (memory + input[..|input| - 1]) + [input[|input| - 1]] == (s + memory) + input;
    SplitLast(s + memory, input, c);
    assert s + (memory + (input + c)) == (s + memory) + (input + c);
  }

  lemma ResumedMemory(codec: Codec, w: World, r: Request)
    requires IsResumption(w, r.task) && r.memoryReadable
    requires CanResume(codec, w, w.tasks[r.task.value].value, r.target)
    ensures var t := w.tasks[r.task.value].value;
      var agent, calls := w.agents[ResumptionAgent(codec, t, r.target)], PendingCalls(codec, t).value;
      var results := ResumptionResults(t, calls, r.approvedSteps);
      var run := Loop(agent, ResumptionContext(calls, results, w.memory, r.input), r.rounds);
      var produced := ResumptionBlock(calls, results) + run.appended;
      Resumption(codec, w, r).memory
      == if !r.saveOk then w.memory
         else if run.stop.Answered? then w.memory + produced
         else if run.stop.Paused? then w.memory + produced[..|produced| - 1]
         else w.memory
  {
  }

  /** After a resumption that is answered or pauses again, and is saved: what the model
      saw last is memory, or the input where memory is empty, and everything produced
      before the last round; what is stored is memory, the same, and of the last round
      all but the message a pause drops. So the stored conversation is the model's last
      request and the answer if there is one, exactly when memory was not empty or there
      was no input to fall back to, and the pause was not inside a tool. Any other
      resumption stores nothing. */
  lemma ResumptionStoresWhatTheModelSaw(codec: Codec, w: World, r: Request)
    requires IsResumption(w, r.task)
    requires CanResume(codec, w, w.tasks[r.task.value].value, r.target)
    ensures var t := w.tasks[r.task.value].value;
      var agent, calls := w.agents[ResumptionAgent(codec, t, r.target)], PendingCalls(codec, t).value;
      var results := ResumptionResults(t, calls, r.approvedSteps);
      var run := Loop(agent, ResumptionContext(calls, results, w.memory, r.input), r.rounds);
      var stored, last := Resumption(codec, w, r).memory, LastRound(agent, r.rounds);
      if r.memoryReadable && r.saveOk && (run.stop.Answered? || run.stop.Paused?) then
        StoredAgainstShown(w.memory, r.input, ResumptionBlock(calls, results), run, last, stored,
                           PausedInside(agent, r.rounds))
      else stored == w.memory
  {
    var t := w.tasks[r.task.value].value;
    var agent, calls := w.agents[ResumptionAgent(codec, t, r.target)], PendingCalls(codec, t).value;
    var results := ResumptionResults(t, calls, r.approvedSteps);
    var run := Loop(agent, ResumptionContext(calls, results, w.memory, r.input), r.rounds);
    if r.memoryReadable {
      ResumedMemory(codec, w, r);
      if r.saveOk && (run.stop.Answered? || run.stop.Paused?) {
        ResumedRunStores(agent, calls, results, w.memory, r.input, r.rounds, Resumption(codec, w, r).memory);
      }
    }
  }

  lemma ResumedRunStores(agent: Agent, calls: seq<ToolCall>, results: seq<ToolResult>, memory: seq<Message>,
                         input: seq<Message>, rounds: seq<Round>, stored: seq<Message>)
    requires var stop := Loop(agent, ResumptionContext(calls, results, memory, input), rounds).stop;
      stop.Answered? || stop.Paused?
    requires var run := Loop(agent, ResumptionContext(calls, results, memory, input), rounds);
      var produced := ResumptionBlock(calls, results) + run.appended;
      stored == memory + if run.stop.Answered? then produced else produced[..|produced| - 1]
    ensures var run := Loop(agent, ResumptionContext(calls, results, memory, input), rounds);
      StoredAgainstShown(memory, input, ResumptionBlock(calls, results), run, LastRound(agent, rounds), stored,
                         PausedInside(agent, rounds))
  {
    var context := ResumptionContext(calls, results, memory, input);
    LastRequestIsComplete(agent, context, rounds);
    if PausedInside(agent, rounds) {
      PausedInsidePauses(agent, context, rounds);
    }
    StoredAfter(calls, results, memory, input, Loop(agent, context, rounds), LastRound(agent, rounds), stored,
                PausedInside(agent, rounds));
  }

  /** The last request, and the answer behind it if the run was answered. */
  ghost predicate StoresLastRequest(stored: seq<Message>, run: Run) {
    && run.requests != [] && run.appended != []
    && stored == run.requests[|run.requests| - 1]
         + if run.stop.Answered? then [run.appended[|run.appended| - 1]] else []
  }

  /** What a saved resumption stored, against what the model saw last. */
  ghost predicate StoredAgainstShown(memory: seq<Message>, input: seq<Message>, block: seq<Message>, run: Run,
                                     last: seq<Message>, stored: seq<Message>, inside: bool) {
    && run.requests != [] && 0 < |last| <= |run.appended|
    && var before := block + run.appended[..|run.appended| - |last|];
       && run.requests[|run.requests| - 1] == (if memory == [] then input else memory) + before
       && stored == memory + before + (if run.stop.Answered? then last else last[..|last| - 1])
       && (memory != [] || input == [] ==> (StoresLastRequest(stored, run) <==> !inside))
       && (!inside ==> (StoresLastRequest(stored, run) <==> memory != [] || input == []))
  }

  lemma StoredAfter(calls: seq<ToolCall>, results: seq<ToolResult>, memory: seq<Message>, input: seq<Message>,
                    run: Run, last: seq<Message>, stored: seq<Message>, inside: bool)
    requires ShowedAllBefore(last, ResumptionContext(calls, results, memory, input), run) && (|last| == 1 <==> !inside)
    requires run.stop.Answered? ==> |last| == 1
    requires var produced := ResumptionBlock(calls, results) + run.appended;
      stored == memory + if run.stop.Answered? then produced else produced[..|produced| - 1]
    ensures StoredAgainstShown(memory, input, ResumptionBlock(calls, results), run, last, stored, inside)
  {
    var front := run.appended[..|run.appended| - |last|];
    assert run.appended == front + last;
    SplitRound(memory, ResumptionBlock(calls, results), front, last);
    assert run.stop.Answered? ==> [run.appended[|run.appended| - 1]] == last;
  }

  lemma SplitRound(memory: seq<Message>, block: seq<Message>, front: seq<Message>, last: seq<Message>)
    requires last != []
    ensures var all := block + (front + last);
      && memory + all == memory + (block + front) + last
      && memory + all[..|all| - 1] == memory + (block + front) + last[..|last| - 1]
  {
  }

  lemma SplitLast(a: seq<Message>, b: seq<Message>, c: seq<Message>)
    requires c != []
    ensures a + (b + c) == ((a + b) + c[..|c| - 1]) + [c[|c| - 1]]
    ensures a + (b + c)[..|b + c| - 1] == (a + b) + c[..|c| - 1]
  {
    assert c == c[..|c| - 1] + [c[|c| - 1]];
  }
}
