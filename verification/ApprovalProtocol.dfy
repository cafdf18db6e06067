/** The approval protocol as a whole: requests, the task controller, users and
    administrators take turns in any order, over any number of pauses. */
module ApprovalProtocol {
  import opened Messages
  import opened AgentLoop
  import opened Approvals
  import TS = TaskStatus
  import TC = TaskController

  datatype Move =
    | Serve(request: Request)
    | Advance(task: nat, event: TC.Event)          // the controller wakes, or a user writes the task's input
    | AddRemoteTask(remote: TC.Task)               // a task of an external agent appears
    | EditAgents(agents: map<string, Agent>)

  function Next(codec: Codec, fmt: TC.Formats, w: World, m: Move): World {
    match m
    case Serve(r) => if r.input == [] then w else Process(codec, w, r)
    case Advance(i, event) =>
      if i < |w.tasks| then w.(tasks := w.tasks[i := TC.Step(fmt, w.tasks[i], event)]) else w
    case AddRemoteTask(t) =>
      if t.spec.hasServer && TC.ConditionConsistent(t.status)
      then w.(tasks := w.tasks + [Some(t)], origins := w.origins + [None]) else w
    case EditAgents(agents) => w.(agents := agents)
  }

  function RunProtocol(codec: Codec, fmt: TC.Formats, w: World, moves: seq<Move>): World
    decreases |moves|
  {
    if moves == [] then w else RunProtocol(codec, fmt, Next(codec, fmt, w, moves[0]), moves[1..])
  }

  /** Where an approval task can be: still waiting, consented to, denied, or failed
      by a decision that could not be read. */
  predicate ApprovalStatus(s: TS.Status) {
    || s.phase.InputRequired?
    || (s.completed.Some? && s.phase.Completed? && TC.ConsentReason(s.completed.value.reason))
    || (s.completed.Some? && s.phase.Failed?
        && (TC.DenialReason(s.completed.value.reason) || s.completed.value.reason.InvalidApprovalDecision?))
  }

  predicate TaskOk(codec: Codec, t: TC.Task, origin: Option<Pause>) {
    && TC.ConditionConsistent(t.status)
    && (origin.Some? <==> !t.spec.hasServer)
    && (origin.Some? ==>
          && ApprovalStatus(t.status) && t.status.metadata == ApprovalMetadata(codec, origin.value)
          && origin.value.pending != [])
  }

  /** A gated call ran only for an approval task that asked for it; and that task,
      unless deleted since, is completed with consent. */
  predicate ExecOk(w: World, e: Exec) {
    && (e.gated ==> e.task.Some?)
    && (e.task.Some? ==>
          && e.task.value < |w.tasks| == |w.origins| && w.origins[e.task.value].Some?
          && e.call in w.origins[e.task.value].value.pending
          && (w.tasks[e.task.value].Some? ==> ConsentedTo(w.tasks[e.task.value].value)))
  }

  predicate ConsentedTo(t: TC.Task) {
    t.status.phase.Completed? && t.status.completed.Some? && TC.ConsentReason(t.status.completed.value.reason)
  }

  predicate Safe(codec: Codec, w: World) {
    && |w.tasks| == |w.origins|
    && (forall i | 0 <= i < |w.tasks| && w.tasks[i].Some? :: TaskOk(codec, w.tasks[i].value, w.origins[i]))
    && (forall e | e in w.executed :: ExecOk(w, e))
  }

  lemma ApprovalTaskStep(codec: Codec, fmt: TC.Formats, t: TC.Task, origin: Option<Pause>, event: TC.Event)
    requires TaskOk(codec, t, origin)
    ensures var u := TC.Step(fmt, Some(t), event);
      u.Some? ==> TaskOk(codec, u.value, origin) && (ConsentedTo(t) ==> ConsentedTo(u.value))
  {
    if TS.Terminal(t.status.phase) {
      TC.TerminalIsAbsorbing(fmt, t, [event]);
      assert TC.Life(fmt, Some(t), [event]) == TC.Life(fmt, TC.Step(fmt, Some(t), event), []);
    } else if event.Wake? {
      TC.ReconcileConsistent(fmt, t, event.env);
      if origin.Some? {
        WaitingTaskStep(fmt, t, event.env);
      }
    }
  }

  lemma WaitingTaskStep(fmt: TC.Formats, t: TC.Task, env: TC.Env)
    requires !t.spec.hasServer && t.status.phase.InputRequired? && TC.ConditionConsistent(t.status)
    ensures var u := TC.Reconcile(fmt, t, env).stored;
      u.Some? ==> ApprovalStatus(u.value.status) && u.value.status.metadata == t.status.metadata
  {
    if TC.Alive(t, env.now) {
      if t.status.completed.None? {
        TC.FirstWake(fmt, t, env);
      } else {
        TC.WaitingWake(fmt, t, env);
        DecidedStatus(fmt, t.status, t.spec.input, env.now);
      }
    }
  }

  lemma DecidedStatus(fmt: TC.Formats, s: TS.Status, input: string, now: int)
    ensures var check := TC.ApprovalTimeout(fmt, s, now);
      check.Expired? ==> ApprovalStatus(check.status) && check.status.metadata == s.metadata
    ensures var decided := TC.ApprovalDecision(fmt, s, input, now);
      decided.Some? ==> ApprovalStatus(decided.value) && decided.value.metadata == s.metadata
  {
  }

  lemma AdvanceIsSafe(codec: Codec, fmt: TC.Formats, w: World, i: nat, event: TC.Event)
    requires Safe(codec, w) && i < |w.tasks|
    ensures Safe(codec, Next(codec, fmt, w, Advance(i, event)))
  {
    if w.tasks[i].Some? {
      ApprovalTaskStep(codec, fmt, w.tasks[i].value, w.origins[i], event);
    }
    var w' := Next(codec, fmt, w, Advance(i, event));
    forall e | e in w'.executed ensures ExecOk(w', e) {
      assert ExecOk(w, e);
    }
  }

  lemma LoopExecsOk(agent: Agent, context: seq<Message>, rounds: seq<Round>, w: World)
    requires Echoes(rounds)
    ensures forall e | e in Execs(Loop(agent, context, rounds).executed, agent, None) :: ExecOk(w, e)
  {
    OnlyUngatedRun(agent, context, rounds);
  }

  /** Later tasks and another memory do not disturb what is known of earlier calls. */
  lemma ExecOkGrows(w: World, w': World)
    requires |w.tasks| == |w.origins| && |w'.tasks| == |w'.origins|
    requires w.tasks <= w'.tasks && w.origins <= w'.origins
    ensures forall e | ExecOk(w, e) :: ExecOk(w', e)
  {
  }

  lemma AwaitIsSafe(codec: Codec, w: World, p: Pause, r: Request)
    requires Safe(codec, w) && p.pending != []
    ensures Safe(codec, Await(codec, w, p, r))
  {
    ExecOkGrows(w, Await(codec, w, p, r));
  }

  lemma AddExecs(codec: Codec, w: World, more: seq<Exec>, memory: seq<Message>)
    requires Safe(codec, w) && forall e | e in more :: ExecOk(w, e)
    ensures Safe(codec, w.(executed := w.executed + more, memory := memory))
  {
    var w' := w.(executed := w.executed + more, memory := memory);
    ExecOkGrows(w, w');
  }

  lemma FirstRunIsSafe(codec: Codec, w: World, r: Request)
    requires Safe(codec, w) && r.input != [] && Echoes(r.rounds)
    ensures Safe(codec, FirstRun(codec, w, r))
  {
    var w1 := FirstRun(codec, w, r);
    if r.target !in w.agents {
      AddExecs(codec, w, [], w1.memory);
      assert w.executed + [] == w.executed;
    } else {
      var agent := w.agents[r.target];
      var context := PrepareMessages(agent, History(w, r), r.input[|r.input| - 1]);
      var run := Loop(agent, context, r.rounds);
      LoopExecsOk(agent, context, r.rounds, w);
      var w2 := w.(executed := w.executed + Execs(run.executed, agent, None), memory := w1.memory);
      AddExecs(codec, w, Execs(run.executed, agent, None), w1.memory);
      if run.stop.Paused? {
        LoopShape(agent, context, r.rounds);
        AwaitIsSafe(codec, w2, run.stop.pause, r);
      }
    }
  }

  /** What an approved task runs is what its pause asked for. */
  lemma ApprovedExecsOk(codec: Codec, w: World, agent: Agent, i: nat)
    requires RoundTrips(codec) && Safe(codec, w) && i < |w.tasks| && w.tasks[i].Some?
    requires Resumable(w.tasks[i].value) && w.tasks[i].value.status.phase.Completed?
    ensures PendingCalls(codec, w.tasks[i].value).Some?
    ensures forall e | e in Execs(PendingCalls(codec, w.tasks[i].value).value, agent, Some(i)) :: ExecOk(w, e)
  {
    var t := w.tasks[i].value;
    assert TaskOk(codec, t, w.origins[i]);
    var p := w.origins[i].value;
    assert t.status.metadata["toolCalls"] == codec.encodeCalls(p.pending);
    assert ConsentedTo(t);
  }

  lemma ResumptionIsSafe(codec: Codec, w: World, r: Request)
    requires RoundTrips(codec) && Safe(codec, w) && Echoes(r.rounds) && IsResumption(w, r.task)
    ensures Safe(codec, Resumption(codec, w, r))
  {
    var t := w.tasks[r.task.value].value;
    if CanResume(codec, w, t, r.target) {
      var agent, calls := w.agents[ResumptionAgent(codec, t, r.target)], PendingCalls(codec, t).value;
      var executed := if t.status.phase.Completed? then Execs(calls, agent, r.task) else [];
      if t.status.phase.Completed? {
        ApprovedExecsOk(codec, w, agent, r.task.value);
      }
      AddExecs(codec, w, executed, w.memory);
      if r.memoryReadable {
        ResumedRunIsSafe(codec, w, r, executed);
      }
    }
  }

  lemma ResumedRunIsSafe(codec: Codec, w: World, r: Request, executed: seq<Exec>)
    requires Safe(codec, w) && Echoes(r.rounds) && IsResumption(w, r.task)
    requires r.memoryReadable && CanResume(codec, w, w.tasks[r.task.value].value, r.target)
    requires var t := w.tasks[r.task.value].value;
      executed == if t.status.phase.Completed? then
                    Execs(PendingCalls(codec, t).value, w.agents[ResumptionAgent(codec, t, r.target)], r.task)
                  else []
    requires Safe(codec, w.(executed := w.executed + executed))
    ensures Safe(codec, Resumption(codec, w, r))
  {
    var t := w.tasks[r.task.value].value;
    var agent, calls := w.agents[ResumptionAgent(codec, t, r.target)], PendingCalls(codec, t).value;
    var context := ResumptionContext(calls, ResumptionResults(t, calls, r.approvedSteps), w.memory, r.input);
    var w1, run := w.(executed := w.executed + executed), Loop(agent, context, r.rounds);
    LoopExecsOk(agent, context, r.rounds, w1);
    var memory := Resumption(codec, w, r).memory;
    var w2 := w1.(executed := w1.executed + Execs(run.executed, agent, None), memory := memory);
    AddExecs(codec, w1, Execs(run.executed, agent, None), memory);
    ResumedWorld(codec, w, r, executed);
    if run.stop.Paused? {
      LoopShape(agent, context, r.rounds);
      AwaitIsSafe(codec, w2, run.stop.pause, r);
    }
  }

  /** What a resumption changes besides the memory. */
  lemma ResumedWorld(codec: Codec, w: World, r: Request, executed: seq<Exec>)
    requires IsResumption(w, r.task) && r.memoryReadable && CanResume(codec, w, w.tasks[r.task.value].value, r.target)
    requires var t := w.tasks[r.task.value].value;
      executed == if t.status.phase.Completed? then
                    Execs(PendingCalls(codec, t).value, w.agents[ResumptionAgent(codec, t, r.target)], r.task)
                  else []
    ensures var t := w.tasks[r.task.value].value;
      var agent, calls := w.agents[ResumptionAgent(codec, t, r.target)], PendingCalls(codec, t).value;
      var context := ResumptionContext(calls, ResumptionResults(t, calls, r.approvedSteps), w.memory, r.input);
      var run, u := Loop(agent, context, r.rounds), Resumption(codec, w, r);
      var w2 := w.(executed := w.executed + executed + Execs(run.executed, agent, None), memory := u.memory);
      u == if run.stop.Paused? then Await(codec, w2, run.stop.pause, r) else w2
  {
  }

  lemma MoveIsSafe(codec: Codec, fmt: TC.Formats, w: World, m: Move)
    requires RoundTrips(codec) && Safe(codec, w) && (m.Serve? ==> Echoes(m.request.rounds))
    ensures Safe(codec, Next(codec, fmt, w, m))
  {
    match m
    case Serve(r) =>
      if r.input != [] {
        if IsResumption(w, r.task) { ResumptionIsSafe(codec, w, r); } else { FirstRunIsSafe(codec, w, r); }
      }
    case Advance(i, event) => if i < |w.tasks| { AdvanceIsSafe(codec, fmt, w, i, event); }
    case AddRemoteTask(t) => ExecOkGrows(w, Next(codec, fmt, w, m));
    case EditAgents(agents) => ExecOkGrows(w, Next(codec, fmt, w, m));
  }

  /** Over every run of the protocol a gated call is executed only for an approval
      task that paused for it, was consented to, and stays so. */
  lemma {:induction false} GateSafety(codec: Codec, fmt: TC.Formats, w: World, moves: seq<Move>)
    requires RoundTrips(codec) && Safe(codec, w)
    requires forall m | m in moves :: m.Serve? ==> Echoes(m.request.rounds)
    ensures Safe(codec, RunProtocol(codec, fmt, w, moves))
    decreases |moves|
  {
    if moves != [] {
      MoveIsSafe(codec, fmt, w, moves[0]);
      GateSafety(codec, fmt, Next(codec, fmt, w, moves[0]), moves[1..]);
    }
  }

  /** Read from the start, with any agents, any memory and no task yet: a call its
      agent gates runs only for a task whose pause asked for that very call, and
      that task, if it still exists, is completed with consent. */
  lemma NoGatedCallWithoutConsent(codec: Codec, fmt: TC.Formats, agents: map<string, Agent>, memory: seq<Message>,
                                  moves: seq<Move>)
    requires RoundTrips(codec) && forall m | m in moves :: m.Serve? ==> Echoes(m.request.rounds)
    ensures var w := RunProtocol(codec, fmt, World(agents, memory, [], [], []), moves);
      |w.tasks| == |w.origins| &&
      forall e | e in w.executed && e.gated ::
        && e.task.Some? && e.task.value < |w.tasks| && w.origins[e.task.value].Some?
        && e.call in w.origins[e.task.value].value.pending
        && (w.tasks[e.task.value].Some? ==> ConsentedTo(w.tasks[e.task.value].value))
  {
    GateSafety(codec, fmt, World(agents, memory, [], [], []), moves);
    var w := RunProtocol(codec, fmt, World(agents, memory, [], [], []), moves);
    assert forall e | e in w.executed :: ExecOk(w, e);
  }

  /** Every request comes with well-formed input and tools that echo. */
  ghost predicate OrderlyRequests(moves: seq<Move>) {
    forall m | m in moves :: m.Serve? ==> OrderlyRequest(m.request)
  }

  /** No request of the run saves a first run that a signal cut short or a resumption
      that pauses inside a tool. */
  ghost predicate NothingUnanswered(codec: Codec, fmt: TC.Formats, w: World, moves: seq<Move>)
    decreases |moves|
  {
    moves != [] ==>
      && (moves[0].Serve? ==> !SavesUnanswered(codec, w, moves[0].request))
      && NothingUnanswered(codec, fmt, Next(codec, fmt, w, moves[0]), moves[1..])
  }

  lemma SafeTasksConsistent(codec: Codec, w: World)
    requires Safe(codec, w)
    ensures TasksConsistent(w)
  {
    forall i | 0 <= i < |w.tasks| && w.tasks[i].Some? ensures TC.ConditionConsistent(w.tasks[i].value.status) {
      assert TaskOk(codec, w.tasks[i].value, w.origins[i]);
    }
  }

  /** Over every run, with any number of pauses and resumptions, the stored transcript
      is well formed in the end exactly when no request saved a first run that a signal
      cut short or a resumption that paused inside a tool. */
  lemma {:induction false} TranscriptStaysWellFormed(codec: Codec, fmt: TC.Formats, w: World, moves: seq<Move>)
    requires RoundTrips(codec) && Safe(codec, w) && WellFormed(w.memory) && OrderlyRequests(moves)
    ensures WellFormed(RunProtocol(codec, fmt, w, moves).memory) <==> NothingUnanswered(codec, fmt, w, moves)
    decreases |moves|
  {
    if moves != [] {
      var w1 := Next(codec, fmt, w, moves[0]);
      MoveIsSafe(codec, fmt, w, moves[0]);
      if moves[0].Serve? {
        SafeTasksConsistent(codec, w);
        ProcessKeepsTranscript(codec, w, moves[0].request);
      }
      if WellFormed(w1.memory) {
        TranscriptStaysWellFormed(codec, fmt, w1, moves[1..]);
      } else {
        TranscriptStaysBroken(codec, fmt, w1, moves[1..]);
      }
    }
  }

  lemma {:induction false} TranscriptStaysBroken(codec: Codec, fmt: TC.Formats, w: World, moves: seq<Move>)
    requires !WellFormed(w.memory) && OrderlyRequests(moves)
    ensures !WellFormed(RunProtocol(codec, fmt, w, moves).memory)
    decreases |moves|
  {
    if moves != [] {
      if moves[0].Serve? {
        BrokenStaysBroken(codec, w, moves[0].request);
      }
      TranscriptStaysBroken(codec, fmt, Next(codec, fmt, w, moves[0]), moves[1..]);
    }
  }

  /** In every safe world a resumption has at least one result, exactly one for each
      call of the pause its task was made for, with that call's id and in its order: all
      of them from the tools when the task was consented to, all of them rejections when
      it was denied. */
  lemma ResumptionAnswersItsPause(codec: Codec, w: World, i: nat, steps: seq<ToolStep>)
    requires RoundTrips(codec) && Safe(codec, w) && IsResumption(w, Some(i))
    ensures w.origins[i].Some?
    ensures var t, pending := w.tasks[i].value, w.origins[i].value.pending;
      PendingCalls(codec, t) == Some(pending) &&
      var results := ResumptionResults(t, pending, steps);
      && |results| == |pending| > 0
      && (forall k | 0 <= k < |pending| :: results[k].id == pending[k].id)
      && (if ConsentedTo(t) then forall k | 0 <= k < |pending| :: TellsApproved(results[k], steps, k)
          else
            && t.status.phase.Failed? && t.status.completed.Some?
            && var byTimeLimit := t.status.completed.value.reason.ApprovalTimeoutRejected?;
               forall k | 0 <= k < |pending| :: TellsDenied(results[k], pending[k], byTimeLimit))
  {
    var t := w.tasks[i].value;
    assert TaskOk(codec, t, w.origins[i]);
    var p := w.origins[i].value;
    assert t.status.metadata["toolCalls"] == codec.encodeCalls(p.pending);
    OneResultPerCall(t, p.pending, steps);
  }

  /** A pause nobody decides: from its second wake on the task waits until the limit
      of the gated tool's own configuration has passed since the pause, and then ends
      by that configuration's policy. */
  lemma UndecidedPauseFollowsItsConfig(codec: Codec, fmt: TC.Formats, p: Pause, contextId: string, paused: int,
                                       first: TC.Env, second: TC.Env)
    requires p.config.timeout != "" && fmt.duration(p.config.timeout).Some?
    requires p.config.onTimeout in {"proceed", "reject", ""}
    requires var t := ApprovalTask(codec, p, contextId, paused); TC.Alive(t, first.now) && TC.Alive(t, second.now)
    requires first.statusWriteOk && second.statusWriteOk
    ensures var waiting := TC.Reconcile(fmt, ApprovalTask(codec, p, contextId, paused), first).stored;
      && waiting.Some? && waiting.value.status.phase.InputRequired?
      && var ended := TC.Reconcile(fmt, waiting.value, second).stored;
         ended.Some? &&
         if second.now - paused >= fmt.duration(p.config.timeout).value then
           TC.EndsAs(waiting.value.status, ended.value.status, p.config.onTimeout == "proceed",
                     if p.config.onTimeout == "proceed" then TS.ApprovalTimeoutProceeded
                     else TS.ApprovalTimeoutRejected, second.now)
         else ended.value.status == waiting.value.status
  {
    var t := TC.Reconcile(fmt, ApprovalTask(codec, p, contextId, paused), first).stored.value;
    TC.Settlement(fmt, t, second);
  }

  /** An approval task can be resumed exactly when it has ended and its decision
      could be read; the resumption goes to the agent that paused, with the calls
      it paused for, and takes place exactly when the task names its conversation and
      that agent exists. */
  lemma ResumptionMatchesPause(codec: Codec, w: World, i: nat, target: string)
    requires RoundTrips(codec) && Safe(codec, w)
    requires i < |w.tasks| && w.tasks[i].Some? && w.origins[i].Some?
    ensures var t, p := w.tasks[i].value, w.origins[i].value;
      && (IsResumption(w, Some(i)) <==>
            TS.Terminal(t.status.phase) && !t.status.completed.value.reason.InvalidApprovalDecision?)
      && PendingCalls(codec, t) == Some(p.pending)
      && ResumptionAgent(codec, t, target) == (if p.agentName != "" then p.agentName else target)
      && (CanResume(codec, w, t, target) <==>
            t.spec.contextId != "" && (if p.agentName != "" then p.agentName else target) in w.agents)
  {
    var t, p := w.tasks[i].value, w.origins[i].value;
    assert TaskOk(codec, t, w.origins[i]);
    assert t.status.metadata["toolCalls"] == codec.encodeCalls(p.pending);
    assert t.status.metadata["context"] == codec.encodeContext(p.agentName);
  }
}
