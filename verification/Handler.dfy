/** The request handler as it works: on the memory and the tasks it updates in place. */
module Handler {
  import opened Messages
  import opened AgentLoop
  import opened Approvals
  import TS = TaskStatus
  import TC = TaskController

  class Server {
    var agents: map<string, Agent>
    var memory: seq<Message>
    var tasks: seq<Option<TC.Task>>
    ghost var origins: seq<Option<Pause>>
    ghost var executed: seq<Exec>

    ghost function View(): World
      reads this
    {
      World(agents, memory, tasks, origins, executed)
    }

    constructor (agents: map<string, Agent>, memory: seq<Message>)
      ensures View() == World(agents, memory, [], [], [])
    {
      this.agents, this.memory, tasks := agents, memory, [];
      origins, executed := [], [];
    }

    method AddMessages(ms: seq<Message>, ok: bool)
      modifies this`memory
      ensures memory == Saved(old(memory), ms, ok)
    {
      if ok {
        memory := memory + ms;
      }
    }

    method CheckResumption(task: Option<nat>) returns (resumes: bool)
      ensures resumes == IsResumption(View(), task)
    {
      if task.None? || task.value >= |tasks| || tasks[task.value].None? {
        return false;
      }
      var t := tasks[task.value].value;
      if t.spec.hasServer {
        return false;
      }
      if t.status.phase.Completed? {
        return true;
      }
      resumes := ResumableDenial(t);
    }

    method HandleApprovalRequired(codec: Codec, pause: Pause, r: Request)
      modifies this
      ensures View() == Await(codec, old(View()), pause, r)
    {
      tasks := tasks + [Some(ApprovalTask(codec, pause, r.contextId, r.now))];
      origins := origins + [Some(pause)];
    }

    /** Runs the pending calls of an approved task, or turns each into an error. */
    method CollectResults(t: TC.Task, calls: seq<ToolCall>, steps: seq<ToolStep>, agent: Agent, ghost task: Option<nat>)
      returns (results: seq<ToolResult>)
      modifies this`executed
      ensures results == ResumptionResults(t, calls, steps)
      ensures executed == old(executed) + if t.status.phase.Completed? then Execs(calls, agent, task) else []
    {
      var isApproved, isRejected := t.status.phase.Completed?, t.status.phase.Failed?;
      results := [];
      for i := 0 to |calls|
        invariant results == if isApproved || isRejected then ResumptionResults(t, calls, steps)[..i] else []
        invariant executed == old(executed) + if isApproved then Execs(calls, agent, task)[..i] else []
      {
        if isApproved {
          executed := executed + [Exec(calls[i], calls[i].name in agent.gate, task)];
          results := results + [ApprovedResult(calls[i], StepAt(steps, i))];
        } else if isRejected {
          results := results + [ToolResult(calls[i].id, calls[i].name, "", RejectionError(t))];
        }
      }
    }

    method HandleResumption(codec: Codec, r: Request) returns (outcome: Outcome)
      requires IsResumption(View(), r.task)
      modifies this`executed
      ensures var w, t := old(View()), tasks[r.task.value].value;
        if !CanResume(codec, w, t, r.target) then outcome == Failed && executed == old(executed)
        else
          var agent, calls := w.agents[ResumptionAgent(codec, t, r.target)], PendingCalls(codec, t).value;
          var results := ResumptionResults(t, calls, r.approvedSteps);
          && outcome == Resume(agent, calls, results, MemoryRead(w, r.memoryReadable), r.input, r.rounds)
          && executed == old(executed) + (if t.status.phase.Completed? then Execs(calls, agent, r.task) else [])
               + if r.memoryReadable
                 then Execs(Loop(agent, ResumptionContext(calls, results, w.memory, r.input), r.rounds).executed, agent, None)
                 else []
    {
      outcome := Failed;
      var t := tasks[r.task.value].value;
      var calls := PendingCalls(codec, t);
      if t.spec.contextId == "" || calls.None? {
        return;
      }
      var name := ResumptionAgent(codec, t, r.target);
      if name !in agents {
        return;
      }
      var agent := agents[name];
      var results := CollectResults(t, calls.value, r.approvedSteps, agent, r.task);
      outcome := ResumeFromApproval(agent, calls.value, results,
                                    if r.memoryReadable then Some(memory) else None, r.input, r.rounds);
      if r.memoryReadable {
        ghost var run := Loop(agent, ResumptionContext(calls.value, results, memory, r.input), r.rounds);
        executed := executed + Execs(run.executed, agent, None);
      }
    }

    method ProcessMessage(codec: Codec, r: Request)
      requires r.input != []
      modifies this
      ensures View() == Process(codec, old(View()), r)
    {
      var resumes := CheckResumption(r.task);
      if resumes {
        ServeResumption(codec, r);
      } else {
        ServeFirstRun(codec, r);
      }
    }

    method ServeResumption(codec: Codec, r: Request)
      requires IsResumption(View(), r.task)
      modifies this
      ensures View() == Resumption(codec, old(View()), r)
    {
      var outcome := HandleResumption(codec, r);
      match outcome
      case Finished(ms) => AddMessages(ms, r.saveOk);
      case NeedsApproval(pause, partial) =>
        if |partial| > 0 {
          AddMessages(partial, r.saveOk);
        }
        HandleApprovalRequired(codec, pause, r);
      case Failed =>
    }

    method ServeFirstRun(codec: Codec, r: Request)
      requires r.input != []
      modifies this
      ensures View() == FirstRun(codec, old(View()), r)
    {
      if r.target !in agents {
        AddMessages(r.input + [ERROR_MESSAGE], r.saveOk);
        return;
      }
      var agent := agents[r.target];
      var history := (if r.historyReadable then memory else []) + r.input[..|r.input| - 1];
      var outcome, run := ExecuteLocally(agent, history, r.input[|r.input| - 1], r.rounds);
      executed := executed + Execs(run.executed, agent, None);
      match outcome
      case Finished(ms) => AddMessages(r.input + ms, r.saveOk);
      case NeedsApproval(pause, _) =>
        AddMessages(r.input, r.saveOk);
        HandleApprovalRequired(codec, pause, r);
      case Failed => AddMessages(r.input + [ERROR_MESSAGE], r.saveOk);
    }
  }
}
