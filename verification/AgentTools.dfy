/** An agent that another agent calls as a tool. */
module AgentTools {
  import opened Messages
  import opened AgentLoop

  /** The last thing an assistant said. */
  function LastSaid(ms: seq<Message>): string {
    if ms == [] then ""
    else
      var last := ms[|ms| - 1];
      if last.Assistant? && last.content != "" then last.content else LastSaid(ms[..|ms| - 1])
  }

  /** The agent runs on the input alone, without history. Unreadable arguments are None.
      Whatever stops it other than an answer or a signal is handed on as it is, beside a
      result that carries the call's id. */
  function RunAsTool(inner: Agent, call: ToolCall, input: Option<string>, rounds: seq<Round>): ToolStep {
    if input.None? then Ran(ToolResult(call.id, call.name, "", "bad arguments"), ToolError("bad arguments"))
    else
      match Execute(inner, [], User(input.value), rounds)
      case Finished(ms) =>
        var said := LastSaid(ms);
        if said == "" then Ran(ToolResult(call.id, call.name, "", "no answer"), ToolError("no answer"))
        else Ran(ToolResult(call.id, call.name, said, ""), NoFault)
      case NeedsApproval(pause, _) =>
        Ran(ToolResult(call.id, call.name, "", "failed to execute"), AsksApproval(pause))
      case Failed => Ran(ToolResult(call.id, call.name, "", "failed to execute"), ToolError("failed"))
  }

  /** The message at `i` is the last of an assistant that says anything. */
  predicate SaysLast(ms: seq<Message>, i: nat)
    requires i < |ms|
  {
    && ms[i].Assistant? && ms[i].content != ""
    && forall j | i < j < |ms| :: ms[j].Assistant? ==> ms[j].content == ""
  }

  lemma {:induction false} LastSaidIs(ms: seq<Message>, i: nat)
    requires i < |ms| && SaysLast(ms, i)
    ensures LastSaid(ms) == ms[i].content
  {
    if i < |ms| - 1 {
      var init := ms[..|ms| - 1];
      assert forall j | 0 <= j < |init| :: init[j] == ms[j];
      LastSaidIs(init, i);
    }
  }

  lemma {:induction false} NothingSaid(ms: seq<Message>)
    ensures LastSaid(ms) == "" <==> forall i | 0 <= i < |ms| :: ms[i].Assistant? ==> ms[i].content == ""
  {
    if ms != [] {
      var init := ms[..|ms| - 1];
      NothingSaid(init);
      assert forall j | 0 <= j < |init| :: init[j] == ms[j];
    }
  }

  /** An agent that runs as a tool sees its prompt and the input only. Its answer is the
      last thing it said; without one, or when it stops otherwise, the result is an error. */
  lemma AgentToolAnswers(inner: Agent, call: ToolCall, input: string, rounds: seq<Round>)
    ensures var step := RunAsTool(inner, call, Some(input), rounds);
      var run := Loop(inner, [System(inner.prompt), User(input)], rounds);
      var said := LastSaid(run.appended);
      && step.Ran? && step.result.id == call.id && step.result.name == call.name
      && (if (run.stop.Answered? || run.stop.Signalled?) && said != "" then
            step.fault.NoFault? && step.result.content == said && step.result.error == ""
          else step.result.error != "" && step.result.content == ""
               && if run.stop.Paused? then step.fault == AsksApproval(run.stop.pause) else step.fault.ToolError?)
  {
    assert [System(inner.prompt)] + [] + [User(input)] == [System(inner.prompt), User(input)];
    assert "no answer"[0] == 'n' && "failed to execute"[0] == 'f';
  }

  /** What is assumed of tools holds of agents that run as tools, to any depth: their
      results carry the call's id, and a pause they hand on is for some call; it is the
      agent's own gate's unless a tool of that agent handed it on. */
  lemma AgentToolsEcho(inner: Agent, call: ToolCall, input: Option<string>, rounds: seq<Round>)
    requires Echoes(rounds)
    ensures StepsEcho([call], [RunAsTool(inner, call, input, rounds)])
    ensures var step := RunAsTool(inner, call, input, rounds);
      step.fault.AsksApproval? && !PausedInside(inner, rounds) ==>
        && step.fault.pause.agentName == inner.name
        && forall c | c in step.fault.pause.pending :: c.name in inner.gate
  {
    if input.Some? {
      LoopShape(inner, PrepareMessages(inner, [], User(input.value)), rounds);
    }
  }
}
