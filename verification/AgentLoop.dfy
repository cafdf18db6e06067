/** The agent's loop over model replies and tool calls, in a first run and after
    an approval. The model, the tools and the context's cancellation are an
    arbitrary script of rounds. */
module AgentLoop {
  import opened Messages

  datatype ApprovalConfig = ApprovalConfig(timeout: string, onTimeout: string)

  /** `gate` holds the approval configuration of every tool that requires one. */
  datatype Agent = Agent(name: string, prompt: string, gate: map<string, ApprovalConfig>)

  datatype ToolResult = ToolResult(id: string, name: string, content: string, error: string)

  /** Why an agent paused: its name, the calls that need approval, and how long to wait. */
  datatype Pause = Pause(agentName: string, pending: seq<ToolCall>, config: ApprovalConfig)

  /** How a tool failed. A tool that runs another agent hands on that agent's pause. */
  datatype Fault =
    | NoFault
    | ToolError(text: string)
    | TerminateTeam
    | SelectionMade(selected: string)
    | AsksApproval(pause: Pause)

  /** What happens when the loop comes to a tool call. */
  datatype ToolStep = ContextDone | Ran(result: ToolResult, fault: Fault)

  /** What happens in one pass of the loop. Missing tool steps, like a missing
      round, mean that the context was cancelled. */
  datatype Round =
    | Cancelled
    | ModelError
    | Reply(content: string, calls: seq<ToolCall>, steps: seq<ToolStep>)

  datatype Stop =
    | Answered
    | ContextCancelled
    | ModelFailed
    | ToolFailed
    | Signalled
    | Paused(pause: Pause)

  /** A tool's error text, when it has one, takes the place of its content. */
  function ToolMessage(r: ToolResult): Message {
    Tool(if r.error != "" then r.error else r.content, r.id)
  }

  /** Executors answer with the id of the call they were given, and a pause they hand
      on is a pause for some call. */
  predicate StepsEcho(calls: seq<ToolCall>, steps: seq<ToolStep>) {
    forall i | 0 <= i < |calls| && i < |steps| :: steps[i].Ran? ==>
      && steps[i].result.id == calls[i].id
      && (steps[i].fault.AsksApproval? ==> steps[i].fault.pause.pending != [])
  }

  predicate Echoes(rounds: seq<Round>) {
    forall i | 0 <= i < |rounds| :: rounds[i].Reply? ==> StepsEcho(rounds[i].calls, rounds[i].steps)
  }

  /** The calls of a batch that need approval, in order. */
  function Gated(agent: Agent, calls: seq<ToolCall>): (gated: seq<ToolCall>)
    ensures forall c :: c in gated <==> c in calls && c.name in agent.gate
  {
    if calls == [] then []
    else if calls[0].name in agent.gate then [calls[0]] + Gated(agent, calls[1..])
    else Gated(agent, calls[1..])
  }

  datatype Turn = Turn(messages: seq<Message>, executed: seq<ToolCall>, stop: Option<Stop>)

  function FaultStop(fault: Fault): Stop
    requires !fault.NoFault?
  {
    match fault
    case ToolError(_) => ToolFailed
    case AsksApproval(pause) => Paused(pause)
    case _ => Signalled
  }

  /** Runs the calls one by one up to the first fault or cancellation. */
  function RunCalls(calls: seq<ToolCall>, steps: seq<ToolStep>): Turn {
    if calls == [] then Turn([], [], None)
    else if steps == [] || steps[0].ContextDone? then Turn([], [], Some(ContextCancelled))
    else
      var m, c := ToolMessage(steps[0].result), calls[0];
      if !steps[0].fault.NoFault? then Turn([m], [c], Some(FaultStop(steps[0].fault)))
      else
        var rest := RunCalls(calls[1..], steps[1..]);
        Turn([m] + rest.messages, [c] + rest.executed, rest.stop)
  }

  /** The pause for a batch with a gated call, under the first one's configuration. */
  function GatePause(agent: Agent, calls: seq<ToolCall>): Pause
    requires Gated(agent, calls) != []
  {
    var gated := Gated(agent, calls);
    Pause(agent.name, gated, agent.gate[gated[0].name])
  }

  /** A batch with a gated call pauses before any of its calls runs. */
  function RunBatch(agent: Agent, calls: seq<ToolCall>, steps: seq<ToolStep>): Turn {
    if Gated(agent, calls) != [] then Turn([], [], Some(Paused(GatePause(agent, calls)))) else RunCalls(calls, steps)
  }

  datatype Run = Run(
    appended: seq<Message>,          // messages added to the conversation
    stop: Stop,
    executed: seq<ToolCall>,         // calls handed to a tool
    requests: seq<seq<Message>>)     // conversations handed to the model

  function Loop(agent: Agent, context: seq<Message>, rounds: seq<Round>): Run
    decreases |rounds|
  {
    if rounds == [] || rounds[0].Cancelled? then Run([], ContextCancelled, [], [])
    else if rounds[0].ModelError? then Run([], ModelFailed, [], [context])
    else
      var a := Assistant(rounds[0].content, agent.name, rounds[0].calls);
      if a.calls == [] then Run([a], Answered, [], [context])
      else
        var t := RunBatch(agent, a.calls, rounds[0].steps);
        var block := [a] + t.messages;
        if t.stop.Some? then Run(block, t.stop.value, t.executed, [context])
        else
          var rest := Loop(agent, context + block, rounds[1..]);
          Run(block + rest.appended, rest.stop, t.executed + rest.executed, [context] + rest.requests)
  }

  /** The loop goes round again after this round. */
  predicate Continues(agent: Agent, round: Round) {
    && round.Reply? && round.calls != []
    && RunBatch(agent, round.calls, round.steps).stop.None?
  }

  /** The messages of one round. */
  function Block(agent: Agent, round: Round): seq<Message>
    requires round.Reply?
  {
    [Assistant(round.content, agent.name, round.calls)] + RunBatch(agent, round.calls, round.steps).messages
  }

  /** The calls run without a fault up to the i-th, which has one. */
  predicate FirstFault(steps: seq<ToolStep>, i: nat)
    requires i < |steps|
  {
    && (forall j | 0 <= j < i :: steps[j].Ran? && steps[j].fault.NoFault?)
    && steps[i].Ran? && !steps[i].fault.NoFault?
  }

  /** Some call other than the last of the batch raises the signal. */
  ghost predicate SignalsBeforeLast(calls: seq<ToolCall>, steps: seq<ToolStep>) {
    exists i :: 0 <= i < |steps| && i + 1 < |calls| && FirstFault(steps, i)
      && (steps[i].fault.TerminateTeam? || steps[i].fault.SelectionMade?)
  }

  /** Some call of the batch runs an agent that pauses. */
  ghost predicate AsksAmong(calls: seq<ToolCall>, steps: seq<ToolStep>) {
    exists i :: 0 <= i < |steps| && i < |calls| && FirstFault(steps, i) && steps[i].fault.AsksApproval?
  }

  /** The batch in which the run ends is cut short by a signal. */
  ghost predicate CutShort(agent: Agent, rounds: seq<Round>) {
    && rounds != []
    && if Continues(agent, rounds[0]) then CutShort(agent, rounds[1..])
       else rounds[0].Reply? && Gated(agent, rounds[0].calls) == []
            && SignalsBeforeLast(rounds[0].calls, rounds[0].steps)
  }

  /** The batch in which the run ends holds no gated call, and a call of it runs an
      agent that pauses. */
  ghost predicate PausedInside(agent: Agent, rounds: seq<Round>) {
    && rounds != []
    && if Continues(agent, rounds[0]) then PausedInside(agent, rounds[1..])
       else rounds[0].Reply? && Gated(agent, rounds[0].calls) == []
            && AsksAmong(rounds[0].calls, rounds[0].steps)
  }

  /** The messages of the round in which the run ends. */
  function LastRound(agent: Agent, rounds: seq<Round>): seq<Message> {
    if rounds == [] then []
    else if Continues(agent, rounds[0]) then LastRound(agent, rounds[1..])
    else if rounds[0].Reply? then Block(agent, rounds[0])
    else []
  }

  /** The answers of a batch are given in the order of its calls, one for each
      call that ran; all of them when the batch ran to its end. */
  lemma {:induction false} CallsAreAnswered(calls: seq<ToolCall>, steps: seq<ToolStep>)
    requires StepsEcho(calls, steps)
    ensures var t := RunCalls(calls, steps);
      && |t.messages| <= |calls| && t.executed == calls[..|t.messages|]
      && Answers(t.messages, t.executed)
      && (t.stop.None? ==> |t.messages| == |calls|)
      && (t.stop.Some? ==> !t.stop.value.Answered?)
      && (t.stop.Some? && t.stop.value.Paused? ==> t.messages != [] && t.stop.value.pause.pending != [])
  {
    if calls != [] && steps != [] && steps[0].Ran? && steps[0].fault.NoFault? {
      CallsAreAnswered(calls[1..], steps[1..]);
      var rest := RunCalls(calls[1..], steps[1..]);
      assert [calls[0]] + calls[1..][..|rest.messages|] == calls[..1 + |rest.messages|];
    }
  }

  /** What an answer says: the tool's error text, or its content when there is none. */
  predicate Tells(m: Message, r: ToolResult) {
    m.Tool? && m.callId == r.id && m.content == if r.error == "" then r.content else r.error
  }

  /** Each call that ran is answered with what its tool returned, and all but the last of
      them ran without a fault. */
  predicate ToldInOrder(calls: seq<ToolCall>, steps: seq<ToolStep>, t: Turn) {
    var n := |t.messages|;
    && n <= |calls| && n <= |steps| && t.executed == calls[..n]
    && (forall i | 0 <= i < n :: steps[i].Ran? && Tells(t.messages[i], steps[i].result))
    && (forall i | 0 <= i < n - 1 :: steps[i].fault.NoFault?)
  }

  /** After `n` calls the batch stops for the last one's fault, for a cancelled context, or
      because nothing is left. */
  predicate StopsAfter(calls: seq<ToolCall>, steps: seq<ToolStep>, stop: Option<Stop>, n: nat)
    requires n <= |calls| && n <= |steps| && (n > 0 ==> steps[n - 1].Ran?)
  {
    match stop
    case None => n == |calls| && (n > 0 ==> steps[n - 1].fault.NoFault?)
    case Some(stop) =>
      if n > 0 && !steps[n - 1].fault.NoFault? then
        match steps[n - 1].fault
        case ToolError(_) => stop == ToolFailed
        case AsksApproval(pause) => stop == Paused(pause)
        case _ => stop == Signalled
      else stop == ContextCancelled && n < |calls| && (n == |steps| || steps[n].ContextDone?)
  }

  /** How far a batch gets, what it answers, and why it stops. */
  lemma {:induction false} CallsStop(calls: seq<ToolCall>, steps: seq<ToolStep>)
    ensures var t := RunCalls(calls, steps);
      ToldInOrder(calls, steps, t) && StopsAfter(calls, steps, t.stop, |t.messages|)
  {
    if calls != [] && steps != [] && steps[0].Ran? {
      var m, c := ToolMessage(steps[0].result), calls[0];
      if steps[0].fault.NoFault? {
        CallsStop(calls[1..], steps[1..]);
        var rest := RunCalls(calls[1..], steps[1..]);
        ToldCons(calls, steps, rest);
        StopsCons(calls, steps, rest.stop, |rest.messages|);
        assert RunCalls(calls, steps) == Turn([m] + rest.messages, [c] + rest.executed, rest.stop);
      } else {
        assert [c] == calls[..1] && Tells(m, steps[0].result);
        assert RunCalls(calls, steps) == Turn([m], [c], Some(FaultStop(steps[0].fault)));
      }
    }
  }

  lemma ToldCons(calls: seq<ToolCall>, steps: seq<ToolStep>, rest: Turn)
    requires calls != [] && steps != [] && steps[0].Ran? && steps[0].fault.NoFault?
    requires ToldInOrder(calls[1..], steps[1..], rest)
    ensures ToldInOrder(calls, steps, Turn([ToolMessage(steps[0].result)] + rest.messages, [calls[0]] + rest.executed, rest.stop))
  {
    var messages := [ToolMessage(steps[0].result)] + rest.messages;
    assert [calls[0]] + calls[1..][..|rest.messages|] == calls[..|messages|];
    forall i | 0 < i < |messages|
      ensures steps[i] == steps[1..][i - 1] && steps[i].Ran? && Tells(messages[i], steps[i].result)
    {
      assert messages[i] == rest.messages[i - 1];
    }
  }

  lemma StopsCons(calls: seq<ToolCall>, steps: seq<ToolStep>, stop: Option<Stop>, n: nat)
    requires n < |calls| && n < |steps| && steps[0].Ran? && steps[0].fault.NoFault? && (n > 0 ==> steps[n].Ran?)
    requires StopsAfter(calls[1..], steps[1..], stop, n)
    ensures StopsAfter(calls, steps, stop, n + 1)
  {
    assert n > 0 ==> steps[1..][n - 1] == steps[n];
    assert n + 1 < |steps| ==> steps[1..][n] == steps[n + 1];
  }

  /** The gated calls keep their order and number. */
  lemma {:induction false} GatedSnoc(agent: Agent, calls: seq<ToolCall>, c: ToolCall)
    ensures Gated(agent, calls + [c]) == Gated(agent, calls) + if c.name in agent.gate then [c] else []
  {
    if calls == [] {
      assert [] + [c] == [c] && [c][1..] == [];
    } else {
      assert (calls + [c])[1..] == calls[1..] + [c];
      GatedSnoc(agent, calls[1..], c);
    }
  }

  lemma {:induction false} SignalLeavesUnanswered(calls: seq<ToolCall>, steps: seq<ToolStep>)
    requires RunCalls(calls, steps).stop == Some(Signalled)
    ensures |RunCalls(calls, steps).messages| < |calls| <==> SignalsBeforeLast(calls, steps)
  {
    if !steps[0].fault.NoFault? {
      if |calls| > 1 {
        assert FirstFault(steps, 0);
      }
    } else {
      var cs, ss := calls[1..], steps[1..];
      SignalLeavesUnanswered(cs, ss);
      if SignalsBeforeLast(cs, ss) {
        var i :| 0 <= i < |ss| && i + 1 < |cs| && FirstFault(ss, i);
        assert FirstFault(steps, i + 1);
      }
      if SignalsBeforeLast(calls, steps) {
        var i :| 0 <= i < |steps| && i + 1 < |calls| && FirstFault(steps, i);
        assert i > 0;
        assert FirstFault(ss, i - 1);
      }
    }
  }

  lemma {:induction false} FirstSignalStops(calls: seq<ToolCall>, steps: seq<ToolStep>)
    requires SignalsBeforeLast(calls, steps)
    ensures RunCalls(calls, steps).stop == Some(Signalled)
  {
    var i :| 0 <= i < |steps| && i + 1 < |calls| && FirstFault(steps, i)
             && (steps[i].fault.TerminateTeam? || steps[i].fault.SelectionMade?);
    if i > 0 {
      assert FirstFault(steps[1..], i - 1);
      FirstSignalStops(calls[1..], steps[1..]);
    }
  }

  /** A batch without gated calls pauses exactly when one of its calls runs an agent that pauses. */
  lemma {:induction false} AskPauses(calls: seq<ToolCall>, steps: seq<ToolStep>)
    ensures var stop := RunCalls(calls, steps).stop;
      stop.Some? && stop.value.Paused? <==> AsksAmong(calls, steps)
  {
    if calls != [] && steps != [] && steps[0].Ran? {
      if !steps[0].fault.NoFault? {
        assert FirstFault(steps, 0);
      } else {
        var cs, ss := calls[1..], steps[1..];
        AskPauses(cs, ss);
        if AsksAmong(cs, ss) {
          var i :| 0 <= i < |ss| && i < |cs| && FirstFault(ss, i) && ss[i].fault.AsksApproval?;
          assert FirstFault(steps, i + 1);
        }
        if AsksAmong(calls, steps) {
          var i :| 0 <= i < |steps| && i < |calls| && FirstFault(steps, i) && steps[i].fault.AsksApproval?;
          assert i > 0;
          assert FirstFault(ss, i - 1);
        }
      }
    }
  }

  /** Call `i` is the first of the batch that needs approval. */
  predicate FirstGated(agent: Agent, calls: seq<ToolCall>, i: nat)
    requires i < |calls|
  {
    && calls[i].name in agent.gate
    && forall j | 0 <= j < i :: calls[j].name !in agent.gate
  }

  /** The pause is the agent's own, for all gated calls and under the first one's configuration. */
  ghost predicate PausesAtGate(agent: Agent, calls: seq<ToolCall>, pause: Pause) {
    && pause.agentName == agent.name && pause.pending == Gated(agent, calls) != []
    && exists i: nat | i < |calls| :: FirstGated(agent, calls, i) && pause.config == agent.gate[calls[i].name]
  }

  lemma {:induction false} FirstOfGated(agent: Agent, calls: seq<ToolCall>) returns (i: nat)
    requires Gated(agent, calls) != []
    ensures i < |calls| && FirstGated(agent, calls, i) && Gated(agent, calls)[0] == calls[i]
  {
    if calls[0].name in agent.gate {
      i := 0;
    } else {
      i := FirstOfGated(agent, calls[1..]);
      assert forall j | 0 < j < |calls| :: calls[j] == calls[1..][j - 1];
      i := i + 1;
    }
  }

  lemma GateAsks(agent: Agent, calls: seq<ToolCall>)
    requires Gated(agent, calls) != []
    ensures PausesAtGate(agent, calls, GatePause(agent, calls))
  {
    var i := FirstOfGated(agent, calls);
    assert FirstGated(agent, calls, i);
  }

  /** What a run leaves behind, by the way it stops. A final answer leaves a
      well-formed transcript. A pause at the gate leaves exactly one message unanswered,
      the last; a pause inside a tool has answered that tool's call, and without its
      last message the transcript is not well formed. A signal leaves a well-formed
      transcript exactly when no call stood behind the one that raised it. */
  ghost predicate LeavesBehind(agent: Agent, appended: seq<Message>, stop: Stop, cut: bool, inside: bool) {
    && (stop.Answered? ==> WellFormed(appended))
    && (inside ==> stop.Paused?)
    && (stop.Paused? ==>
          && appended != [] && stop.pause.pending != []
          && (WellFormed(appended[..|appended| - 1]) <==> !inside)
          && var last := appended[|appended| - 1];
             if inside then last.Tool?
             else last.Assistant? && PausesAtGate(agent, last.calls, stop.pause))
    && (stop.Signalled? ==> appended != [] && (WellFormed(appended) <==> !cut))
  }

  lemma LeavesBehindAfter(agent: Agent, block: seq<Message>, appended: seq<Message>, stop: Stop, cut: bool, inside: bool)
    requires WellFormed(block) && LeavesBehind(agent, appended, stop, cut, inside)
    ensures LeavesBehind(agent, block + appended, stop, cut, inside)
  {
    WellFormedAppend(block, appended);
    if stop.Paused? {
      PausedBehind(block, appended);
    }
  }

  lemma PausedBehind(block: seq<Message>, appended: seq<Message>)
    requires WellFormed(block) && appended != []
    ensures WellFormed((block + appended)[..|block + appended| - 1]) <==> WellFormed(appended[..|appended| - 1])
    ensures (block + appended)[|block + appended| - 1] == appended[|appended| - 1]
  {
    var init := appended[..|appended| - 1];
    WellFormedAppend(block, init);
    assert (block + appended)[..|block + appended| - 1] == block + init;
  }

  /** The loop's first round: either the run goes on after it, or it ends there. */
  lemma LoopGoesOn(agent: Agent, context: seq<Message>, rounds: seq<Round>)
    requires rounds != [] && rounds[0].Reply?
    ensures var t, block := RunBatch(agent, rounds[0].calls, rounds[0].steps), Block(agent, rounds[0]);
      Loop(agent, context, rounds)
      == if Continues(agent, rounds[0]) then
           var rest := Loop(agent, context + block, rounds[1..]);
           Run(block + rest.appended, rest.stop, t.executed + rest.executed, [context] + rest.requests)
         else if rounds[0].calls == [] then Run(block, Answered, [], [context])
         else Run(block, t.stop.value, t.executed, [context])
  {
    if rounds[0].calls == [] {
      assert [Assistant(rounds[0].content, agent.name, [])] + [] == [Assistant(rounds[0].content, agent.name, [])];
    }
  }

  /** How the last round of a run leaves the transcript. */
  lemma LastRoundShape(agent: Agent, round: Round)
    requires round.Reply? && StepsEcho(round.calls, round.steps) && !Continues(agent, round)
    ensures var t := RunBatch(agent, round.calls, round.steps);
      LeavesBehind(agent, Block(agent, round), if round.calls == [] then Answered else t.stop.value,
                   CutShort(agent, [round]), PausedInside(agent, [round]))
  {
    var a := Assistant(round.content, agent.name, round.calls);
    if round.calls == [] {
      PlainWellFormed(a);
      assert [a] + [] == [a];
    } else if Gated(agent, round.calls) != [] {
      GateAsks(agent, round.calls);
      assert [a] + [] == [a] && [a][..0] == [];
    } else {
      var t := RunCalls(round.calls, round.steps);
      CallsAreAnswered(round.calls, round.steps);
      AskPauses(round.calls, round.steps);
      BlockWellFormed(a, t.messages);
      if t.stop == Some(Signalled) {
        SignalLeavesUnanswered(round.calls, round.steps);
      }
      if t.stop.value.Paused? {
        PausedBlock(a, t.messages);
      }
    }
  }

  /** Without the last of the answers given the block is never well formed. */
  lemma PausedBlock(a: Message, answers: seq<Message>)
    requires a.Assistant? && 0 < |answers| <= |a.calls| && Answers(answers, a.calls[..|answers|])
    ensures var block := [a] + answers;
      !WellFormed(block[..|block| - 1]) && block[|block| - 1].Tool?
  {
    var block, init := [a] + answers, answers[..|answers| - 1];
    assert block[..|block| - 1] == [a] + init;
    assert forall i | 0 <= i < |init| :: init[i] == answers[i] && a.calls[..|answers|][i] == a.calls[..|init|][i];
    BlockWellFormed(a, init);
  }

  lemma ContinuedBlock(agent: Agent, round: Round)
    requires Continues(agent, round) && StepsEcho(round.calls, round.steps)
    ensures WellFormed(Block(agent, round))
  {
    CallsAreAnswered(round.calls, round.steps);
    BlockWellFormed(Assistant(round.content, agent.name, round.calls), RunCalls(round.calls, round.steps).messages);
  }

  /** Every run, of any length, leaves the transcript in that shape: a cut batch is the
      only way in which a signal spoils it, and a pause inside a tool the only way in
      which a pause does. */
  lemma {:induction false} LoopShape(agent: Agent, context: seq<Message>, rounds: seq<Round>)
    requires Echoes(rounds)
    ensures var r := Loop(agent, context, rounds);
      LeavesBehind(agent, r.appended, r.stop, CutShort(agent, rounds), PausedInside(agent, rounds))
    decreases |rounds|
  {
    if rounds != [] && rounds[0].Reply? {
      LoopGoesOn(agent, context, rounds);
      if Continues(agent, rounds[0]) {
        var block := Block(agent, rounds[0]);
        ContinuedBlock(agent, rounds[0]);
        LoopShape(agent, context + block, rounds[1..]);
        var rest := Loop(agent, context + block, rounds[1..]);
        LeavesBehindAfter(agent, block, rest.appended, rest.stop, CutShort(agent, rounds[1..]),
                          PausedInside(agent, rounds[1..]));
      } else {
        LastRoundShape(agent, rounds[0]);
      }
    }
  }

  lemma {:induction false} CutShortSignals(agent: Agent, context: seq<Message>, rounds: seq<Round>)
    requires CutShort(agent, rounds)
    ensures Loop(agent, context, rounds).stop.Signalled?
    decreases |rounds|
  {
    if Continues(agent, rounds[0]) {
      var block := Block(agent, rounds[0]);
      CutShortSignals(agent, context + block, rounds[1..]);
    } else {
      FirstSignalStops(rounds[0].calls, rounds[0].steps);
    }
  }

  lemma {:induction false} PausedInsidePauses(agent: Agent, context: seq<Message>, rounds: seq<Round>)
    requires PausedInside(agent, rounds)
    ensures Loop(agent, context, rounds).stop.Paused?
    decreases |rounds|
  {
    if Continues(agent, rounds[0]) {
      PausedInsidePauses(agent, context + Block(agent, rounds[0]), rounds[1..]);
    } else {
      AskPauses(rounds[0].calls, rounds[0].steps);
    }
  }

  /** Every conversation handed to the model is well formed. */
  lemma {:induction false} RequestsWellFormed(agent: Agent, context: seq<Message>, rounds: seq<Round>)
    requires Echoes(rounds) && WellFormed(context)
    ensures forall q :: q in Loop(agent, context, rounds).requests ==> WellFormed(q)
    decreases |rounds|
  {
    if rounds != [] && Continues(agent, rounds[0]) {
      LoopGoesOn(agent, context, rounds);
      ContinuedBlock(agent, rounds[0]);
      var block := Block(agent, rounds[0]);
      WellFormedAppend(context, block);
      RequestsWellFormed(agent, context + block, rounds[1..]);
    }
  }

  /** The run's last request was the context and all messages before the last round. */
  ghost predicate ShowedAllBefore(last: seq<Message>, context: seq<Message>, r: Run) {
    && r.requests != [] && 0 < |last| <= |r.appended|
    && r.appended[|r.appended| - |last|..] == last
    && r.requests[|r.requests| - 1] == context + r.appended[..|r.appended| - |last|]
  }

  lemma ShowedAllAfter(last: seq<Message>, context: seq<Message>, block: seq<Message>, rest: Run, r: Run)
    requires ShowedAllBefore(last, context + block, rest)
    requires r.appended == block + rest.appended && r.requests == [context] + rest.requests
    ensures ShowedAllBefore(last, context, r)
  {
    CompleteAfter(context, block, rest.appended, |last|);
  }

  /** The last round, of a run that ends with an answer or a pause, is a single message
      unless the pause was inside a tool. */
  lemma LastRoundAlone(agent: Agent, context: seq<Message>, round: Round)
    requires round.Reply? && !Continues(agent, round)
    requires round.calls == [] || RunBatch(agent, round.calls, round.steps).stop.value.Paused?
    ensures var block := Block(agent, round);
      && (|block| == 1 <==> !PausedInside(agent, [round]))
      && ShowedAllBefore(block, context, Run(block, Answered, [], [context]))
  {
    AskPauses(round.calls, round.steps);
    PausedWithMessages(round.calls, round.steps);
    var block := Block(agent, round);
    assert block[..0] == [] && context + [] == context && block[0..] == block;
  }

  /** A run that ends with an answer or a pause showed the model, in its last request,
      the whole conversation up to its last round; that round is a single message unless
      the pause was inside a tool. */
  lemma {:induction false} LastRequestIsComplete(agent: Agent, context: seq<Message>, rounds: seq<Round>)
    requires var stop := Loop(agent, context, rounds).stop; stop.Answered? || stop.Paused?
    ensures ShowedAllBefore(LastRound(agent, rounds), context, Loop(agent, context, rounds))
    ensures |LastRound(agent, rounds)| == 1 <==> !PausedInside(agent, rounds)
    decreases |rounds|
  {
    LoopGoesOn(agent, context, rounds);
    var r := Loop(agent, context, rounds);
    if Continues(agent, rounds[0]) {
      var block := Block(agent, rounds[0]);
      var rest := Loop(agent, context + block, rounds[1..]);
      LastRequestIsComplete(agent, context + block, rounds[1..]);
      ShowedAllAfter(LastRound(agent, rounds[1..]), context, block, rest, r);
    } else {
      if rounds[0].calls != [] {
        PausedWithMessages(rounds[0].calls, rounds[0].steps);
      }
      LastRoundAlone(agent, context, rounds[0]);
    }
  }

  /** What rounds that are answered by the model add to the conversation, one behind the other. */
  function Blocks(agent: Agent, rounds: seq<Round>): seq<Message>
    requires forall i | 0 <= i < |rounds| :: rounds[i].Reply?
  {
    if rounds == [] then []
    else [Assistant(rounds[0].content, agent.name, rounds[0].calls)]
         + RunBatch(agent, rounds[0].calls, rounds[0].steps).messages + Blocks(agent, rounds[1..])
  }

  /** The k-th request is the context with what the first k rounds added; and the run adds
      what all rounds did in which the model replied. */
  ghost predicate RoundByRound(agent: Agent, context: seq<Message>, rounds: seq<Round>, r: Run) {
    && |r.requests| <= |rounds|
    && (forall i | 0 <= i < |r.requests| - 1 :: Continues(agent, rounds[i]))
    && (forall k | 0 <= k < |r.requests| :: r.requests[k] == context + Blocks(agent, rounds[..k]))
    && var n := |r.requests|;
       if n > 0 && rounds[n - 1].Reply? then r.appended == Blocks(agent, rounds[..n])
       else r.appended == (if n == 0 then [] else Blocks(agent, rounds[..n - 1]))
  }

  lemma {:induction false} RequestsRoundByRound(agent: Agent, context: seq<Message>, rounds: seq<Round>)
    ensures RoundByRound(agent, context, rounds, Loop(agent, context, rounds))
    decreases |rounds|
  {
    var r := Loop(agent, context, rounds);
    if rounds != [] && Continues(agent, rounds[0]) {
      LoopGoesOn(agent, context, rounds);
      var block := Block(agent, rounds[0]);
      RequestsRoundByRound(agent, context + block, rounds[1..]);
      OneRoundMore(agent, context, rounds, Loop(agent, context + block, rounds[1..]), r);
    } else if rounds != [] && rounds[0].Reply? {
      LoopGoesOn(agent, context, rounds);
      OneRound(agent, context, rounds);
    } else {
      assert rounds[..0] == [] && context + [] == context;
    }
  }

  /** After `n` requests the run ends: for a cancelled context if the last round goes on or
      there was none; else for what that round comes to. */
  predicate EndsFor(agent: Agent, rounds: seq<Round>, n: nat, stop: Stop)
    requires n <= |rounds|
  {
    if n == 0 || Continues(agent, rounds[n - 1]) then
      stop == ContextCancelled && (n == |rounds| || rounds[n].Cancelled?)
    else match rounds[n - 1]
      case Cancelled => false
      case ModelError => stop == ModelFailed
      case Reply(_, calls, steps) =>
        if calls == [] then stop == Answered
        else if Gated(agent, calls) != [] then stop.Paused? && stop.pause.pending == Gated(agent, calls)
        else RunCalls(calls, steps).stop == Some(stop)
  }

  /** A run ends for nothing but its last round or a cancelled context. */
  lemma {:induction false} RunEndsFor(agent: Agent, context: seq<Message>, rounds: seq<Round>)
    ensures var r := Loop(agent, context, rounds);
      |r.requests| <= |rounds| && EndsFor(agent, rounds, |r.requests|, r.stop)
    decreases |rounds|
  {
    if rounds != [] && rounds[0].Reply? {
      LoopGoesOn(agent, context, rounds);
      if Continues(agent, rounds[0]) {
        RunEndsFor(agent, context + Block(agent, rounds[0]), rounds[1..]);
        var n := |Loop(agent, context, rounds).requests|;
        assert n > 1 ==> rounds[n - 1] == rounds[1..][n - 2];
        assert n < |rounds| ==> rounds[n] == rounds[1..][n - 1];
      }
    }
  }

  lemma OneRound(agent: Agent, context: seq<Message>, rounds: seq<Round>)
    requires rounds != [] && rounds[0].Reply?
    ensures Blocks(agent, rounds[..0]) == [] && context + [] == context
    ensures Blocks(agent, rounds[..1]) == Block(agent, rounds[0])
  {
    assert rounds[..1][1..] == [];
    assert Blocks(agent, rounds[..1]) == Block(agent, rounds[0]) + [];
  }

  lemma BlocksCons(agent: Agent, rounds: seq<Round>, k: nat)
    requires 0 < k <= |rounds| && forall i | 0 <= i < k :: rounds[i].Reply?
    ensures Blocks(agent, rounds[..k]) == Block(agent, rounds[0]) + Blocks(agent, rounds[1..][..k - 1])
  {
    assert rounds[..k][1..] == rounds[1..][..k - 1];
  }

  lemma OneRoundMore(agent: Agent, context: seq<Message>, rounds: seq<Round>, rest: Run, r: Run)
    requires rounds != [] && Continues(agent, rounds[0])
    requires RoundByRound(agent, context + Block(agent, rounds[0]), rounds[1..], rest)
    requires r.requests == [context] + rest.requests && r.appended == Block(agent, rounds[0]) + rest.appended
    ensures RoundByRound(agent, context, rounds, r)
  {
    var n := |r.requests|;
    forall i | 0 <= i < n - 1 ensures Continues(agent, rounds[i]) {
      if i > 0 {
        assert Continues(agent, rounds[1..][i - 1]);
      }
    }
    forall k | 0 <= k < n ensures r.requests[k] == context + Blocks(agent, rounds[..k]) {
      if k == 0 {
        assert context + Blocks(agent, rounds[..0]) == context;
      } else {
        BlocksCons(agent, rounds, k);
        assert r.requests[k] == rest.requests[k - 1];
        RegroupMessages(context, Block(agent, rounds[0]), Blocks(agent, rounds[1..][..k - 1]));
      }
    }
    AppendedRoundMore(agent, context, rounds, rest, r);
  }

  lemma RegroupMessages(a: seq<Message>, b: seq<Message>, c: seq<Message>)
    ensures (a + b) + c == a + (b + c)
  {
  }

  lemma AppendedRoundMore(agent: Agent, context: seq<Message>, rounds: seq<Round>, rest: Run, r: Run)
    requires rounds != [] && Continues(agent, rounds[0])
    requires RoundByRound(agent, context + Block(agent, rounds[0]), rounds[1..], rest)
    requires |r.requests| == 1 + |rest.requests| && r.appended == Block(agent, rounds[0]) + rest.appended
    requires forall i | 0 <= i < |r.requests| - 1 :: Continues(agent, rounds[i])
    ensures var n := |r.requests|;
      if rounds[n - 1].Reply? then r.appended == Blocks(agent, rounds[..n]) else r.appended == Blocks(agent, rounds[..n - 1])
  {
    var n, block := |r.requests|, Block(agent, rounds[0]);
    if n > 1 {
      assert rounds[n - 1] == rounds[1..][n - 2];
      BlocksCons(agent, rounds, if rounds[n - 1].Reply? then n else n - 1);
    } else {
      BlocksCons(agent, rounds, 1);
      assert rounds[1..][..0] == [] && block + [] == block;
    }
  }

  lemma AnsweredRequestIsComplete(agent: Agent, context: seq<Message>, rounds: seq<Round>)
    requires Loop(agent, context, rounds).stop.Answered?
    ensures var r := Loop(agent, context, rounds);
      && r.requests != [] && r.appended != []
      && r.requests[|r.requests| - 1] == context + r.appended[..|r.appended| - 1]
  {
    LastRequestIsComplete(agent, context, rounds);
    if PausedInside(agent, rounds) {
      PausedInsidePauses(agent, context, rounds);
    }
  }

  /** What stands before the last round of a run that pauses, and what has run by then. */
  lemma BeforeThePause(agent: Agent, context: seq<Message>, rounds: seq<Round>)
    requires Loop(agent, context, rounds).stop.Paused?
    ensures var r := Loop(agent, context, rounds);
      && rounds != [] && rounds[0].Reply? && |LastRound(agent, rounds)| <= |r.appended|
      && (r.appended[..|r.appended| - |LastRound(agent, rounds)|] == [] <==> !Continues(agent, rounds[0]))
      && (r.executed == [] <==> Gated(agent, rounds[0].calls) != [])
  {
    LoopGoesOn(agent, context, rounds);
    if Continues(agent, rounds[0]) {
      LastRequestIsComplete(agent, context + Block(agent, rounds[0]), rounds[1..]);
      BatchRan(rounds[0].calls, rounds[0].steps);
    } else {
      PausedWithMessages(rounds[0].calls, rounds[0].steps);
    }
  }

  /** A batch that ran to its end ran something. */
  lemma BatchRan(calls: seq<ToolCall>, steps: seq<ToolStep>)
    requires calls != [] && RunCalls(calls, steps).stop.None?
    ensures RunCalls(calls, steps).executed != []
  {
  }

  lemma CompleteAfter(context: seq<Message>, block: seq<Message>, appended: seq<Message>, n: nat)
    requires n <= |appended|
    ensures (context + block) + appended[..|appended| - n]
      == context + (block + appended)[..|block + appended| - n]
    ensures (block + appended)[|block + appended| - n..] == appended[|appended| - n..]
  {
    assert (block + appended)[..|block + appended| - n] == block + appended[..|appended| - n];
  }

  lemma {:induction false} PausedWithMessages(calls: seq<ToolCall>, steps: seq<ToolStep>)
    ensures var t := RunCalls(calls, steps);
      t.stop.Some? ==> !t.stop.value.Answered? && (t.stop.value.Paused? ==> t.messages != [] && t.executed != [])
  {
    if calls != [] && steps != [] {
      PausedWithMessages(calls[1..], steps[1..]);
    }
  }

  /** The ids answered by the tool messages of a transcript, in order. */
  function AnsweredIds(ms: seq<Message>): seq<string> {
    if ms == [] then []
    else if ms[0].Tool? then [ms[0].callId] + AnsweredIds(ms[1..])
    else AnsweredIds(ms[1..])
  }

  function Ids(calls: seq<ToolCall>): seq<string> {
    seq(|calls|, i requires 0 <= i < |calls| => calls[i].id)
  }

  lemma {:induction false} AnsweredIdsAppend(a: seq<Message>, b: seq<Message>)
    ensures AnsweredIds(a + b) == AnsweredIds(a) + AnsweredIds(b)
  {
    if a == [] {
      assert a + b == b;
    } else {
      assert (a + b)[1..] == a[1..] + b;
      AnsweredIdsAppend(a[1..], b);
    }
  }

  lemma IdsAppend(a: seq<ToolCall>, b: seq<ToolCall>)
    ensures Ids(a + b) == Ids(a) + Ids(b)
  {
  }

  lemma {:induction false} AnsweredIdsOfAnswers(ms: seq<Message>, calls: seq<ToolCall>)
    requires |ms| == |calls| && Answers(ms, calls)
    ensures AnsweredIds(ms) == Ids(calls)
  {
    if ms != [] {
      AnsweredIdsOfAnswers(ms[1..], calls[1..]);
      assert Ids(calls) == [calls[0].id] + Ids(calls[1..]);
    }
  }

  lemma BatchAnswers(agent: Agent, a: Message, steps: seq<ToolStep>)
    requires a.Assistant? && Gated(agent, a.calls) == [] && StepsEcho(a.calls, steps)
    ensures var t := RunBatch(agent, a.calls, steps);
      && (forall c | c in t.executed :: c.name !in agent.gate)
      && AnsweredIds([a] + t.messages) == Ids(t.executed)
  {
    var t := RunBatch(agent, a.calls, steps);
    CallsAreAnswered(a.calls, steps);
    AnsweredIdsOfAnswers(t.messages, t.executed);
    assert ([a] + t.messages)[1..] == t.messages;
    assert forall c | c in t.executed :: c in a.calls;
  }

  /** No gated call runs inside the loop, and the calls that ran are exactly the
      ones answered in the transcript, in order. With LoopShape: a batch that pauses at
      the gate runs none of its calls, gated or not. */
  lemma {:induction false} OnlyUngatedRun(agent: Agent, context: seq<Message>, rounds: seq<Round>)
    requires Echoes(rounds)
    ensures var r := Loop(agent, context, rounds);
      && (forall c | c in r.executed :: c.name !in agent.gate)
      && AnsweredIds(r.appended) == Ids(r.executed)
    decreases |rounds|
  {
    if rounds != [] && rounds[0].Reply? {
      LoopGoesOn(agent, context, rounds);
      var a := Assistant(rounds[0].content, agent.name, rounds[0].calls);
      var t := RunBatch(agent, a.calls, rounds[0].steps);
      if Gated(agent, a.calls) == [] {
        BatchAnswers(agent, a, rounds[0].steps);
      }
      if Continues(agent, rounds[0]) {
        var block := [a] + t.messages;
        OnlyUngatedRun(agent, context + block, rounds[1..]);
        var rest := Loop(agent, context + block, rounds[1..]);
        AnsweredIdsAppend(block, rest.appended);
        IdsAppend(t.executed, rest.executed);
      }
    }
  }

  method CollectGated(agent: Agent, calls: seq<ToolCall>) returns (needingApproval: seq<ToolCall>)
    ensures needingApproval == Gated(agent, calls)
  {
    needingApproval := [];
    for i := 0 to |calls|
      invariant needingApproval + Gated(agent, calls[i..]) == Gated(agent, calls)
    {
      assert calls[i..][0] == calls[i] && calls[i..][1..] == calls[i + 1..];
      if calls[i].name in agent.gate {
        needingApproval := needingApproval + [calls[i]];
      }
    }
  }

  /** `done` is what the first `i` calls contributed to the whole batch `t`. */
  ghost predicate Progress(done: Turn, t: Turn, calls: seq<ToolCall>, steps: seq<ToolStep>, i: nat)
    requires i <= |calls| && i <= |steps|
  {
    var rest := RunCalls(calls[i..], steps[i..]);
    && t.messages == done.messages + rest.messages
    && t.executed == done.executed + rest.executed
    && t.stop == rest.stop
  }

  lemma ProgressStep(done: Turn, t: Turn, calls: seq<ToolCall>, steps: seq<ToolStep>, i: nat)
    requires i < |calls| && i < |steps| && steps[i].Ran? && Progress(done, t, calls, steps, i)
    ensures var next := After(done, calls[i], ToolMessage(steps[i].result));
      && (steps[i].fault.NoFault? ==> Progress(next, t, calls, steps, i + 1))
      && (!steps[i].fault.NoFault? ==>
            t.messages == next.messages && t.executed == next.executed && t.stop == Some(FaultStop(steps[i].fault)))
  {
    assert calls[i..][1..] == calls[i + 1..] && steps[i..][1..] == steps[i + 1..];
    var rest := RunCalls(calls[i + 1..], steps[i + 1..]);
    var m := ToolMessage(steps[i].result);
    assert done.messages + ([m] + rest.messages) == (done.messages + [m]) + rest.messages;
    assert done.executed + ([calls[i]] + rest.executed) == (done.executed + [calls[i]]) + rest.executed;
  }

  /** `done` is what the first `i` rounds, all of which continued, contributed to the run `r`. */
  ghost predicate LoopProgress(done: Run, r: Run, agent: Agent, context: seq<Message>, rounds: seq<Round>, i: nat)
    requires i <= |rounds|
  {
    var rest := Loop(agent, context, rounds[i..]);
    && r.appended == done.appended + rest.appended
    && r.executed == done.executed + rest.executed
    && r.requests == done.requests + rest.requests
    && r.stop == rest.stop
  }

  /** What the run amounts to once it has taken round `i`. */
  function WithRound(done: Run, agent: Agent, context: seq<Message>, round: Round): Run
    requires round.Reply?
  {
    var t := RunBatch(agent, round.calls, round.steps);
    Run(done.appended + Block(agent, round),
        if round.calls == [] || t.stop.None? then Answered else t.stop.value,
        done.executed + t.executed, done.requests + [context])
  }

  lemma LoopProgressStep(done: Run, r: Run, agent: Agent, context: seq<Message>, rounds: seq<Round>, i: nat)
    requires i < |rounds| && LoopProgress(done, r, agent, context, rounds, i) && rounds[i].Reply?
    ensures
      var next := WithRound(done, agent, context, rounds[i]);
      if Continues(agent, rounds[i]) then
        LoopProgress(next, r, agent, context + Block(agent, rounds[i]), rounds, i + 1)
      else r == next
  {
    assert rounds[i..][0] == rounds[i] && rounds[i..][1..] == rounds[i + 1..];
    LoopGoesOn(agent, context, rounds[i..]);
    var t := RunBatch(agent, rounds[i].calls, rounds[i].steps);
    var block := Block(agent, rounds[i]);
    if Continues(agent, rounds[i]) {
      var rest := Loop(agent, context + block, rounds[i + 1..]);
      assert done.appended + (block + rest.appended) == (done.appended + block) + rest.appended;
      assert done.executed + (t.executed + rest.executed) == (done.executed + t.executed) + rest.executed;
      assert done.requests + ([context] + rest.requests) == (done.requests + [context]) + rest.requests;
    }
  }

  /** The fields of a conversation at one moment. */
  datatype Snapshot = Snapshot(agentMessages: seq<Message>, newMessages: seq<Message>,
                               executed: seq<ToolCall>, requests: seq<seq<Message>>)
  {
    /** Both lists receive the same messages. */
    function Grow(r: Run): Snapshot {
      Snapshot(agentMessages + r.appended, newMessages + r.appended,
               executed + r.executed, requests + r.requests)
    }
  }

  lemma GrowTwice(s: Snapshot, done: Run, agent: Agent, context: seq<Message>, round: Round)
    requires round.Reply?
    ensures var t := RunBatch(agent, round.calls, round.steps);
      var mid := s.Grow(done);
      mid.(requests := mid.requests + [context]).Grow(Run(Block(agent, round), Answered, t.executed, []))
      == s.Grow(WithRound(done, agent, context, round))
  {
    var t := RunBatch(agent, round.calls, round.steps);
    var block, mid := Block(agent, round), s.Grow(done);
    assert mid.agentMessages + block == s.agentMessages + (done.appended + block);
    assert mid.newMessages + block == s.newMessages + (done.appended + block);
    assert mid.executed + t.executed == s.executed + (done.executed + t.executed);
    assert mid.requests + [context] + [] == s.requests + (done.requests + [context]);
  }

  function Calls(t: Turn): Run {
    Run(t.messages, Answered, t.executed, [])
  }

  function After(done: Turn, call: ToolCall, m: Message): Turn {
    Turn(done.messages + [m], done.executed + [call], None)
  }

  lemma GrowByCall(s: Snapshot, done: Turn, call: ToolCall, m: Message)
    ensures var mid := s.Grow(Calls(done));
      Snapshot(mid.agentMessages + [m], mid.newMessages + [m], mid.executed + [call], mid.requests)
      == s.Grow(Calls(After(done, call, m)))
  {
    assert s.agentMessages + done.messages + [m] == s.agentMessages + (done.messages + [m]);
    assert s.newMessages + done.messages + [m] == s.newMessages + (done.messages + [m]);
    assert s.executed + done.executed + [call] == s.executed + (done.executed + [call]);
  }

  /** The conversation that began as `start` stands behind the first `i` calls of the batch. */
  ghost predicate CallsUnderway(now: Snapshot, start: Snapshot, done: Turn, calls: seq<ToolCall>, steps: seq<ToolStep>, i: nat) {
    && i <= |calls| && i <= |steps|
    && now == start.Grow(Calls(done)) && Progress(done, RunCalls(calls, steps), calls, steps, i)
  }

  lemma CallsBegin(start: Snapshot, calls: seq<ToolCall>, steps: seq<ToolStep>)
    ensures CallsUnderway(start, start, Turn([], [], None), calls, steps, 0)
  {
    assert calls[0..] == calls && steps[0..] == steps;
    assert start == start.Grow(Calls(Turn([], [], None)));
  }

  lemma CallStep(now: Snapshot, start: Snapshot, done: Turn, calls: seq<ToolCall>, steps: seq<ToolStep>, i: nat)
    requires CallsUnderway(now, start, done, calls, steps, i) && i < |calls| && i < |steps| && steps[i].Ran?
    ensures var t, m := RunCalls(calls, steps), ToolMessage(steps[i].result);
      var next := Snapshot(now.agentMessages + [m], now.newMessages + [m], now.executed + [calls[i]], now.requests);
      if steps[i].fault.NoFault? then CallsUnderway(next, start, After(done, calls[i], m), calls, steps, i + 1)
      else next == start.Grow(Calls(t)) && t.stop == Some(FaultStop(steps[i].fault))
  {
    GrowByCall(start, done, calls[i], ToolMessage(steps[i].result));
    ProgressStep(done, RunCalls(calls, steps), calls, steps, i);
  }

  lemma CallsEnd(now: Snapshot, start: Snapshot, done: Turn, calls: seq<ToolCall>, steps: seq<ToolStep>, i: nat)
    requires CallsUnderway(now, start, done, calls, steps, i)
    requires i == |calls| || i == |steps| || steps[i].ContextDone?
    ensures var t := RunCalls(calls, steps);
      now == start.Grow(Calls(t)) && t.stop == if i == |calls| then None else Some(ContextCancelled)
  {
    assert done.messages + [] == done.messages && done.executed + [] == done.executed;
  }

  /** The conversation that began as `start` stands before round `i` of the run `r`. */
  ghost predicate RoundsUnderway(now: Snapshot, start: Snapshot, done: Run, r: Run, agent: Agent, rounds: seq<Round>, i: nat) {
    i <= |rounds| && now == start.Grow(done) && LoopProgress(done, r, agent, now.agentMessages, rounds, i)
  }

  lemma RoundsBegin(start: Snapshot, agent: Agent, rounds: seq<Round>)
    ensures RoundsUnderway(start, start, Run([], Answered, [], []), Loop(agent, start.agentMessages, rounds), agent, rounds, 0)
  {
    assert rounds[0..] == rounds;
    assert start == start.Grow(Run([], Answered, [], []));
  }

  lemma RoundStep(now: Snapshot, start: Snapshot, done: Run, r: Run, agent: Agent, rounds: seq<Round>, i: nat)
    requires RoundsUnderway(now, start, done, r, agent, rounds, i) && i < |rounds| && rounds[i].Reply?
    ensures var t := RunBatch(agent, rounds[i].calls, rounds[i].steps);
      var asked := now.(requests := now.requests + [now.agentMessages]);
      var next := asked.Grow(Run(Block(agent, rounds[i]), Answered, t.executed, []));
      if Continues(agent, rounds[i]) then
        RoundsUnderway(next, start, WithRound(done, agent, now.agentMessages, rounds[i]), r, agent, rounds, i + 1)
      else next == start.Grow(r) && r.stop == if rounds[i].calls == [] then Answered else t.stop.value
  {
    GrowTwice(start, done, agent, now.agentMessages, rounds[i]);
    LoopProgressStep(done, r, agent, now.agentMessages, rounds, i);
  }

  lemma RoundsEnd(now: Snapshot, start: Snapshot, done: Run, r: Run, agent: Agent, rounds: seq<Round>, i: nat)
    requires RoundsUnderway(now, start, done, r, agent, rounds, i)
    requires i == |rounds| || rounds[i].Cancelled? || rounds[i].ModelError?
    ensures if i < |rounds| && rounds[i].ModelError?
      then now.(requests := now.requests + [now.agentMessages]) == start.Grow(r) && r.stop == ModelFailed
      else now == start.Grow(r) && r.stop == ContextCancelled
  {
    assert done.appended + [] == done.appended && done.executed + [] == done.executed;
    assert done.requests + [] == done.requests;
    if i < |rounds| && rounds[i].ModelError? {
      assert rounds[i..][0] == rounds[i];
      assert start.requests + (done.requests + [now.agentMessages]) == now.requests + [now.agentMessages];
    }
  }

  /** The conversation an agent works on: what the model sees, and what is new in this run. */
  class Conversation {
    var agentMessages: seq<Message>
    var newMessages: seq<Message>
    ghost var executed: seq<ToolCall>
    ghost var requests: seq<seq<Message>>

    constructor (agentMessages: seq<Message>, newMessages: seq<Message>)
      ensures this.agentMessages == agentMessages && this.newMessages == newMessages
      ensures executed == [] && requests == []
    {
      this.agentMessages, this.newMessages := agentMessages, newMessages;
      executed, requests := [], [];
    }

    ghost function Now(): Snapshot
      reads this
    {
      Snapshot(agentMessages, newMessages, executed, requests)
    }

    method ExecuteToolCalls(agent: Agent, calls: seq<ToolCall>, steps: seq<ToolStep>) returns (stop: Option<Stop>)
      modifies this
      ensures var t := RunBatch(agent, calls, steps);
        stop == t.stop && Now() == old(Now()).Grow(Calls(t))
    {
      var needingApproval := CollectGated(agent, calls);
      if needingApproval != [] {
        return Some(Paused(Pause(agent.name, needingApproval, agent.gate[needingApproval[0].name])));
      }

      ghost var start, done := Now(), Turn([], [], None);
      CallsBegin(start, calls, steps);
      var i := 0;
      while i < |calls|
        invariant 0 <= i && CallsUnderway(Now(), start, done, calls, steps, i)
      {
        if i == |steps| || steps[i].ContextDone? {
          CallsEnd(Now(), start, done, calls, steps, i);
          return Some(ContextCancelled);
        }
        CallStep(Now(), start, done, calls, steps, i);
        var m := ToolMessage(steps[i].result);
        executed := executed + [calls[i]];
        agentMessages := agentMessages + [m];
        newMessages := newMessages + [m];
        done := After(done, calls[i], m);
        if !steps[i].fault.NoFault? {
          return Some(FaultStop(steps[i].fault));
        }
        i := i + 1;
      }
      CallsEnd(Now(), start, done, calls, steps, i);
      stop := None;
    }

    /** Appends the model's reply and runs the calls it asks for. */
    method TakeTurn(agent: Agent, a: Message, steps: seq<ToolStep>) returns (stop: Option<Stop>)
      requires a.Assistant?
      modifies this
      ensures var t := RunBatch(agent, a.calls, steps);
        stop == t.stop && Now() == old(Now()).Grow(Run([a] + t.messages, Answered, t.executed, []))
    {
      agentMessages := agentMessages + [a];
      newMessages := newMessages + [a];
      stop := ExecuteToolCalls(agent, a.calls, steps);
      ghost var t := RunBatch(agent, a.calls, steps);
      assert old(agentMessages) + [a] + t.messages == old(agentMessages) + ([a] + t.messages);
      assert old(newMessages) + [a] + t.messages == old(newMessages) + ([a] + t.messages);
    }

    /** The loop shared by a first run and a resumption. */
    method RunAgenticLoop(agent: Agent, rounds: seq<Round>) returns (stop: Stop)
      modifies this
      ensures var r := Loop(agent, old(agentMessages), rounds);
        stop == r.stop && Now() == old(Now()).Grow(r)
    {
      ghost var r, start := Loop(agent, agentMessages, rounds), Now();
      ghost var done := Run([], Answered, [], []);
      RoundsBegin(start, agent, rounds);
      for i := 0 to |rounds|
        invariant RoundsUnderway(Now(), start, done, r, agent, rounds, i)
      {
        if rounds[i].Cancelled? {
          RoundsEnd(Now(), start, done, r, agent, rounds, i);
          return ContextCancelled;
        }
        if rounds[i].ModelError? {
          RoundsEnd(Now(), start, done, r, agent, rounds, i);
          requests := requests + [agentMessages];
          return ModelFailed;
        }
        RoundStep(Now(), start, done, r, agent, rounds, i);
        done := WithRound(done, agent, agentMessages, rounds[i]);
        requests := requests + [agentMessages];
        var a := Assistant(rounds[i].content, agent.name, rounds[i].calls);
        var err := TakeTurn(agent, a, rounds[i].steps);
        if a.calls == [] {
          return Answered;
        }
        if err.Some? {
          return err.value;
        }
      }
      RoundsEnd(Now(), start, done, r, agent, rounds, |rounds|);
      stop := ContextCancelled;
    }
  }

  /** The system prompt, the history and the current input open a first run. */
  function PrepareMessages(agent: Agent, history: seq<Message>, input: Message): seq<Message> {
    [System(agent.prompt)] + history + [input]
  }

  datatype Outcome =
    | Finished(messages: seq<Message>)
    | NeedsApproval(pause: Pause, partial: seq<Message>)
    | Failed

  /** A first run. A signal counts as an ordinary end; a pause keeps no message. */
  function Execute(agent: Agent, history: seq<Message>, input: Message, rounds: seq<Round>): Outcome {
    var r := Loop(agent, PrepareMessages(agent, history, input), rounds);
    match r.stop
    case Answered | Signalled => Finished(r.appended)
    case Paused(pause) => NeedsApproval(pause, [])
    case _ => Failed
  }

  function ToolMessages(results: seq<ToolResult>): seq<Message> {
    seq(|results|, i requires 0 <= i < |results| => ToolMessage(results[i]))
  }

  /** The message that triggered the approval, rebuilt, and its results. */
  function ResumptionBlock(calls: seq<ToolCall>, results: seq<ToolResult>): seq<Message> {
    [Assistant("", "", calls)] + ToolMessages(results)
  }

  function ResumptionContext(calls: seq<ToolCall>, results: seq<ToolResult>,
                             memory: seq<Message>, originalInput: seq<Message>): seq<Message> {
    (if memory == [] then originalInput else memory) + ResumptionBlock(calls, results)
  }

  /** A resumption. A signal counts as a failure; a further pause hands over
      everything but its last message, meant to be the unanswered one. */
  function Resume(agent: Agent, calls: seq<ToolCall>, results: seq<ToolResult>,
                  memory: Option<seq<Message>>, originalInput: seq<Message>, rounds: seq<Round>): Outcome {
    if memory.None? then Failed
    else
      var start := ResumptionBlock(calls, results);
      var r := Loop(agent, ResumptionContext(calls, results, memory.value, originalInput), rounds);
      match r.stop
      case Answered => Finished(start + r.appended)
      case Paused(pause) => NeedsApproval(pause, (start + r.appended)[..|start + r.appended| - 1])
      case _ => Failed
  }

  method ExecuteLocally(agent: Agent, history: seq<Message>, input: Message, rounds: seq<Round>)
    returns (outcome: Outcome, ghost run: Run)
    ensures outcome == Execute(agent, history, input, rounds)
    ensures run == Loop(agent, PrepareMessages(agent, history, input), rounds)
  {
    var conversation := new Conversation([System(agent.prompt)] + history + [input], []);
    var stop := conversation.RunAgenticLoop(agent, rounds);
    run := Loop(agent, PrepareMessages(agent, history, input), rounds);
    assert conversation.newMessages == run.appended;
    match stop
    case Answered | Signalled => outcome := Finished(conversation.newMessages);
    case Paused(pause) => outcome := NeedsApproval(pause, []);
    case _ => outcome := Failed;
  }

  method ReconstructMessages(calls: seq<ToolCall>, results: seq<ToolResult>,
                             memory: seq<Message>, originalInput: seq<Message>)
    returns (agentMessages: seq<Message>, newMessages: seq<Message>)
    ensures agentMessages == ResumptionContext(calls, results, memory, originalInput)
    ensures newMessages == ResumptionBlock(calls, results)
  {
    agentMessages := memory;
    if |agentMessages| == 0 && |originalInput| > 0 {
      agentMessages := originalInput;
    }
    var assistant := Assistant("", "", calls);
    agentMessages := agentMessages + [assistant];
    var toolResultMessages := [];
    ghost var before := agentMessages;
    for i := 0 to |results|
      invariant toolResultMessages == ToolMessages(results)[..i]
      invariant agentMessages == before + toolResultMessages
    {
      var m := ToolMessage(results[i]);
      agentMessages := agentMessages + [m];
      toolResultMessages := toolResultMessages + [m];
    }
    newMessages := [assistant] + toolResultMessages;
  }

  method ResumeFromApproval(agent: Agent, calls: seq<ToolCall>, results: seq<ToolResult>,
                            memory: Option<seq<Message>>, originalInput: seq<Message>, rounds: seq<Round>)
    returns (outcome: Outcome)
    ensures outcome == Resume(agent, calls, results, memory, originalInput, rounds)
  {
    if memory.None? {
      return Failed;
    }
    var agentMessages, newMessages := ReconstructMessages(calls, results, memory.value, originalInput);
    var conversation := new Conversation(agentMessages, newMessages);
    var stop := conversation.RunAgenticLoop(agent, rounds);
    newMessages := conversation.newMessages;
    match stop
    case Answered => outcome := Finished(newMessages);
    case Paused(pause) => outcome := NeedsApproval(pause, newMessages[..|newMessages| - 1]);
    case _ => outcome := Failed;
  }

  /** The rebuilt block is the message with the pending calls, unnamed, and each result's
      text behind it; with a result for every call it is well formed. */
  lemma BlockOfResults(calls: seq<ToolCall>, results: seq<ToolResult>)
    requires |results| == |calls| && forall i | 0 <= i < |calls| :: results[i].id == calls[i].id
    ensures var block := ResumptionBlock(calls, results);
      && WellFormed(block) && |block| == 1 + |calls| && block[0] == Assistant("", "", calls)
      && forall i | 0 <= i < |calls| :: Tells(block[1 + i], results[i])
  {
    var answers := ToolMessages(results);
    assert calls[..|answers|] == calls;
    BlockWellFormed(Assistant("", "", calls), answers);
  }

  /** When each pending call has its result, an answered resumption hands over
      well-formed messages, and one that pauses again does so exactly when the pause was
      not inside a tool. */
  lemma ResumeShape(agent: Agent, calls: seq<ToolCall>, results: seq<ToolResult>,
                    memory: seq<Message>, originalInput: seq<Message>, rounds: seq<Round>)
    requires Echoes(rounds)
    requires |results| == |calls| && forall i | 0 <= i < |calls| :: results[i].id == calls[i].id
    ensures match Resume(agent, calls, results, Some(memory), originalInput, rounds)
      case Finished(ms) => WellFormed(ms) && !PausedInside(agent, rounds)
      case NeedsApproval(pause, partial) =>
        partial != [] && pause.pending != [] && (WellFormed(partial) <==> !PausedInside(agent, rounds))
      case Failed => !PausedInside(agent, rounds)
  {
    var start := ResumptionBlock(calls, results);
    var context := ResumptionContext(calls, results, memory, originalInput);
    var r := Loop(agent, context, rounds);
    BlockOfResults(calls, results);
    LoopShape(agent, context, rounds);
    BehindResumption(agent, start, r, CutShort(agent, rounds), PausedInside(agent, rounds));
  }

  lemma BehindResumption(agent: Agent, start: seq<Message>, r: Run, cut: bool, inside: bool)
    requires WellFormed(start) && start != [] && LeavesBehind(agent, r.appended, r.stop, cut, inside)
    ensures inside ==> r.stop.Paused?
    ensures r.stop.Answered? ==> WellFormed(start + r.appended)
    ensures r.stop.Paused? ==>
      var all := start + r.appended;
      && r.stop.pause.pending != [] && all[..|all| - 1] != [] && (WellFormed(all[..|all| - 1]) <==> !inside)
  {
    WellFormedAppend(start, r.appended);
    if r.stop.Paused? {
      PausedBehind(start, r.appended);
    }
  }

  /** A resumption shows the model only well-formed conversations. */
  lemma ResumeRequests(agent: Agent, calls: seq<ToolCall>, results: seq<ToolResult>,
                       memory: seq<Message>, originalInput: seq<Message>, rounds: seq<Round>)
    requires Echoes(rounds) && WellFormed(memory) && WellFormed(originalInput)
    requires |results| == |calls| && forall i | 0 <= i < |calls| :: results[i].id == calls[i].id
    ensures var r := Loop(agent, ResumptionContext(calls, results, memory, originalInput), rounds);
      forall q :: q in r.requests ==> WellFormed(q)
  {
    BlockOfResults(calls, results);
    WellFormedAppend(if memory == [] then originalInput else memory, ResumptionBlock(calls, results));
    RequestsWellFormed(agent, ResumptionContext(calls, results, memory, originalInput), rounds);
  }
}
