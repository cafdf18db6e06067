/** The sequential team strategy, plain and looping. What members do, and when
    the context is cancelled, is an arbitrary script. */
module TeamSequential {
  import opened Messages

  /** `turnPrompt` renders the prompt of every turn but the first, and
      `limitText` the note that the turn limit was reached. */
  datatype Team = Team(members: seq<string>, maxTurns: Option<int>, turnPrompt: string -> string, limitText: string)

  /** A member's turn. `messages` is what it produced, also when it failed. */
  datatype Reply = Reply(messages: seq<Message>, terminates: bool, fails: bool)

  /** What happens at the next turn; after the script's end the context is cancelled. */
  datatype Step = ContextDone | Acts(reply: Reply)

  /** One turn: who had it, what it was given, and what it added to the conversation. */
  datatype TurnRecord = TurnRecord(member: nat, input: Message, history: seq<Message>, said: seq<Message>)

  datatype End = Complete | Terminated | MemberFailed | Cancelled | LimitReached

  datatype Run = Run(turns: seq<TurnRecord>, messages: seq<Message>, end: End)

  function WithName(ms: seq<Message>, name: string): seq<Message> {
    seq(|ms|, i requires 0 <= i < |ms| => if ms[i].Assistant? then ms[i].(name := name) else ms[i])
  }

  function MemberHistory(history: seq<Message>, input: Message, turns: seq<Message>, turn: nat): seq<Message> {
    if turn == 0 then history else history + [input] + turns
  }

  function TurnInput(t: Team, input: Message, member: nat, turn: nat): Message
    requires member < |t.members|
  {
    if turn == 0 then input else User(t.turnPrompt(t.members[member]))
  }

  function Record(t: Team, input: Message, history: seq<Message>, member: nat, turn: nat, soFar: seq<Message>,
                  reply: Reply): TurnRecord
    requires member < |t.members|
  {
    TurnRecord(member, TurnInput(t, input, member, turn), MemberHistory(history, input, soFar, turn),
               WithName(reply.messages, t.members[member]))
  }

  /** Nobody acts at turn `turn`: the context has been cancelled. */
  function Stopped(script: seq<Step>, turn: nat): bool {
    turn >= |script| || script[turn].ContextDone?
  }

  /** One pass over the members, from turn `i` on. */
  function Plain(t: Team, input: Message, history: seq<Message>, script: seq<Step>, i: nat, soFar: seq<Message>): Run
    requires i <= |t.members|
    decreases |t.members| - i
  {
    if i == |t.members| then Run([], soFar, Complete)
    else if Stopped(script, i) then Run([], soFar, Cancelled)
    else
      var reply := script[i].reply;
      var record := Record(t, input, history, i, i, soFar, reply);
      var now := soFar + record.said;
      if reply.fails then Run([record], now, MemberFailed)
      else if reply.terminates then Run([record], now, Terminated)
      else
        var rest := Plain(t, input, history, script, i + 1, now);
        rest.(turns := [record] + rest.turns)
  }

  /** A turn ends the run or is followed by the rest of the pass. */
  lemma PlainGoesOn(t: Team, input: Message, history: seq<Message>, script: seq<Step>, i: nat, soFar: seq<Message>)
    requires i < |t.members| && !Stopped(script, i)
    ensures var reply := script[i].reply;
      var record := Record(t, input, history, i, i, soFar, reply);
      Plain(t, input, history, script, i, soFar)
      == if reply.fails then Run([record], soFar + record.said, MemberFailed)
         else if reply.terminates then Run([record], soFar + record.said, Terminated)
         else var rest := Plain(t, input, history, script, i + 1, soFar + record.said);
           Run([record] + rest.turns, rest.messages, rest.end)
  {
  }

  predicate AtLimit(t: Team, turn: nat) {
    t.maxTurns.Some? && turn >= t.maxTurns.value
  }

  function Next(member: nat, n: nat): (next: nat)
    requires member < n
    ensures next < n
  {
    if member + 1 == n then 0 else member + 1
  }

  /** Round and round, from turn `turn` and its member on. */
  function Looped(t: Team, input: Message, history: seq<Message>, script: seq<Step>,
                  turn: nat, member: nat, soFar: seq<Message>): Run
    requires member < |t.members|
    decreases |script| - turn
  {
    if Stopped(script, turn) then Run([], soFar, Cancelled)
    else if AtLimit(t, turn) then Run([], soFar + [System(t.limitText)], LimitReached)
    else
      var reply := script[turn].reply;
      var record := Record(t, input, history, member, turn, soFar, reply);
      var now := soFar + record.said;
      if reply.fails then Run([record], now, MemberFailed)
      else if reply.terminates then Run([record], now, Terminated)
      else
        var rest := Looped(t, input, history, script, turn + 1, Next(member, |t.members|), now);
        rest.(turns := [record] + rest.turns)
  }

  /** The member whose turn it is after `k` turns, and the full rounds behind it. */
  function Position(k: nat, n: nat): (p: (nat, nat))
    requires n > 0
    ensures p.0 < n
  {
    if k == 0 then (0, 0)
    else
      var before := Position(k - 1, n);
      if before.0 + 1 == n then (0, before.1 + 1) else (before.0 + 1, before.1)
  }

  /** A turn within the limit ends the run or is followed by the rest of it. */
  lemma LoopedGoesOn(t: Team, input: Message, history: seq<Message>, script: seq<Step>,
                     turn: nat, member: nat, soFar: seq<Message>)
    requires member < |t.members| && !Stopped(script, turn) && !AtLimit(t, turn)
    ensures var reply := script[turn].reply;
      var record := Record(t, input, history, member, turn, soFar, reply);
      Looped(t, input, history, script, turn, member, soFar)
      == if reply.fails then Run([record], soFar + record.said, MemberFailed)
         else if reply.terminates then Run([record], soFar + record.said, Terminated)
         else
           var rest := Looped(t, input, history, script, turn + 1, Next(member, |t.members|), soFar + record.said);
           Run([record] + rest.turns, rest.messages, rest.end)
  {
  }

  /** From turn `turn` on the members take their turns round and round. */
  ghost predicate InTurn(turns: seq<TurnRecord>, turn: nat, n: nat)
    requires n > 0
    decreases |turns|
  {
    turns == [] || (turns[0].member == Position(turn, n).0 && InTurn(turns[1..], turn + 1, n))
  }

  lemma {:induction false} LoopedInTurn(t: Team, input: Message, history: seq<Message>, script: seq<Step>,
                                        turn: nat, member: nat, soFar: seq<Message>)
    requires t.members != [] && member == Position(turn, |t.members|).0
    ensures InTurn(Looped(t, input, history, script, turn, member, soFar).turns, turn, |t.members|)
    decreases |script| - turn
  {
    if !Stopped(script, turn) && !AtLimit(t, turn) {
      LoopedGoesOn(t, input, history, script, turn, member, soFar);
      var record := Record(t, input, history, member, turn, soFar, script[turn].reply);
      if !script[turn].reply.fails && !script[turn].reply.terminates {
        PositionNext(turn, |t.members|);
        LoopedInTurn(t, input, history, script, turn + 1, Next(member, |t.members|), soFar + record.said);
        InTurnCons(record, Looped(t, input, history, script, turn + 1, Next(member, |t.members|),
                                  soFar + record.said).turns, turn, |t.members|);
      } else {
        InTurnCons(record, [], turn, |t.members|);
        assert [record] + [] == [record];
      }
    }
  }

  lemma InTurnCons(record: TurnRecord, rest: seq<TurnRecord>, turn: nat, n: nat)
    requires n > 0 && record.member == Position(turn, n).0 && InTurn(rest, turn + 1, n)
    ensures InTurn([record] + rest, turn, n)
  {
    assert ([record] + rest)[1..] == rest;
  }

  lemma {:induction false} InTurnAt(turns: seq<TurnRecord>, turn: nat, n: nat, k: nat)
    requires n > 0 && InTurn(turns, turn, n) && k < |turns|
    ensures turns[k].member == Position(turn + k, n).0
    decreases k
  {
    if k > 0 {
      InTurnAt(turns[1..], turn + 1, n, k - 1);
    }
  }

  lemma TurnMember(t: Team, input: Message, history: seq<Message>, script: seq<Step>, k: nat)
    requires t.members != [] && k < |Looped(t, input, history, script, 0, 0, []).turns|
    ensures Looped(t, input, history, script, 0, 0, []).turns[k].member == Position(k, |t.members|).0
  {
    LoopedInTurn(t, input, history, script, 0, 0, []);
    InTurnAt(Looped(t, input, history, script, 0, 0, []).turns, 0, |t.members|, k);
  }

  lemma PositionNext(turn: nat, n: nat)
    requires n > 0
    ensures Position(turn + 1, n).0 == Next(Position(turn, n).0, n)
  {
  }

  lemma {:induction false} TurnsWithinLimit(t: Team, input: Message, history: seq<Message>, script: seq<Step>,
                                            turn: nat, member: nat, soFar: seq<Message>)
    requires member < |t.members| && t.maxTurns.Some?
    ensures var turns := Looped(t, input, history, script, turn, member, soFar).turns;
      turns == [] || turn + |turns| <= t.maxTurns.value
    decreases |script| - turn
  {
    if !Stopped(script, turn) && !AtLimit(t, turn) && !script[turn].reply.fails && !script[turn].reply.terminates {
      LoopedGoesOn(t, input, history, script, turn, member, soFar);
      TurnsWithinLimit(t, input, history, script, turn + 1, Next(member, |t.members|),
                       soFar + WithName(script[turn].reply.messages, t.members[member]));
    }
  }

  lemma {:induction false} PositionSplits(k: nat, n: nat)
    requires n > 0
    ensures k == Position(k, n).1 * n + Position(k, n).0
  {
    if k > 0 {
      PositionSplits(k - 1, n);
      var before := Position(k - 1, n).1;
      assert (before + 1) * n == before * n + n;
    }
  }

  lemma PositionIsMod(k: nat, n: nat)
    requires n > 0
    ensures Position(k, n).0 == k % n
  {
    PositionSplits(k, n);
    var (m, q) := Position(k, n);
    SameRemainder(n, q, m, k / n, k % n);
  }

  lemma SameRemainder(n: nat, q: int, m: nat, r: int, l: nat)
    requires m < n && l < n && q * n + m == r * n + l
    ensures m == l
  {
    var d := r - q;
    assert n * d == m - l;
    if d != 0 {
      MultipleIsLarge(n, d);
    }
  }

  lemma MultipleIsLarge(n: nat, d: int)
    requires d != 0
    ensures n * d >= n || n * d <= 0 - n
  {
  }

  /** Turn k belongs to member k modulo the team's size, and no more turns run than allowed. */
  lemma RoundRobin(t: Team, input: Message, history: seq<Message>, script: seq<Step>)
    requires t.members != []
    ensures var turns := Looped(t, input, history, script, 0, 0, []).turns;
      && (forall k: nat | k < |turns| :: turns[k].member == k % |t.members|)
      && (t.maxTurns.Some? ==> turns == [] || |turns| <= t.maxTurns.value)
  {
    var turns := Looped(t, input, history, script, 0, 0, []).turns;
    forall k: nat | k < |turns| ensures turns[k].member == k % |t.members| {
      TurnMember(t, input, history, script, k);
      PositionIsMod(k, |t.members|);
    }
    if t.maxTurns.Some? {
      TurnsWithinLimit(t, input, history, script, 0, 0, []);
    }
  }

  /** How often a member has had its turn. */
  function TurnsOf(turns: seq<TurnRecord>, member: nat): nat {
    if turns == [] then 0
    else TurnsOf(turns[..|turns| - 1], member) + if turns[|turns| - 1].member == member then 1 else 0
  }

  lemma {:induction false} TurnsOfInOrder(turns: seq<TurnRecord>, n: nat, member: nat)
    requires member < n && forall k: nat | k < |turns| :: turns[k].member == Position(k, n).0
    ensures var p := Position(|turns|, n);
      TurnsOf(turns, member) == p.1 + if member < p.0 then 1 else 0
  {
    if turns != [] {
      TurnsOfInOrder(turns[..|turns| - 1], n, member);
    }
  }

  /** No member of a looping team is ever more than one turn ahead of another. */
  lemma FairTurns(t: Team, input: Message, history: seq<Message>, script: seq<Step>, a: nat, b: nat)
    requires a < |t.members| && b < |t.members|
    ensures var turns := Looped(t, input, history, script, 0, 0, []).turns;
      TurnsOf(turns, a) <= TurnsOf(turns, b) + 1
  {
    var turns := Looped(t, input, history, script, 0, 0, []).turns;
    forall k: nat | k < |turns| ensures turns[k].member == Position(k, |t.members|).0 {
      TurnMember(t, input, history, script, k);
    }
    TurnsOfInOrder(turns, |t.members|, a);
    TurnsOfInOrder(turns, |t.members|, b);
  }

  /** What the turns of a run said, in order. */
  function Said(turns: seq<TurnRecord>): seq<Message> {
    if turns == [] then [] else turns[0].said + Said(turns[1..])
  }

  function Closing(t: Team, end: End): seq<Message> {
    if end.LimitReached? then [System(t.limitText)] else []
  }

  /** The messages of a reply, all of them and in order, the assistant's signed with the name. */
  predicate Signed(said: seq<Message>, spoken: seq<Message>, name: string) {
    && |said| == |spoken|
    && forall i | 0 <= i < |spoken| ::
         said[i] == match spoken[i]
                    case Assistant(content, _, calls) => Assistant(content, name, calls)
                    case _ => spoken[i]
  }

  lemma WithNameSigns(ms: seq<Message>, name: string)
    ensures Signed(WithName(ms, name), ms, name)
  {
  }

  /** The turn was its member's reply to the right input, with all that had been said. */
  ghost predicate Took(t: Team, input: Message, history: seq<Message>, script: seq<Step>, record: TurnRecord,
                       turn: nat, soFar: seq<Message>) {
    && !Stopped(script, turn)
    && record.member < |t.members|
    && record == Record(t, input, history, record.member, turn, soFar, script[turn].reply)
  }

  /** Every turn took what had been said by then, and the messages are what the turns
      said, with the limit message behind them if the limit ended the run. */
  ghost predicate Accumulates(t: Team, input: Message, history: seq<Message>, script: seq<Step>, r: Run,
                              turn: nat, soFar: seq<Message>)
    decreases |r.turns|
  {
    if r.turns == [] then r.messages == soFar + Closing(t, r.end)
    else
      && Took(t, input, history, script, r.turns[0], turn, soFar)
      && Accumulates(t, input, history, script, r.(turns := r.turns[1..]), turn + 1, soFar + r.turns[0].said)
  }

  lemma {:induction false} LoopedAccumulates(t: Team, input: Message, history: seq<Message>, script: seq<Step>,
                                             turn: nat, member: nat, soFar: seq<Message>)
    requires member < |t.members|
    ensures Accumulates(t, input, history, script, Looped(t, input, history, script, turn, member, soFar), turn, soFar)
    decreases |script| - turn
  {
    if !Stopped(script, turn) && !AtLimit(t, turn) {
      LoopedGoesOn(t, input, history, script, turn, member, soFar);
      var reply := script[turn].reply;
      var record := Record(t, input, history, member, turn, soFar, reply);
      if reply.fails || reply.terminates {
        AccumulatesLast(t, input, history, script, record, if reply.fails then MemberFailed else Terminated, turn, soFar);
      } else {
        LoopedAccumulates(t, input, history, script, turn + 1, Next(member, |t.members|), soFar + record.said);
        AccumulatesCons(t, input, history, script, record,
                        Looped(t, input, history, script, turn + 1, Next(member, |t.members|), soFar + record.said),
                        turn, soFar);
      }
    }
  }

  lemma AccumulatesLast(t: Team, input: Message, history: seq<Message>, script: seq<Step>, record: TurnRecord, end: End,
                        turn: nat, soFar: seq<Message>)
    requires Took(t, input, history, script, record, turn, soFar) && !end.LimitReached?
    ensures Accumulates(t, input, history, script, Run([record], soFar + record.said, end), turn, soFar)
  {
    assert soFar + record.said + [] == soFar + record.said;
  }

  lemma AccumulatesCons(t: Team, input: Message, history: seq<Message>, script: seq<Step>, record: TurnRecord, rest: Run,
                        turn: nat, soFar: seq<Message>)
    requires Took(t, input, history, script, record, turn, soFar)
    requires Accumulates(t, input, history, script, rest, turn + 1, soFar + record.said)
    ensures Accumulates(t, input, history, script, Run([record] + rest.turns, rest.messages, rest.end), turn, soFar)
  {
    assert ([record] + rest.turns)[1..] == rest.turns;
  }

  lemma {:induction false} AllAccumulated(t: Team, input: Message, history: seq<Message>, script: seq<Step>, r: Run,
                                          turn: nat, soFar: seq<Message>)
    requires Accumulates(t, input, history, script, r, turn, soFar)
    ensures r.messages == soFar + Said(r.turns) + Closing(t, r.end)
    decreases |r.turns|
  {
    if r.turns != [] {
      AllAccumulated(t, input, history, script, r.(turns := r.turns[1..]), turn + 1, soFar + r.turns[0].said);
      assert soFar + (r.turns[0].said + Said(r.turns[1..])) == (soFar + r.turns[0].said) + Said(r.turns[1..]);
    }
  }

  lemma {:induction false} HeardByTurn(t: Team, input: Message, history: seq<Message>, script: seq<Step>, r: Run,
                                       turn: nat, soFar: seq<Message>, k: nat)
    requires Accumulates(t, input, history, script, r, turn, soFar) && k < |r.turns|
    ensures Took(t, input, history, script, r.turns[k], turn + k, soFar + Said(r.turns[..k]))
    decreases k
  {
    if k == 0 {
      assert soFar + Said(r.turns[..0]) == soFar;
    } else {
      HeardByTurn(t, input, history, script, r.(turns := r.turns[1..]), turn + 1, soFar + r.turns[0].said, k - 1);
      assert r.turns[1..][..k - 1] == r.turns[..k][1..];
      var said := Said(r.turns[..k][1..]);
      assert soFar + (r.turns[0].said + said) == (soFar + r.turns[0].said) + said;
    }
  }

  /** The k-th turn: the first is given the history and the user's input, every other the
      history, the user's input, everything said before it, and its member's own prompt;
      what it says is the reply of step k, signed. */
  predicate Hears(t: Team, input: Message, history: seq<Message>, script: seq<Step>, turns: seq<TurnRecord>, k: nat)
    requires k < |turns|
  {
    var turn := turns[k];
    && k < |script| && script[k].Acts? && turn.member < |t.members|
    && Signed(turn.said, script[k].reply.messages, t.members[turn.member])
    && turn.input == (if k == 0 then input else User(t.turnPrompt(t.members[turn.member])))
    && turn.history == if k == 0 then history else history + [input] + Said(turns[..k])
  }

  /** How a looping run ends: by the last reply, by the limit before the next turn, or by
      the context; no other reply fails or terminates. */
  predicate EndsSo(t: Team, script: seq<Step>, r: Run) {
    var n := |r.turns|;
    && n <= |script| && (forall k | 0 <= k < n :: script[k].Acts?)
    && (forall k | 0 <= k < n - 1 :: !script[k].reply.fails && !script[k].reply.terminates)
    && if n > 0 && script[n - 1].reply.fails then r.end == MemberFailed
       else if n > 0 && script[n - 1].reply.terminates then r.end == Terminated
       else if n == |script| || script[n].ContextDone? then r.end == Cancelled
       else r.end == LimitReached && t.maxTurns.Some? && n >= t.maxTurns.value
  }

  /** A looping run's messages are what its turns said, in order, with the limit
      message behind them exactly if the limit ended it; and every turn hears the input
      and all that was said. */
  lemma EverythingSaidIsHeard(t: Team, input: Message, history: seq<Message>, script: seq<Step>)
    requires t.members != []
    ensures var r := Looped(t, input, history, script, 0, 0, []);
      && r.messages == Said(r.turns) + (if r.end.LimitReached? then [System(t.limitText)] else [])
      && (forall k: nat | k < |r.turns| :: Hears(t, input, history, script, r.turns, k))
      && EndsSo(t, script, r)
  {
    var r := Looped(t, input, history, script, 0, 0, []);
    LoopedAccumulates(t, input, history, script, 0, 0, []);
    AccumulatedFromNothing(t, input, history, script, r);
    forall k: nat | k < |r.turns| ensures Hears(t, input, history, script, r.turns, k) {
      assert Took(t, input, history, script, r.turns[k], k, Said(r.turns[..k]));
      WithNameSigns(script[k].reply.messages, t.members[r.turns[k].member]);
    }
    LoopedEnds(t, input, history, script, 0, 0, []);
    EndsFrom(t, script, r);
  }

  /** The same from turn `turn` on. */
  predicate EndsSoFrom(t: Team, script: seq<Step>, r: Run, turn: nat) {
    var n := turn + |r.turns|;
    && n <= |script| && (forall k | turn <= k < n :: script[k].Acts?)
    && (forall k | turn <= k < n - 1 :: !script[k].reply.fails && !script[k].reply.terminates)
    && if n > turn && script[n - 1].reply.fails then r.end == MemberFailed
       else if n > turn && script[n - 1].reply.terminates then r.end == Terminated
       else if n == |script| || script[n].ContextDone? then r.end == Cancelled
       else r.end == LimitReached && t.maxTurns.Some? && n >= t.maxTurns.value
  }

  lemma EndsFrom(t: Team, script: seq<Step>, r: Run)
    requires EndsSoFrom(t, script, r, 0)
    ensures EndsSo(t, script, r)
  {
  }

  lemma {:induction false} LoopedEnds(t: Team, input: Message, history: seq<Message>, script: seq<Step>,
                                      turn: nat, member: nat, soFar: seq<Message>)
    requires member < |t.members| && turn <= |script|
    ensures EndsSoFrom(t, script, Looped(t, input, history, script, turn, member, soFar), turn)
    decreases |script| - turn
  {
    if !Stopped(script, turn) && !AtLimit(t, turn) {
      LoopedGoesOn(t, input, history, script, turn, member, soFar);
      if !script[turn].reply.fails && !script[turn].reply.terminates {
        var record := Record(t, input, history, member, turn, soFar, script[turn].reply);
        LoopedEnds(t, input, history, script, turn + 1, Next(member, |t.members|), soFar + record.said);
      }
    }
  }

  lemma AccumulatedFromNothing(t: Team, input: Message, history: seq<Message>, script: seq<Step>, r: Run)
    requires Accumulates(t, input, history, script, r, 0, [])
    ensures r.messages == Said(r.turns) + Closing(t, r.end)
    ensures forall k: nat | k < |r.turns| :: Took(t, input, history, script, r.turns[k], k, Said(r.turns[..k]))
  {
    AllAccumulated(t, input, history, script, r, 0, []);
    assert [] + Said(r.turns) == Said(r.turns);
    forall k: nat | k < |r.turns| ensures Took(t, input, history, script, r.turns[k], k, Said(r.turns[..k])) {
      HeardByTurn(t, input, history, script, r, 0, [], k);
      assert [] + Said(r.turns[..k]) == Said(r.turns[..k]);
    }
  }

  /** A looping team allowed one turn per member does what the plain strategy does,
      turn by turn, and adds one limit message when nobody ends the run earlier. */
  lemma {:induction false} LoopRefinesPlain(t: Team, input: Message, history: seq<Message>, script: seq<Step>,
                                            i: nat, soFar: seq<Message>)
    requires i < |t.members| && t.maxTurns == Some(|t.members|)
    ensures var p, l := Plain(t, input, history, script, i, soFar), Looped(t, input, history, script, i, i, soFar);
      if !p.end.Complete? then l == p
      else if Stopped(script, |t.members|) then l == p.(end := Cancelled)
      else l == Run(p.turns, p.messages + [System(t.limitText)], LimitReached)
    decreases |t.members| - i
  {
    if !Stopped(script, i) && !script[i].reply.fails && !script[i].reply.terminates {
      PlainGoesOn(t, input, history, script, i, soFar);
      LoopedGoesOn(t, input, history, script, i, i, soFar);
      if i + 1 < |t.members| {
        var said := Record(t, input, history, i, i, soFar, script[i].reply).said;
        LoopRefinesPlain(t, input, history, script, i + 1, soFar + said);
      }
    }
  }

  /** The state of a running team. */
  class TeamRun {
    const team: Team
    var newMessages: seq<Message>
    ghost var turns: seq<TurnRecord>

    constructor (team: Team)
      ensures this.team == team && newMessages == [] && turns == []
    {
      this.team, newMessages, turns := team, [], [];
    }

    method ExecuteMember(member: nat, input: Message, history: seq<Message>, turn: nat, reply: Reply)
      requires member < |team.members|
      modifies this
      ensures newMessages == old(newMessages) + WithName(reply.messages, team.members[member])
      ensures turns == old(turns) + [Record(team, input, history, member, turn, old(newMessages), reply)]
    {
      var memberHistory := history;
      if turn != 0 {
        memberHistory := memberHistory + [input];
        memberHistory := memberHistory + newMessages;
      }
      var messagesWithName := WithName(reply.messages, team.members[member]);
      turns := turns + [TurnRecord(member, TurnInput(team, input, member, turn), memberHistory, messagesWithName)];
      newMessages := newMessages + messagesWithName;
    }

    method ExecuteSequential(input: Message, history: seq<Message>, script: seq<Step>) returns (end: End)
      requires newMessages == [] && turns == []
      modifies this
      ensures Run(turns, newMessages, end) == Plain(team, input, history, script, 0, [])
    {
      ghost var all := Plain(team, input, history, script, 0, []);
      for i := 0 to |team.members|
        invariant Continued(Plain(team, input, history, script, i, newMessages), all, turns)
      {
        if i >= |script| || script[i].ContextDone? {
          return Cancelled;
        }
        var reply := script[i].reply;
        PlainStep(team, input, history, script, i, newMessages, all, turns);
        ExecuteMember(i, input, history, i, reply);
        if reply.fails {
          return MemberFailed;
        }
        if reply.terminates {
          return Terminated;
        }
      }
      end := Complete;
    }

    method ExecuteSequentialWithLoops(input: Message, history: seq<Message>, script: seq<Step>) returns (end: End)
      requires newMessages == [] && turns == [] && team.members != []
      modifies this
      ensures Run(turns, newMessages, end) == Looped(team, input, history, script, 0, 0, [])
    {
      ghost var all := Looped(team, input, history, script, 0, 0, []);
      var messageCount, memberIndex := 0, 0;
      while messageCount < |script| && !script[messageCount].ContextDone?
        invariant 0 <= messageCount <= |script| && 0 <= memberIndex < |team.members|
        invariant Continued(Looped(team, input, history, script, messageCount, memberIndex, newMessages), all, turns)
      {
        if team.maxTurns.Some? && messageCount >= team.maxTurns.value {
          newMessages := newMessages + [System(team.limitText)];
          return LimitReached;
        }
        var reply := script[messageCount].reply;
        LoopedStep(team, input, history, script, messageCount, memberIndex, newMessages, all, turns);
        ExecuteMember(memberIndex, input, history, messageCount, reply);
        if reply.fails {
          return MemberFailed;
        }
        if reply.terminates {
          return Terminated;
        }
        NextIsMod(memberIndex, |team.members|);
        messageCount := messageCount + 1;
        memberIndex := (memberIndex + 1) % |team.members|;
      }
      end := Cancelled;
    }
  }

  lemma NextIsMod(member: nat, n: nat)
    requires member < n
    ensures Next(member, n) == (member + 1) % n
  {
  }

  /** `rest` is what remains of the run `all` after the turns in `done`. */
  ghost predicate Continued(rest: Run, all: Run, done: seq<TurnRecord>) {
    && all.turns == done + rest.turns
    && all.messages == rest.messages
    && all.end == rest.end
  }

  lemma ContinuedAfter(tail: Run, all: Run, done: seq<TurnRecord>, record: TurnRecord)
    requires Continued(Run([record] + tail.turns, tail.messages, tail.end), all, done)
    ensures Continued(tail, all, done + [record])
  {
    assert done + ([record] + tail.turns) == (done + [record]) + tail.turns;
  }

  lemma PlainStep(t: Team, input: Message, history: seq<Message>, script: seq<Step>, i: nat, soFar: seq<Message>,
                  all: Run, done: seq<TurnRecord>)
    requires i < |t.members| && !Stopped(script, i)
    requires Continued(Plain(t, input, history, script, i, soFar), all, done)
    ensures var reply := script[i].reply;
      var record := Record(t, input, history, i, i, soFar, reply);
      if reply.fails then all == Run(done + [record], soFar + record.said, MemberFailed)
      else if reply.terminates then all == Run(done + [record], soFar + record.said, Terminated)
      else Continued(Plain(t, input, history, script, i + 1, soFar + record.said), all, done + [record])
  {
    PlainGoesOn(t, input, history, script, i, soFar);
    if !script[i].reply.fails && !script[i].reply.terminates {
      var record := Record(t, input, history, i, i, soFar, script[i].reply);
      ContinuedAfter(Plain(t, input, history, script, i + 1, soFar + record.said), all, done, record);
    }
  }

  lemma LoopedStep(t: Team, input: Message, history: seq<Message>, script: seq<Step>,
                   turn: nat, member: nat, soFar: seq<Message>, all: Run, done: seq<TurnRecord>)
    requires member < |t.members| && !Stopped(script, turn) && !AtLimit(t, turn)
    requires Continued(Looped(t, input, history, script, turn, member, soFar), all, done)
    ensures var reply := script[turn].reply;
      var record := Record(t, input, history, member, turn, soFar, reply);
      if reply.fails then all == Run(done + [record], soFar + record.said, MemberFailed)
      else if reply.terminates then all == Run(done + [record], soFar + record.said, Terminated)
      else
        Continued(Looped(t, input, history, script, turn + 1, Next(member, |t.members|), soFar + record.said),
                  all, done + [record])
  {
    LoopedGoesOn(t, input, history, script, turn, member, soFar);
    if !script[turn].reply.fails && !script[turn].reply.terminates {
      var record := Record(t, input, history, member, turn, soFar, script[turn].reply);
      ContinuedAfter(Looped(t, input, history, script, turn + 1, Next(member, |t.members|), soFar + record.said),
                     all, done, record);
    }
  }
}
