/** The selector team strategy under a transition graph. The selector's replies and
    the members' turns are an arbitrary script. */
module TeamSelector {
  import opened Messages
  import opened TeamSequential

  datatype Edge = Edge(from: string, to: string)

  /** A graph-constrained team. */
  datatype GraphTeam = GraphTeam(base: Team, edges: seq<Edge>)

  /** What comes back from asking the selector. */
  datatype Selection =
    | Named(name: string)
    | NotCalled
    | Ended(response: string, closing: seq<Message>)
    | SelectorFailed

  datatype Choice = Chosen(member: nat) | Stop(extra: seq<Message>) | Fail

  datatype SelectorStep = SelectorStep(selection: Selection, reply: Reply)

  datatype SelectorEnd = Unfinished | SelectionEnded | MemberTerminated | TurnsExhausted | RunFailed

  /** `seen` holds the transcript at each selection, `given` the history each member was
      given, and `said` what each added. */
  datatype SelectorRun = SelectorRun(members: seq<nat>, seen: seq<seq<Message>>, given: seq<seq<Message>>,
                                     said: seq<seq<Message>>, messages: seq<Message>, end: SelectorEnd)

  const INVALID := System("invalid agent")
  const NOT_CALLED := System("tool not used")

  predicate ValidMembers(t: GraphTeam, members: seq<nat>) {
    forall i | 0 <= i < |members| :: members[i] < |t.base.members|
  }

  /** The last member of that name, as a name-to-member map holds it. */
  function MemberNamed(names: seq<string>, name: string): (m: Option<nat>)
    ensures m.Some? ==> m.value < |names| && names[m.value] == name
    ensures m.Some? ==> forall j | m.value < j < |names| :: names[j] != name
    ensures m.None? <==> name !in names
  {
    if names == [] then None
    else if names[|names| - 1] == name then Some(|names| - 1)
    else MemberNamed(names[..|names| - 1], name)
  }

  /** The members that edges out of `from` lead to, in the order of the edges. */
  function Legal(t: GraphTeam, edges: seq<Edge>, from: string): (legal: seq<nat>)
    ensures ValidMembers(t, legal)
  {
    if edges == [] then []
    else Target(t, edges[0], from) + Legal(t, edges[1..], from)
  }

  /** The member the edge leads to, if it starts at `from` and leads to one. */
  function Target(t: GraphTeam, e: Edge, from: string): (target: seq<nat>)
    ensures ValidMembers(t, target) && |target| <= 1
  {
    var m := MemberNamed(t.base.members, e.to);
    if e.from == from && m.Some? then [m.value] else []
  }

  /** Some edge leads to a member; without one the graph does not constrain at all. */
  predicate Constrained(t: GraphTeam) {
    exists e :: e in t.edges && e.to in t.base.members
  }

  /** The first candidate of that name. */
  function Resolve(t: GraphTeam, candidates: seq<nat>, name: string): (m: Option<nat>)
    requires ValidMembers(t, candidates)
    ensures m.Some? ==> m.value < |t.base.members| && m.value in candidates && t.base.members[m.value] == name
    ensures m.None? <==> forall i | 0 <= i < |candidates| :: t.base.members[candidates[i]] != name
  {
    if candidates == [] then None
    else if t.base.members[candidates[0]] == name then Some(candidates[0])
    else Resolve(t, candidates[1..], name)
  }

  function All(t: GraphTeam): seq<nat> {
    seq(|t.base.members|, i => i)
  }

  /** The selector's choice, with the way a missing choice ends the run. */
  function Ask(t: GraphTeam, candidates: seq<nat>, selection: Selection): (c: Choice)
    requires ValidMembers(t, candidates)
    ensures c.Chosen? ==> c.member < |t.base.members| && c.member in candidates
  {
    match selection
    case Named(name) =>
      var m := Resolve(t, candidates, name);
      if m.Some? then Chosen(m.value) else Stop([INVALID])
    case NotCalled => Stop([NOT_CALLED])
    case Ended(response, closing) => Stop(if response != "" then closing else [])
    case SelectorFailed => Fail
  }

  /** An empty previous name stands for the first turn. */
  function NextMember(t: GraphTeam, previous: string, selection: Selection): (c: Choice)
    ensures c.Chosen? ==> c.member < |t.base.members|
  {
    if !Constrained(t) || previous == "" then Ask(t, All(t), selection)
    else
      var legal := Legal(t, t.edges, previous);
      if |legal| == 0 then Stop([])
      else if |legal| == 1 then Chosen(legal[0])
      else Ask(t, legal, selection)
  }

  predicate LastTurn(t: GraphTeam, turn: nat) {
    t.base.maxTurns.Some? && turn + 1 >= t.base.maxTurns.value
  }

  /** What the selector sees: the history, the input, and what was added to the history since. */
  function Transcript(history: seq<Message>, input: Message, messages: seq<Message>): seq<Message>
    requires |history| <= |messages|
  {
    history + [input] + messages[|history|..]
  }

  /** One pass of the loop. `members` is empty when no member was chosen; `end`
      is None when the loop goes on, with `next` as the previous name. */
  datatype Pass = Pass(members: seq<nat>, given: seq<seq<Message>>, said: seq<seq<Message>>, messages: seq<Message>,
                       added: seq<Message>, next: string, end: Option<SelectorEnd>)

  function OnePass(t: GraphTeam, step: SelectorStep, turn: nat, previous: string,
                   messages: seq<Message>, added: seq<Message>): (p: Pass)
    ensures ValidMembers(t, p.members)
  {
    match NextMember(t, previous, step.selection)
    case Stop(extra) => Pass([], [], [], messages, added + extra, previous, Some(SelectionEnded))
    case Fail => Pass([], [], [], messages, added, previous, Some(RunFailed))
    case Chosen(m) =>
      var ms := WithName(step.reply.messages, t.base.members[m]);
      var p := Pass([m], [messages], [ms], messages + ms, added + ms, t.base.members[m], None);
      if step.reply.fails then p.(end := Some(RunFailed))
      else if step.reply.terminates then p.(end := Some(MemberTerminated))
      else if LastTurn(t, turn) then
        p.(added := p.added + [System(t.base.limitText)], end := Some(TurnsExhausted))
      else p
  }

  /** The run from turn `turn` on. `messages` is what members are given, `added`
      what the run has produced. */
  function RunFrom(t: GraphTeam, input: Message, history: seq<Message>, script: seq<SelectorStep>,
                   turn: nat, previous: string, messages: seq<Message>, added: seq<Message>): SelectorRun
    requires |history| <= |messages|
    decreases |script|
  {
    if script == [] then SelectorRun([], [], [], [], added, Unfinished)
    else
      var seen := [Transcript(history, input, messages)];
      var p := OnePass(t, script[0], turn, previous, messages, added);
      if p.end.Some? then SelectorRun(p.members, seen, p.given, p.said, p.added, p.end.value)
      else
        var rest := RunFrom(t, input, history, script[1..], turn + 1, p.next, p.messages, p.added);
        SelectorRun(p.members + rest.members, seen + rest.seen, p.given + rest.given, p.said + rest.said,
                    rest.messages, rest.end)
  }

  function RunSelector(t: GraphTeam, input: Message, history: seq<Message>, script: seq<SelectorStep>): SelectorRun {
    RunFrom(t, input, history, script, 0, "", history, [])
  }

  predicate IsEdge(t: GraphTeam, from: nat, to: nat)
    requires from < |t.base.members| && to < |t.base.members|
  {
    Edge(t.base.members[from], t.base.members[to]) in t.edges
  }

  /** Each member of the sequence follows an edge out of the one before it, the
      first an edge out of `previous` unless that is empty. */
  predicate FollowsEdges(t: GraphTeam, previous: string, members: seq<nat>)
    requires ValidMembers(t, members)
  {
    && (members != [] && previous != "" ==> Edge(previous, t.base.members[members[0]]) in t.edges)
    && (forall i | 0 < i < |members| :: IsEdge(t, members[i - 1], members[i]))
  }

  lemma {:induction false} LegalAreEdges(t: GraphTeam, edges: seq<Edge>, from: string)
    ensures forall m | m in Legal(t, edges, from) :: Edge(from, t.base.members[m]) in edges
  {
    if edges != [] {
      LegalAreEdges(t, edges[1..], from);
    }
  }

  /** Under a graph that constrains, the next member is reached by an edge, whatever the selector says. */
  lemma NextIsAnEdge(t: GraphTeam, previous: string, selection: Selection)
    requires Constrained(t) && previous != "" && NextMember(t, previous, selection).Chosen?
    ensures Edge(previous, t.base.members[NextMember(t, previous, selection).member]) in t.edges
  {
    LegalAreEdges(t, t.edges, previous);
  }

  lemma EdgesCons(t: GraphTeam, previous: string, m: nat, rest: seq<nat>)
    requires m < |t.base.members| && ValidMembers(t, rest) && t.base.members[m] != ""
    requires FollowsEdges(t, t.base.members[m], rest)
    requires previous != "" ==> Edge(previous, t.base.members[m]) in t.edges
    ensures ValidMembers(t, [m] + rest) && FollowsEdges(t, previous, [m] + rest)
  {
    var members := [m] + rest;
    assert forall i | 0 < i < |members| :: members[i] == rest[i - 1];
    forall i | 0 < i < |members| ensures IsEdge(t, members[i - 1], members[i]) {
      if i > 1 {
        assert IsEdge(t, rest[i - 2], rest[i - 1]);
      }
    }
  }

  /** A pass follows an edge, and what follows the edges behind it follows them behind `previous`. */
  lemma PassFollowsEdges(t: GraphTeam, step: SelectorStep, turn: nat, previous: string,
                         messages: seq<Message>, added: seq<Message>, rest: seq<nat>)
    requires Constrained(t) && "" !in t.base.members && ValidMembers(t, rest)
    ensures var p := OnePass(t, step, turn, previous, messages, added);
      && FollowsEdges(t, previous, p.members)
      && (p.end.None? && FollowsEdges(t, p.next, rest) ==>
            ValidMembers(t, p.members + rest) && FollowsEdges(t, previous, p.members + rest))
  {
    var p := OnePass(t, step, turn, previous, messages, added);
    if p.members != [] && previous != "" {
      NextIsAnEdge(t, previous, step.selection);
    }
    if p.end.None? && FollowsEdges(t, p.next, rest) {
      assert p.members == [p.members[0]] && p.next == t.base.members[p.members[0]];
      EdgesCons(t, previous, p.members[0], rest);
    }
  }

  lemma {:induction false} RunFollowsEdges(t: GraphTeam, input: Message, history: seq<Message>, script: seq<SelectorStep>,
                                           turn: nat, previous: string, messages: seq<Message>, added: seq<Message>)
    requires |history| <= |messages| && Constrained(t) && "" !in t.base.members
    ensures var r := RunFrom(t, input, history, script, turn, previous, messages, added);
      && ValidMembers(t, r.members) && FollowsEdges(t, previous, r.members)
    decreases |script|
  {
    if script != [] {
      var p := OnePass(t, script[0], turn, previous, messages, added);
      if p.end.None? {
        RunFollowsEdges(t, input, history, script[1..], turn + 1, p.next, p.messages, p.added);
        var rest := RunFrom(t, input, history, script[1..], turn + 1, p.next, p.messages, p.added);
        PassFollowsEdges(t, script[0], turn, previous, messages, added, rest.members);
      } else {
        PassFollowsEdges(t, script[0], turn, previous, messages, added, []);
      }
    }
  }

  lemma {:induction false} TurnsBounded(t: GraphTeam, input: Message, history: seq<Message>, script: seq<SelectorStep>,
                                        turn: nat, previous: string, messages: seq<Message>, added: seq<Message>)
    requires |history| <= |messages| && t.base.maxTurns.Some?
    ensures var r := RunFrom(t, input, history, script, turn, previous, messages, added);
      |r.members| <= 1 || turn + |r.members| <= t.base.maxTurns.value
    decreases |script|
  {
    if script != [] {
      var p := OnePass(t, script[0], turn, previous, messages, added);
      if p.end.None? {
        TurnsBounded(t, input, history, script[1..], turn + 1, p.next, p.messages, p.added);
      }
    }
  }

  /** With a graph that constrains, every two members that run one after the other
      are joined by an edge, whatever the selector says; and a turn limit is kept,
      except that one member always gets a turn. */
  lemma SelectorRespectsGraph(t: GraphTeam, input: Message, history: seq<Message>, script: seq<SelectorStep>)
    requires Constrained(t) && "" !in t.base.members
    ensures var r := RunSelector(t, input, history, script);
      && ValidMembers(t, r.members)
      && (forall i | 0 < i < |r.members| :: IsEdge(t, r.members[i - 1], r.members[i]))
      && (t.base.maxTurns.Some? ==> |r.members| <= 1 || |r.members| <= t.base.maxTurns.value)
  {
    RunFollowsEdges(t, input, history, script, 0, "", history, []);
    if t.base.maxTurns.Some? {
      TurnsBounded(t, input, history, script, 0, "", history, []);
    }
  }

  const QUIET := Reply([], false, false)

  /** A graph none of whose edges leads to a member constrains nothing: a selector
      can give the first member two turns in a row. */
  lemma UnusableGraphIgnored(t: GraphTeam, input: Message, history: seq<Message>)
    requires t.base.members != [] && !Constrained(t) && (t.base.maxTurns.Some? ==> t.base.maxTurns.value >= 2)
    ensures var step := SelectorStep(Named(t.base.members[0]), QUIET);
      && RunSelector(t, input, history, [step, step]).members == [0, 0]
      && !IsEdge(t, 0, 0)
  {
    var name := t.base.members[0];
    var step := SelectorStep(Named(name), QUIET);
    assert All(t)[0] == 0;
    assert Resolve(t, All(t), name) == Some(0);
    assert NextMember(t, "", Named(name)) == Chosen(0) && NextMember(t, name, Named(name)) == Chosen(0);
    assert WithName([], name) == [];
    assert [step, step][1..] == [step] && [step][1..] == [];
    assert RunFrom(t, input, history, [step], 1, name, history + [], [] + []).members == [0];
    assert forall e | e in t.edges :: e.to != name;
  }

  function Flat(said: seq<seq<Message>>): seq<Message> {
    if said == [] then [] else said[0] + Flat(said[1..])
  }

  /** The name of the member that had its turn last. */
  function Previous(t: GraphTeam, previous: string, members: seq<nat>): string
    requires ValidMembers(t, members)
  {
    if members == [] then previous else t.base.members[members[|members| - 1]]
  }

  /** The reply neither fails nor terminates, and the turn is not the last one allowed. */
  predicate GoesOn(t: GraphTeam, reply: Reply, turn: nat) {
    !reply.fails && !reply.terminates && (t.base.maxTurns.Some? ==> turn + 1 < t.base.maxTurns.value)
  }

  /** Turn k belongs to the member that selection k comes down to, which is given the
      history and all that was said, and says its reply, signed; every turn but the last
      lets the run go on. */
  ghost predicate TurnIs(t: GraphTeam, history: seq<Message>, script: seq<SelectorStep>, turn: nat, previous: string,
                         added: seq<Message>, r: SelectorRun, k: nat)
    requires ValidMembers(t, r.members) && k < |r.members| == |r.said| == |r.given| <= |script|
  {
    && NextMember(t, Previous(t, previous, r.members[..k]), script[k].selection) == Chosen(r.members[k])
    && r.given[k] == history + (added + Flat(r.said[..k]))
    && Signed(r.said[k], script[k].reply.messages, t.base.members[r.members[k]])
    && (k < |r.members| - 1 ==> GoesOn(t, script[k].reply, turn + k))
  }

  /** How the run ends and what it adds at its end. `n` turns have been taken. */
  ghost predicate RunEnds(t: GraphTeam, script: seq<SelectorStep>, turn: nat, previous: string,
                          added: seq<Message>, r: SelectorRun)
    requires ValidMembers(t, r.members) && |r.members| <= |r.seen| <= |script|
  {
    var n, all := |r.members|, added + Flat(r.said);
    if n > 0 && !GoesOn(t, script[n - 1].reply, turn + n - 1) then
      && |r.seen| == n
      && if script[n - 1].reply.fails then r.end == RunFailed && r.messages == all
         else if script[n - 1].reply.terminates then r.end == MemberTerminated && r.messages == all
         else r.end == TurnsExhausted && r.messages == all + [System(t.base.limitText)]
    else if n == |script| then |r.seen| == n && r.end == Unfinished && r.messages == all
    else
      && |r.seen| == n + 1
      && match NextMember(t, Previous(t, previous, r.members), script[n].selection)
         case Stop(extra) => r.end == SelectionEnded && r.messages == all + extra
         case Fail => r.end == RunFailed && r.messages == all
         case Chosen(_) => false
  }

  ghost predicate Unfolds(t: GraphTeam, input: Message, history: seq<Message>, script: seq<SelectorStep>, turn: nat,
                          previous: string, added: seq<Message>, r: SelectorRun) {
    && ValidMembers(t, r.members)
    && |r.members| == |r.said| == |r.given| <= |r.seen| <= |script|
    && (forall k: nat | k < |r.members| :: TurnIs(t, history, script, turn, previous, added, r, k))
    && (forall k: nat | k < |r.seen| && k <= |r.said| :: r.seen[k] == history + [input] + (added + Flat(r.said[..k])))
    && RunEnds(t, script, turn, previous, added, r)
  }

  /** At every selection the selector sees the history, the input and all that was said;
      the member it comes down to is given the history and the same; what it says is its
      reply to that step, signed; and the run hands over all that was said and what its
      end adds. */
  lemma {:induction false} SelectorSeesEverything(
      t: GraphTeam, input: Message, history: seq<Message>, script: seq<SelectorStep>,
      turn: nat, previous: string, messages: seq<Message>, added: seq<Message>)
    requires messages == history + added
    ensures Unfolds(t, input, history, script, turn, previous, added,
                    RunFrom(t, input, history, script, turn, previous, messages, added))
    decreases |script|
  {
    var r := RunFrom(t, input, history, script, turn, previous, messages, added);
    if script == [] {
      assert added + Flat([]) == added;
    } else {
      var p := OnePass(t, script[0], turn, previous, messages, added);
      assert messages[|history|..] == added;
      PassSays(t, script[0], turn, previous, history, added);
      if p.end.None? {
        SelectorSeesEverything(t, input, history, script[1..], turn + 1, p.next, p.messages, p.added);
        var rest := RunFrom(t, input, history, script[1..], turn + 1, p.next, p.messages, p.added);
        OneTurnMore(t, input, history, script, turn, previous, added, p, rest, r);
      } else {
        LastPass(t, input, history, script, turn, previous, added, r);
      }
    }
  }

  lemma PassSays(t: GraphTeam, step: SelectorStep, turn: nat, previous: string, history: seq<Message>, added: seq<Message>)
    ensures var p := OnePass(t, step, turn, previous, history + added, added);
      match NextMember(t, previous, step.selection)
      case Chosen(m) =>
        && p.members == [m] && p.given == [history + added] && |p.said| == 1
        && Signed(p.said[0], step.reply.messages, t.base.members[m])
        && (p.end.None? <==> GoesOn(t, step.reply, turn))
        && (p.end.None? ==> p.next == t.base.members[m] && p.added == added + p.said[0] && p.messages == history + p.added)
      case _ => p.members == [] && p.end.Some?
  {
    match NextMember(t, previous, step.selection)
    case Chosen(m) =>
      WithNameSigns(step.reply.messages, t.base.members[m]);
      assert (history + added) + WithName(step.reply.messages, t.base.members[m])
          == history + (added + WithName(step.reply.messages, t.base.members[m]));
    case _ =>
  }

  lemma LastPass(t: GraphTeam, input: Message, history: seq<Message>, script: seq<SelectorStep>, turn: nat,
                 previous: string, added: seq<Message>, r: SelectorRun)
    requires script != []
    requires var p := OnePass(t, script[0], turn, previous, history + added, added);
      p.end.Some? && r == SelectorRun(p.members, [history + [input] + added], p.given, p.said, p.added, p.end.value)
    ensures Unfolds(t, input, history, script, turn, previous, added, r)
  {
    assert added + Flat([]) == added;
    match NextMember(t, previous, script[0].selection)
    case Chosen(m) =>
      WithNameSigns(script[0].reply.messages, t.base.members[m]);
      assert r.said[1..] == [] && Flat(r.said) == r.said[0] + [];
      assert r.members[..0] == [] && r.said[..0] == [];
    case _ =>
  }

  lemma OneTurnMore(t: GraphTeam, input: Message, history: seq<Message>, script: seq<SelectorStep>, turn: nat,
                    previous: string, added: seq<Message>, p: Pass, rest: SelectorRun, r: SelectorRun)
    requires script != [] && p == OnePass(t, script[0], turn, previous, history + added, added) && p.end.None?
    requires Unfolds(t, input, history, script[1..], turn + 1, p.next, p.added, rest)
    requires r == SelectorRun(p.members + rest.members, [history + [input] + added] + rest.seen, p.given + rest.given,
                              p.said + rest.said, rest.messages, rest.end)
    ensures Unfolds(t, input, history, script, turn, previous, added, r)
  {
    PassSays(t, script[0], turn, previous, history, added);
    var m, said := p.members[0], p.said[0];
    FlatCons(said, rest.said, added);
    forall k: nat | k < |r.members| ensures TurnIs(t, history, script, turn, previous, added, r, k) {
      if k == 0 {
        assert r.said[..0] == [] && added + Flat([]) == added && r.members[..0] == [];
      } else {
        assert TurnIs(t, history, script[1..], turn + 1, p.next, p.added, rest, k - 1);
        TurnLater(t, history, script, turn, previous, added, p, rest, r, k);
      }
    }
    forall k: nat | k < |r.seen| && k <= |r.said| ensures r.seen[k] == history + [input] + (added + Flat(r.said[..k])) {
      if k == 0 {
        assert r.said[..0] == [] && added + Flat([]) == added;
      } else {
        assert r.said[..k] == [said] + rest.said[..k - 1] && r.seen[k] == rest.seen[k - 1];
        FlatCons(said, rest.said[..k - 1], added);
      }
    }
    EndsLater(t, input, history, script, turn, previous, added, p, rest, r);
  }

  lemma FlatCons(said: seq<Message>, rest: seq<seq<Message>>, added: seq<Message>)
    ensures added + Flat([said] + rest) == (added + said) + Flat(rest)
  {
    assert ([said] + rest)[1..] == rest;
    assert added + (said + Flat(rest)) == (added + said) + Flat(rest);
  }

  lemma TurnLater(t: GraphTeam, history: seq<Message>, script: seq<SelectorStep>, turn: nat,
                  previous: string, added: seq<Message>, p: Pass, rest: SelectorRun, r: SelectorRun, k: nat)
    requires script != [] && |p.members| == 1 == |p.said| == |p.given| && ValidMembers(t, p.members)
    requires ValidMembers(t, rest.members) && |rest.members| == |rest.said| == |rest.given| <= |script| - 1
    requires p.next == t.base.members[p.members[0]] && p.added == added + p.said[0]
    requires r.members == p.members + rest.members && r.given == p.given + rest.given && r.said == p.said + rest.said
    requires 0 < k < |r.members| && TurnIs(t, history, script[1..], turn + 1, p.next, p.added, rest, k - 1)
    ensures TurnIs(t, history, script, turn, previous, added, r, k)
  {
    assert r.said[..k] == [p.said[0]] + rest.said[..k - 1];
    FlatCons(p.said[0], rest.said[..k - 1], added);
    PreviousCons(t, previous, p.members[0], rest.members[..k - 1]);
    assert r.members[..k] == [p.members[0]] + rest.members[..k - 1];
    assert script[k] == script[1..][k - 1];
  }

  lemma PreviousCons(t: GraphTeam, previous: string, m: nat, rest: seq<nat>)
    requires m < |t.base.members| && ValidMembers(t, rest)
    ensures ValidMembers(t, [m] + rest)
    ensures Previous(t, previous, [m] + rest) == Previous(t, t.base.members[m], rest)
  {
  }

  lemma EndsLater(t: GraphTeam, input: Message, history: seq<Message>, script: seq<SelectorStep>, turn: nat,
                  previous: string, added: seq<Message>, p: Pass, rest: SelectorRun, r: SelectorRun)
    requires script != [] && |p.members| == 1 == |p.said| && ValidMembers(t, p.members)
    requires ValidMembers(t, rest.members) && |rest.members| <= |rest.seen| <= |script| - 1
    requires p.next == t.base.members[p.members[0]] && p.added == added + p.said[0]
    requires GoesOn(t, script[0].reply, turn)
    requires RunEnds(t, script[1..], turn + 1, p.next, p.added, rest)
    requires r.members == p.members + rest.members && r.said == p.said + rest.said && |r.seen| == 1 + |rest.seen|
    requires r.messages == rest.messages && r.end == rest.end
    ensures RunEnds(t, script, turn, previous, added, r)
  {
    var n := |r.members|;
    FlatCons(p.said[0], rest.said, added);
    assert p.said == [p.said[0]] && p.members == [p.members[0]];
    PreviousCons(t, previous, p.members[0], rest.members);
    if n > 1 {
      assert script[n - 1] == script[1..][n - 2];
    }
    if n < |script| {
      assert script[n] == script[1..][n - 1];
    }
  }

  /** The map from a member's name to the members its edges lead to; names
      without such a member are absent. */
  ghost predicate IsLegalMap(t: GraphTeam, edges: seq<Edge>, legal: map<string, seq<nat>>) {
    forall from :: IsEntry(legal, from, Legal(t, edges, from))
  }

  ghost predicate IsEntry(legal: map<string, seq<nat>>, from: string, members: seq<nat>) {
    if from in legal then legal[from] == members != [] else members == []
  }

  /** Each edge out of `from` to a member adds that member behind those before; no other edge does. */
  lemma LegalEdgeByEdge(t: GraphTeam, edges: seq<Edge>, e: Edge, from: string)
    ensures Legal(t, [], from) == []
    ensures var before, legal := Legal(t, edges, from), Legal(t, edges + [e], from);
      if e.from == from && e.to in t.base.members then
        |legal| == |before| + 1 && before <= legal && t.base.members[legal[|before|]] == e.to
      else legal == before
  {
    LegalSnoc(t, edges, e, from);
  }

  lemma {:induction false} LegalSnoc(t: GraphTeam, edges: seq<Edge>, e: Edge, from: string)
    ensures Legal(t, edges + [e], from) == Legal(t, edges, from) + Target(t, e, from)
  {
    if edges == [] {
      assert [] + [e] == [e] && [e][1..] == [];
    } else {
      LegalSnoc(t, edges[1..], e, from);
      assert (edges + [e])[1..] == edges[1..] + [e];
    }
  }

  /** The map with one more edge entered. */
  function Enter(t: GraphTeam, e: Edge, legal: map<string, seq<nat>>): map<string, seq<nat>> {
    var m := MemberNamed(t.base.members, e.to);
    if m.Some? then legal[e.from := (if e.from in legal then legal[e.from] else []) + [m.value]] else legal
  }

  lemma EnteredEntry(t: GraphTeam, e: Edge, legal: map<string, seq<nat>>, from: string, members: seq<nat>)
    requires IsEntry(legal, from, members)
    ensures IsEntry(Enter(t, e, legal), from, members + Target(t, e, from))
  {
  }

  lemma LegalMapStep(t: GraphTeam, edges: seq<Edge>, e: Edge, legal: map<string, seq<nat>>)
    requires IsLegalMap(t, edges, legal)
    ensures IsLegalMap(t, edges + [e], Enter(t, e, legal))
  {
    forall from ensures IsEntry(Enter(t, e, legal), from, Legal(t, edges + [e], from)) {
      LegalSnoc(t, edges, e, from);
      EnteredEntry(t, e, legal, from, Legal(t, edges, from));
    }
  }

  lemma {:induction false} SomeLegal(t: GraphTeam, edges: seq<Edge>, e: Edge)
    requires e in edges && e.to in t.base.members
    ensures Legal(t, edges, e.from) != []
  {
    if edges[0] != e {
      SomeLegal(t, edges[1..], e);
    }
  }

  lemma LegalMapEmpty(t: GraphTeam, legal: map<string, seq<nat>>)
    requires IsLegalMap(t, t.edges, legal)
    ensures |legal| == 0 <==> !Constrained(t)
  {
    if Constrained(t) {
      var e :| e in t.edges && e.to in t.base.members;
      SomeLegal(t, t.edges, e);
      assert IsEntry(legal, e.from, Legal(t, t.edges, e.from));
      assert e.from in legal;
    }
    if |legal| != 0 {
      var from :| from in legal;
      var legalHere := Legal(t, t.edges, from);
      LegalAreEdges(t, t.edges, from);
      assert IsEntry(legal, from, legalHere) && legalHere[0] in legalHere;
      assert Edge(from, t.base.members[legalHere[0]]) in t.edges;
    }
  }

  /** A running selector team: what members are given, and what the run produced. */
  class SelectorTeam {
    const team: GraphTeam
    var messages: seq<Message>
    var newMessages: seq<Message>
    ghost var members: seq<nat>
    ghost var seen: seq<seq<Message>>
    ghost var given: seq<seq<Message>>
    ghost var said: seq<seq<Message>>

    constructor (team: GraphTeam, history: seq<Message>)
      ensures this.team == team && messages == history && newMessages == []
      ensures members == [] && seen == [] && given == [] && said == []
    {
      this.team, messages, newMessages := team, history, [];
      members, seen, given, said := [], [], [], [];
    }

    /** The edges out of each member name, collected once. */
    method BuildLegalTransitions() returns (legal: map<string, seq<nat>>)
      ensures IsLegalMap(team, team.edges, legal)
    {
      legal := map[];
      for i := 0 to |team.edges|
        invariant IsLegalMap(team, team.edges[..i], legal)
      {
        var e := team.edges[i];
        LegalMapStep(team, team.edges[..i], e, legal);
        assert team.edges[..i + 1] == team.edges[..i] + [e];
        var m := MemberNamed(team.base.members, e.to);
        if m.Some? {
          legal := legal[e.from := (if e.from in legal then legal[e.from] else []) + [m.value]];
        }
      }
      assert team.edges[..|team.edges|] == team.edges;
    }

    method DetermineNextMember(previous: string, legal: map<string, seq<nat>>, selection: Selection) returns (c: Choice)
      requires IsLegalMap(team, team.edges, legal)
      ensures c == NextMember(team, previous, selection)
    {
      LegalMapEmpty(team, legal);
      assert IsEntry(legal, previous, Legal(team, team.edges, previous));
      if |legal| == 0 || previous == "" {
        return Ask(team, All(team), selection);
      }
      var candidates := if previous in legal then legal[previous] else [];
      if |candidates| == 0 {
        return Stop([]);
      }
      if |candidates| == 1 {
        return Chosen(candidates[0]);
      }
      c := Ask(team, candidates, selection);
    }

    method TakeTurn(step: SelectorStep, turn: nat, previous: string, legal: map<string, seq<nat>>)
      returns (end: Option<SelectorEnd>, next: string)
      requires IsLegalMap(team, team.edges, legal)
      modifies this
      ensures var p := OnePass(team, step, turn, previous, old(messages), old(newMessages));
        && end == p.end && next == p.next && newMessages == p.added && messages == p.messages
        && members == old(members) + p.members && given == old(given) + p.given && said == old(said) + p.said
        && seen == old(seen)
    {
      next := previous;
      var choice := DetermineNextMember(previous, legal, step.selection);
      if choice.Stop? {
        newMessages := newMessages + choice.extra;
        return Some(SelectionEnded), next;
      }
      if choice.Fail? {
        return Some(RunFailed), next;
      }
      var named := WithName(step.reply.messages, team.base.members[choice.member]);
      members, given, said := members + [choice.member], given + [messages], said + [named];
      messages := messages + named;
      newMessages := newMessages + named;
      next := team.base.members[choice.member];
      if step.reply.fails {
        return Some(RunFailed), next;
      }
      if step.reply.terminates {
        return Some(MemberTerminated), next;
      }
      if LastTurn(team, turn) {
        newMessages := newMessages + [System(team.base.limitText)];
        return Some(TurnsExhausted), next;
      }
      end := None;
    }

    method ExecuteSelector(input: Message, script: seq<SelectorStep>) returns (end: SelectorEnd)
      requires newMessages == [] && members == [] && seen == [] && given == [] && said == []
      modifies this
      ensures SelectorRun(members, seen, given, said, newMessages, end) == RunSelector(team, input, old(messages), script)
    {
      ghost var history := messages;
      ghost var all := RunSelector(team, input, history, script);
      var legal := BuildLegalTransitions();
      var previous := "";
      assert script[0..] == script;
      for turn := 0 to |script|
        invariant |history| <= |messages|
        invariant Joined(RunFrom(team, input, history, script[turn..], turn, previous, messages, newMessages),
                         all, members, seen, given, said)
      {
        assert script[turn..][0] == script[turn] && script[turn..][1..] == script[turn + 1..];
        PassStep(team, input, history, script[turn..], turn, previous, messages, newMessages, all, members, seen, given,
                 said);
        seen := seen + [Transcript(history, input, messages)];
        var stop, next := TakeTurn(script[turn], turn, previous, legal);
        if stop.Some? {
          return stop.value;
        }
        previous := next;
      }
      end := Unfinished;
    }
  }

  /** `rest` is what remains of the run `all` after what is recorded already. */
  ghost predicate Joined(rest: SelectorRun, all: SelectorRun,
                         members: seq<nat>, seen: seq<seq<Message>>, given: seq<seq<Message>>, said: seq<seq<Message>>) {
    all == SelectorRun(members + rest.members, seen + rest.seen, given + rest.given, said + rest.said,
                       rest.messages, rest.end)
  }

  lemma PassStep(t: GraphTeam, input: Message, history: seq<Message>, script: seq<SelectorStep>,
                 turn: nat, previous: string, messages: seq<Message>, added: seq<Message>,
                 all: SelectorRun, members: seq<nat>, seen: seq<seq<Message>>, given: seq<seq<Message>>,
                 said: seq<seq<Message>>)
    requires script != [] && |history| <= |messages|
    requires Joined(RunFrom(t, input, history, script, turn, previous, messages, added), all, members, seen, given, said)
    ensures var p := OnePass(t, script[0], turn, previous, messages, added);
      var ms, gs, sd := members + p.members, given + p.given, said + p.said;
      var ss := seen + [Transcript(history, input, messages)];
      && |messages| <= |p.messages|
      && if p.end.Some? then all == SelectorRun(ms, ss, gs, sd, p.added, p.end.value)
         else Joined(RunFrom(t, input, history, script[1..], turn + 1, p.next, p.messages, p.added), all, ms, ss, gs, sd)
  {
    var p := OnePass(t, script[0], turn, previous, messages, added);
    if p.end.None? {
      JoinedAfter(p, [Transcript(history, input, messages)],
                  RunFrom(t, input, history, script[1..], turn + 1, p.next, p.messages, p.added),
                  all, members, seen, given, said);
    }
  }

  lemma JoinedAfter(p: Pass, now: seq<seq<Message>>, rest: SelectorRun, all: SelectorRun, members: seq<nat>,
                    seen: seq<seq<Message>>, given: seq<seq<Message>>, said: seq<seq<Message>>)
    requires Joined(SelectorRun(p.members + rest.members, now + rest.seen, p.given + rest.given, p.said + rest.said,
                                rest.messages, rest.end),
                    all, members, seen, given, said)
    ensures Joined(rest, all, members + p.members, seen + now, given + p.given, said + p.said)
  {
    assert members + (p.members + rest.members) == (members + p.members) + rest.members;
    assert given + (p.given + rest.given) == (given + p.given) + rest.given;
    assert said + (p.said + rest.said) == (said + p.said) + rest.said;
    assert seen + (now + rest.seen) == (seen + now) + rest.seen;
  }
}
