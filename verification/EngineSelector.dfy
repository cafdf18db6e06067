/** A selector that runs on an engine: its free-text reply, and the member it makes the
    team choose. */
module EngineSelector {
  import opened Messages
  import opened Text
  import opened TeamSequential
  import opened TeamSelector
  import SR = SelectorReplies

  /** The members the selector may name. */
  function Candidates(t: GraphTeam, previous: string): (cs: seq<nat>)
    ensures ValidMembers(t, cs)
  {
    if !Constrained(t) || previous == "" then All(t) else Legal(t, t.edges, previous)
  }

  function Names(t: GraphTeam, candidates: seq<nat>): seq<string>
    requires ValidMembers(t, candidates)
  {
    seq(|candidates|, i requires 0 <= i < |candidates| => t.base.members[candidates[i]])
  }

  /** What a reply comes down to. One that names nobody is handed on as the name it fails to be. */
  function EngineSelection(reply: string, names: seq<string>, terminateEnabled: bool): Selection {
    var closing := if terminateEnabled then SR.ParseTerminate(reply, SR.TerminateToken(names)) else None;
    if closing.Some? then Ended(closing.value, [Assistant(closing.value, "", [])])
    else
      var name := SR.MatchName(reply, names);
      Named(if name.Some? then name.value else TrimSpace(reply))
  }

  /** The member chosen, or how the run ends, when the selector replies so. */
  function ChoiceFor(t: GraphTeam, previous: string, reply: string, terminateEnabled: bool): Choice {
    NextMember(t, previous, EngineSelection(reply, Names(t, Candidates(t, previous)), terminateEnabled))
  }

  lemma {:induction false} ResolveFinds(t: GraphTeam, candidates: seq<nat>, name: string)
    requires ValidMembers(t, candidates)
    ensures Resolve(t, candidates, name).Some? <==> name in Names(t, candidates)
  {
    if candidates != [] {
      ResolveFinds(t, candidates[1..], name);
      assert Names(t, candidates) == [t.base.members[candidates[0]]] + Names(t, candidates[1..]);
    }
  }

  /** A reply that is the name of a member the graph allows, in any case and with blanks
      around it, makes the team choose a member of that name, whether or not the selector
      may also stop; members have valid object names. */
  lemma NamedMemberIsChosen(t: GraphTeam, previous: string, reply: string, terminateEnabled: bool, name: string)
    requires forall i | 0 <= i < |t.base.members| :: SR.ValidName(t.base.members[i])
    requires name in Names(t, Candidates(t, previous)) && SR.EqualFold(TrimSpace(reply), name)
    ensures var c := ChoiceFor(t, previous, reply, terminateEnabled);
      c.Chosen? && c.member in Candidates(t, previous) && t.base.members[c.member] == name
  {
    var candidates := Candidates(t, previous);
    var names := Names(t, candidates);
    forall i | 0 <= i < |names| ensures SR.ValidName(names[i]) {
      assert names[i] == t.base.members[candidates[i]];
    }
    SR.NameIsNeverTermination(reply, names, name);
    ResolveFinds(t, candidates, name);
  }

  /** Whatever the selector answers: behind a member from which the graph leads nowhere the
      run stops, and where it leads to one member only that is the next. Otherwise a name
      decides if a candidate has it; to name nobody else or nobody at all stops the run
      with a warning, to ask for its end stops it with the closing messages of a response
      that says something, and a selector that fails makes the run fail. */
  lemma SelectionDecides(t: GraphTeam, previous: string, selection: Selection)
    ensures var candidates, c := Candidates(t, previous), NextMember(t, previous, selection);
      var led := previous != "" && exists e :: e in t.edges && e.to in t.base.members;
      if led && |candidates| == 0 then c == Stop([])
      else if led && |candidates| == 1 then c == Chosen(candidates[0])
      else match selection
           case Named(name) =>
             if name in Names(t, candidates) then
               c.Chosen? && c.member in candidates && t.base.members[c.member] == name
             else c == Stop([System("invalid agent")])
           case NotCalled => c == Stop([System("tool not used")])
           case Ended(response, closing) => c == Stop(if response == "" then [] else closing)
           case SelectorFailed => c == Fail
  {
    if selection.Named? {
      AskedByName(t, Candidates(t, previous), selection.name);
    }
  }

  /** When there is a choice to make, the reply chooses a member exactly when it is no
      request to stop and names one; it ends the run without a warning exactly when it is
      a request to stop; and any other reply ends the run with a warning. */
  lemma ReplyDecides(t: GraphTeam, previous: string, reply: string, terminateEnabled: bool)
    requires |Candidates(t, previous)| > 1
    ensures var names := Names(t, Candidates(t, previous));
      var stop := if terminateEnabled then SR.ParseTerminate(reply, SR.TerminateToken(names)) else None;
      var named, c := SR.MatchName(reply, names), ChoiceFor(t, previous, reply, terminateEnabled);
      if stop.Some? then c == Stop(if stop.value != "" then [Assistant(stop.value, "", [])] else [])
      else if named.Some? then
        c.Chosen? && c.member in Candidates(t, previous) && t.base.members[c.member] == named.value
      else c == Stop([INVALID])
  {
    var candidates := Candidates(t, previous);
    var names := Names(t, candidates);
    var name := SR.MatchName(reply, names);
    MatchIsACandidate(reply, names);
    AskedByName(t, candidates, if name.Some? then name.value else TrimSpace(reply));
    NextIsAsked(t, previous, EngineSelection(reply, names, terminateEnabled));
  }

  lemma NextIsAsked(t: GraphTeam, previous: string, selection: Selection)
    requires |Candidates(t, previous)| > 1
    ensures NextMember(t, previous, selection) == Ask(t, Candidates(t, previous), selection)
  {
  }

  lemma AskedByName(t: GraphTeam, candidates: seq<nat>, name: string)
    requires ValidMembers(t, candidates)
    ensures var c := Ask(t, candidates, Named(name));
      if name in Names(t, candidates) then
        c.Chosen? && c.member in candidates && t.base.members[c.member] == name
      else c == Stop([INVALID])
  {
    ResolveFinds(t, candidates, name);
  }

  /** Whatever is matched is one of the names. */
  lemma MatchIsACandidate(reply: string, names: seq<string>)
    ensures SR.MatchName(reply, names).Some? ==> SR.MatchName(reply, names).value in names
    ensures SR.MatchName(reply, names).None? ==> TrimSpace(reply) !in names
  {
    var selected := TrimSpace(reply);
    FoldedIsACandidate(names, selected);
    var mentioned := SR.Mentioned(SR.Lower(selected), names);
    SR.MentionedMembers(SR.Lower(selected), names);
    SR.LongestMembers(mentioned, mentioned);
    var longest := SR.Longest(mentioned, mentioned);
    if |longest| == 1 {
      assert longest[0] in longest;
    }
  }

  lemma {:induction false} FoldedIsACandidate(names: seq<string>, selected: string)
    ensures SR.FirstFold(names, selected).Some? ==> SR.FirstFold(names, selected).value in names
  {
    if names != [] {
      FoldedIsACandidate(names[1..], selected);
    }
  }

  /** A graph and a reply together: no reply whatever makes a run leave the graph. */
  lemma RepliesRespectGraph(t: GraphTeam, previous: string, reply: string, terminateEnabled: bool)
    requires Constrained(t) && previous != ""
    ensures var c := ChoiceFor(t, previous, reply, terminateEnabled);
      c.Chosen? ==> Edge(previous, t.base.members[c.member]) in t.edges
  {
    var selection := EngineSelection(reply, Names(t, Candidates(t, previous)), terminateEnabled);
    if NextMember(t, previous, selection).Chosen? {
      NextIsAnEdge(t, previous, selection);
    }
  }
}
