/** Whether a team may delegate to an agent: a search over the graph of nested
    teams, which may be cyclic. */
module TeamReach {
  import opened Messages

  datatype Member = AgentMember(name: string) | TeamMember(name: string) | OtherMember(name: string)

  datatype Team = Team(selectorAgent: Option<string>, members: seq<Member>)

  type Store = map<string, Team>

  datatype Answer = Reaches | DoesNotReach | MissingTeam(name: string)

  predicate HasAgent(t: Team, agent: string) {
    t.selectorAgent == Some(agent) || AgentMember(agent) in t.members
  }

  predicate Contains(store: Store, outer: string, inner: string) {
    outer in store && TeamMember(inner) in store[outer].members
  }

  /** A chain of teams, each a member of the one before. */
  ghost predicate Chain(store: Store, p: seq<string>) {
    p != [] && forall i | 0 < i < |p| :: Contains(store, p[i - 1], p[i])
  }

  ghost predicate Reachable(store: Store, root: string, name: string) {
    exists p :: Chain(store, p) && p[0] == root && p[|p| - 1] == name
  }

  lemma ReachableStep(store: Store, root: string, outer: string, inner: string)
    requires Reachable(store, root, outer) && Contains(store, outer, inner)
    ensures Reachable(store, root, inner)
  {
    var p :| Chain(store, p) && p[0] == root && p[|p| - 1] == outer;
    var q := p + [inner];
    assert Chain(store, q) && q[0] == root && q[|q| - 1] == inner;
  }

  lemma RootReachable(store: Store, root: string)
    ensures Reachable(store, root, root)
  {
    assert Chain(store, [root]) && [root][0] == root;
  }

  lemma {:induction false} ClosedHoldsChain(store: Store, closed: set<string>, p: seq<string>)
    requires Chain(store, p) && p[0] in closed
    requires forall outer, inner :: outer in closed && Contains(store, outer, inner) ==> inner in closed
    ensures p[|p| - 1] in closed
  {
    if |p| > 1 {
      var init := p[..|p| - 1];
      assert Chain(store, init);
      ClosedHoldsChain(store, closed, init);
      assert Contains(store, p[|p| - 2], p[|p| - 1]);
    }
  }

  /** A set that holds the root and the members of its teams holds all reachable teams. */
  lemma ClosedHoldsReachable(store: Store, closed: set<string>, root: string)
    requires root in closed
    requires forall outer, inner :: outer in closed && Contains(store, outer, inner) ==> inner in closed
    ensures forall name :: Reachable(store, root, name) ==> name in closed
  {
    forall name | Reachable(store, root, name) ensures name in closed {
      var p :| Chain(store, p) && p[0] == root && p[|p| - 1] == name;
      ClosedHoldsChain(store, closed, p);
    }
  }

  /** The search ends on every graph, cyclic or not. It finds the agent only in a
      reachable team, denies it only when every reachable team exists and lacks the
      agent, and reports a missing team only if that team is reachable. */
  method TeamReachesAgent(store: Store, root: string, agent: string) returns (answer: Answer)
    ensures answer.Reaches? ==>
      exists name :: Reachable(store, root, name) && name in store && HasAgent(store[name], agent)
    ensures answer.DoesNotReach? ==>
      forall name :: Reachable(store, root, name) ==> name in store && !HasAgent(store[name], agent)
    ensures answer.MissingTeam? ==> Reachable(store, root, answer.name) && answer.name !in store
  {
    var visited: set<string> := {};
    var pending := [root];
    RootReachable(store, root);
    while pending != []
      invariant root in visited || root in pending
      invariant forall name | name in visited :: name in store && !HasAgent(store[name], agent)
      invariant forall name | name in visited || name in pending :: Reachable(store, root, name)
      invariant forall outer, inner :: outer in visited && Contains(store, outer, inner) ==>
        inner in visited || inner in pending
      decreases store.Keys - visited, |pending|
    {
      var name := pending[0];
      ghost var before := pending;
      pending := pending[1..];
      assert before == [name] + pending;
      if name in visited {
        continue;
      }
      if name !in store {
        return MissingTeam(name);
      }
      var team := store[name];
      if team.selectorAgent.Some? && team.selectorAgent.value == agent {
        return Reaches;
      }
      visited := visited + {name};
      var start := pending;
      for i := 0 to |team.members|
        invariant start <= pending
        invariant forall k | 0 <= k < i :: team.members[k] != AgentMember(agent)
        invariant forall k | 0 <= k < i && team.members[k].TeamMember? :: team.members[k].name in pending
        invariant forall n | n in pending :: Reachable(store, root, n)
      {
        match team.members[i]
        case AgentMember(n) =>
          if n == agent {
            return Reaches;
          }
        case TeamMember(n) =>
          ReachableStep(store, root, name, n);
          pending := pending + [n];
        case OtherMember(_) =>
      }
    }
    ClosedHoldsReachable(store, visited, root);
    answer := DoesNotReach;
  }
}
