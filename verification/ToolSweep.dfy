/** Keeping one tool object per tool of a server: create or update each, then
    delete the server's objects that no tool stands for any more. */
module ToolSweep {
  import opened Messages

  datatype McpTool = McpTool(name: string, description: string, schema: string)

  datatype Spec = McpSpec(server: string, tool: McpTool) | OtherSpec(text: string)

  /** A stored object; `owner` is its label, naming the server it belongs to. */
  datatype Object = Object(owner: Option<string>, spec: Spec)

  type Store = map<string, Object>

  function SanitizedChar(c: char): char {
    if c == '_' then '-' else if 'A' <= c <= 'Z' then c - 'A' + 'a' else c
  }

  function ToolName(server: string, tool: string): string {
    server + "-" + seq(|tool|, i requires 0 <= i < |tool| => SanitizedChar(tool[i]))
  }

  /** A tool is stored under the server's name, a dash, and its own name letter by letter:
      a capital as its small letter, an underscore as a dash, all else as it is. */
  lemma StoredUnder(server: string, tool: string)
    ensures var name, n := ToolName(server, tool), |server|;
      && |name| == n + 1 + |tool| && name[..n] == server && name[n] == '-'
      && forall i | 0 <= i < |tool| ::
           var c, d := tool[i], name[n + 1 + i];
           if c == '_' then d == '-'
           else if 'A' <= c <= 'Z' then 'a' <= d <= 'z' && d as int - 'a' as int == c as int - 'A' as int
           else d == c
  {
  }

  function Names(server: string, tools: seq<McpTool>): set<string> {
    set i | 0 <= i < |tools| :: ToolName(server, tools[i].name)
  }

  function PutOne(store: Store, server: string, tool: McpTool): Store {
    var name, spec := ToolName(server, tool.name), McpSpec(server, tool);
    store[name := if name in store then store[name].(spec := spec) else Object(Some(server), spec)]
  }

  predicate Alters(store: Store, server: string, tool: McpTool) {
    var name := ToolName(server, tool.name);
    name !in store || store[name].spec != McpSpec(server, tool)
  }

  function PutAll(store: Store, server: string, tools: seq<McpTool>): Store {
    if tools == [] then store
    else PutOne(PutAll(store, server, tools[..|tools| - 1]), server, tools[|tools| - 1])
  }

  /** Some tool, when its turn comes, creates or updates an object. */
  predicate AltersAny(store: Store, server: string, tools: seq<McpTool>) {
    tools != [] &&
    (AltersAny(store, server, tools[..|tools| - 1])
     || Alters(PutAll(store, server, tools[..|tools| - 1]), server, tools[|tools| - 1]))
  }

  /** The last tool that is stored under the name. */
  function LastNamed(server: string, tools: seq<McpTool>, name: string): (t: McpTool)
    requires name in Names(server, tools)
    ensures t in tools && ToolName(server, t.name) == name
  {
    var n := |tools| - 1;
    if ToolName(server, tools[n].name) == name then tools[n] else LastNamed(server, tools[..n], name)
  }

  predicate NamesLast(server: string, tools: seq<McpTool>, name: string, i: nat)
    requires i < |tools|
  {
    && ToolName(server, tools[i].name) == name
    && forall j | i < j < |tools| :: ToolName(server, tools[j].name) != name
  }

  /** Of the tools of one name it is the one listed last. */
  lemma {:induction false} LastOfItsName(server: string, tools: seq<McpTool>, name: string) returns (i: nat)
    requires name in Names(server, tools)
    ensures i < |tools| && NamesLast(server, tools, name, i) && tools[i] == LastNamed(server, tools, name)
  {
    i := |tools| - 1;
    if ToolName(server, tools[i].name) != name {
      NamesSnoc(server, tools);
      var n := |tools| - 1;
      i := LastOfItsName(server, tools[..n], name);
      assert forall j | 0 <= j < n :: tools[..n][j] == tools[j];
    }
  }

  function Labelled(store: Store, server: string): set<string> {
    set name | name in store && store[name].owner == Some(server)
  }

  function Zombies(store: Store, server: string, tools: seq<McpTool>): set<string> {
    Labelled(store, server) - Names(server, tools)
  }

  /** What the store holds after a successful sweep: for each generated name the
      last tool of that name, under the label the object already had; of the
      others, all that are not the server's, as they were. */
  function Synced(store: Store, server: string, tools: seq<McpTool>): Store {
    map name | name in store.Keys - Zombies(store, server, tools) + Names(server, tools) ::
      if name in Names(server, tools) then
        Object(if name in store then store[name].owner else Some(server),
               McpSpec(server, LastNamed(server, tools, name)))
      else store[name]
  }

  lemma NamesSnoc(server: string, tools: seq<McpTool>)
    requires tools != []
    ensures var n := |tools| - 1;
      Names(server, tools) == Names(server, tools[..n]) + {ToolName(server, tools[n].name)}
  {
    var n := |tools| - 1;
    forall x | x in Names(server, tools) ensures x in Names(server, tools[..n]) + {ToolName(server, tools[n].name)} {
      var i :| 0 <= i < |tools| && ToolName(server, tools[i].name) == x;
      if i < n {
        assert tools[..n][i] == tools[i];
      }
    }
    forall x | x in Names(server, tools[..n]) ensures x in Names(server, tools) {
      var i :| 0 <= i < n && ToolName(server, tools[..n][i].name) == x;
      assert tools[i] == tools[..n][i];
    }
    assert ToolName(server, tools[n].name) in Names(server, tools);
  }

  lemma {:induction false} PutAllHolds(store: Store, server: string, tools: seq<McpTool>)
    ensures var put, names := PutAll(store, server, tools), Names(server, tools);
      && put.Keys == store.Keys + names
      && (forall name | name in names ::
            put[name] == Object(if name in store then store[name].owner else Some(server),
                                McpSpec(server, LastNamed(server, tools, name))))
      && (forall name | name in store && name !in names :: put[name] == store[name])
  {
    if tools != [] {
      PutAllHolds(store, server, tools[..|tools| - 1]);
      NamesSnoc(server, tools);
    }
  }

  lemma SweptIsSynced(store: Store, server: string, tools: seq<McpTool>)
    ensures PutAll(store, server, tools) - Zombies(store, server, tools) == Synced(store, server, tools)
  {
    PutAllHolds(store, server, tools);
  }

  /** Two tools that are stored under one name are the same tool. */
  ghost predicate NoClash(server: string, tools: seq<McpTool>) {
    forall s, t | s in tools && t in tools && ToolName(server, s.name) == ToolName(server, t.name) :: s == t
  }

  /** The store already holds every tool under its name. */
  predicate HoldsAll(store: Store, server: string, tools: seq<McpTool>) {
    forall i | 0 <= i < |tools| :: !Alters(store, server, tools[i])
  }

  lemma {:induction false} AltersNothing(store: Store, server: string, tools: seq<McpTool>)
    ensures AltersAny(store, server, tools) <==> !HoldsAll(store, server, tools)
    ensures HoldsAll(store, server, tools) ==> PutAll(store, server, tools) == store
  {
    if tools != [] {
      var n := |tools| - 1;
      AltersNothing(store, server, tools[..n]);
      assert forall i | 0 <= i < n :: tools[..n][i] == tools[i];
      assert HoldsAll(store, server, tools) <==> HoldsAll(store, server, tools[..n]) && !Alters(store, server, tools[n]);
    }
  }

  lemma SyncedIsStable(store: Store, server: string, tools: seq<McpTool>)
    ensures var synced := Synced(store, server, tools);
      Zombies(synced, server, tools) == {} && Synced(synced, server, tools) == synced
  {
    var synced := Synced(store, server, tools);
    assert Zombies(synced, server, tools) == {};
    assert Synced(synced, server, tools).Keys == synced.Keys;
  }

  lemma SecondSweepQuiet(store: Store, server: string, tools: seq<McpTool>)
    ensures HoldsAll(Synced(store, server, tools), server, tools) <==> NoClash(server, tools)
  {
    var synced := Synced(store, server, tools);
    if NoClash(server, tools) {
      forall i | 0 <= i < |tools| ensures !Alters(synced, server, tools[i]) {
        var name := ToolName(server, tools[i].name);
        assert name in Names(server, tools);
        assert tools[i] in tools && LastNamed(server, tools, name) == tools[i];
      }
    }
    if HoldsAll(synced, server, tools) {
      forall s, t | s in tools && t in tools && ToolName(server, s.name) == ToolName(server, t.name) ensures s == t {
        var i :| 0 <= i < |tools| && tools[i] == s;
        var j :| 0 <= j < |tools| && tools[j] == t;
        assert !Alters(synced, server, tools[i]) && !Alters(synced, server, tools[j]);
      }
    }
  }

  /** The labelled objects afterwards are exactly the generated names if and only if
      no object of another owner had one of those names; a second sweep finds nothing
      to do if and only if no two different tools share a generated name. */
  lemma SweepConverges(store: Store, server: string, tools: seq<McpTool>)
    ensures var synced := Synced(store, server, tools);
      && (Labelled(synced, server) == Names(server, tools)
          <==> forall name | name in Names(server, tools) && name in store :: store[name].owner == Some(server))
      && Synced(synced, server, tools) == synced
      && (AltersAny(synced, server, tools) || Zombies(synced, server, tools) != {} <==> !NoClash(server, tools))
  {
    AltersNothing(Synced(store, server, tools), server, tools);
    SyncedIsStable(store, server, tools);
    SecondSweepQuiet(store, server, tools);
    LabelsAfterwards(store, server, tools);
  }

  lemma LabelsAfterwards(store: Store, server: string, tools: seq<McpTool>)
    ensures Labelled(Synced(store, server, tools), server) == Names(server, tools)
      <==> forall name | name in Names(server, tools) && name in store :: store[name].owner == Some(server)
  {
    var synced, names := Synced(store, server, tools), Names(server, tools);
    assert Labelled(synced, server) <= names;
    if forall name | name in names && name in store :: store[name].owner == Some(server) {
      assert names <= Labelled(synced, server);
    } else {
      var name :| name in names && name in store && store[name].owner != Some(server);
      assert name !in Labelled(synced, server);
    }
  }

  /** `a_b` and `a-b` are stored under one name: every sweep changes the object
      twice and none ever finds the store settled. */
  lemma UnderscoreClash(store: Store, server: string)
    ensures var tools := [McpTool("a_b", "", ""), McpTool("a-b", "", "")];
      AltersAny(Synced(store, server, tools), server, tools)
  {
    var s, t := McpTool("a_b", "", ""), McpTool("a-b", "", "");
    var tools := [s, t];
    assert s.name[1] != t.name[1];
    assert seq(3, i requires 0 <= i < 3 => SanitizedChar(s.name[i])) == "a-b";
    assert seq(3, i requires 0 <= i < 3 => SanitizedChar(t.name[i])) == "a-b";
    assert ToolName(server, s.name) == ToolName(server, t.name);
    assert s in tools && t in tools && s != t;
    SweepConverges(store, server, tools);
    assert Zombies(Synced(store, server, tools), server, tools) == {};
  }

  /** The marks of a sweep: the server's objects and the names met so far, with the latter marked. */
  ghost predicate Marked(toolMap: map<string, bool>, existing: set<string>, met: set<string>) {
    toolMap.Keys == existing + met && forall name | name in toolMap :: toolMap[name] <==> name in met
  }

  /** What a sweep leaves alone: objects neither the server's nor named by a tool. */
  ghost predicate LeavesOthers(before: Store, after: Store, server: string, tools: seq<McpTool>) {
    forall name | name in before && name !in Labelled(before, server) + Names(server, tools) ::
      name in after && after[name] == before[name]
  }

  lemma PrefixLeavesOthers(store: Store, server: string, tools: seq<McpTool>, i: nat)
    requires i <= |tools|
    ensures LeavesOthers(store, PutAll(store, server, tools[..i]), server, tools)
    ensures i < |tools| ==>
      LeavesOthers(store, PutOne(PutAll(store, server, tools[..i]), server, tools[i]), server, tools)
  {
    PutAllHolds(store, server, tools[..i]);
    forall name | name in Names(server, tools[..i]) ensures name in Names(server, tools) {
      var j :| 0 <= j < i && ToolName(server, tools[..i][j].name) == name;
      assert tools[j] == tools[..i][j];
    }
    if i < |tools| {
      assert ToolName(server, tools[i].name) in Names(server, tools);
    }
  }

  lemma SweptLeavesOthers(store: Store, server: string, tools: seq<McpTool>, gone: set<string>)
    requires gone <= Zombies(store, server, tools)
    ensures LeavesOthers(store, PutAll(store, server, tools) - gone, server, tools)
  {
    assert tools[..|tools|] == tools;
    PrefixLeavesOthers(store, server, tools, |tools|);
  }

  lemma SnocStep(store: Store, server: string, tools: seq<McpTool>, i: nat)
    requires i < |tools|
    ensures Names(server, tools[..i + 1]) == Names(server, tools[..i]) + {ToolName(server, tools[i].name)}
    ensures PutAll(store, server, tools[..i + 1]) == PutOne(PutAll(store, server, tools[..i]), server, tools[i])
    ensures AltersAny(store, server, tools[..i + 1])
      <==> AltersAny(store, server, tools[..i]) || Alters(PutAll(store, server, tools[..i]), server, tools[i])
  {
    assert tools[..i + 1][..i] == tools[..i];
    NamesSnoc(server, tools[..i + 1]);
  }

  /** The cluster's objects; any call may fail, and a failed one changes nothing. */
  class Cluster {
    var objects: Store
    var calls: nat
    const succeeds: nat -> bool

    constructor (objects: Store, succeeds: nat -> bool)
      ensures this.objects == objects && this.succeeds == succeeds
    {
      this.objects, this.succeeds, calls := objects, succeeds, 0;
    }

    method Call() returns (ok: bool)
      modifies this`calls
    {
      ok := succeeds(calls);
      calls := calls + 1;
    }

    method CreateOrUpdate(server: string, tool: McpTool) returns (ok: bool, changed: bool)
      modifies this
      ensures objects == old(objects) || objects == PutOne(old(objects), server, tool)
      ensures ok ==> objects == PutOne(old(objects), server, tool) && changed == Alters(old(objects), server, tool)
    {
      changed := false;
      var name, spec := ToolName(server, tool.name), McpSpec(server, tool);
      ok := Call();
      if !ok {
        return;
      }
      if name !in objects {
        ok := Call();
        if ok {
          objects := objects[name := Object(Some(server), spec)];
          changed := true;
        }
        return;
      }
      if objects[name].spec == spec {
        assert objects[name].(spec := spec) == objects[name];
        return;
      }
      ok := Call();
      if ok {
        objects := objects[name := objects[name].(spec := spec)];
        changed := true;
      }
    }

    /** On success the store is the synced one. Whether or not it succeeds, objects
        that are neither the server's nor named by a tool are left alone. */
    method CreateTools(server: string, tools: seq<McpTool>) returns (ok: bool, changed: bool)
      modifies this
      ensures ok ==> objects == Synced(old(objects), server, tools)
      ensures ok ==> changed == (AltersAny(old(objects), server, tools) || Zombies(old(objects), server, tools) != {})
      ensures LeavesOthers(old(objects), objects, server, tools)
    {
      changed := false;
      ok := Call();
      if !ok {
        return;
      }
      var existing := Labelled(objects, server);
      var toolMap: map<string, bool>;
      ok, changed, toolMap := PutTools(server, tools, existing);
      if !ok {
        return;
      }
      SweptIsSynced(old(objects), server, tools);
      var zombies := set name | name in toolMap && !toolMap[name];
      assert zombies == Zombies(old(objects), server, tools);
      ok, changed := DeleteZombies(zombies, changed);
      ghost var gone :| gone <= zombies && objects == PutAll(old(objects), server, tools) - gone;
      SweptLeavesOthers(old(objects), server, tools, gone);
    }

    /** Creates or updates the object of each tool and marks its name. */
    method PutTools(server: string, tools: seq<McpTool>, existing: set<string>)
      returns (ok: bool, changed: bool, toolMap: map<string, bool>)
      modifies this
      ensures LeavesOthers(old(objects), objects, server, tools)
      ensures ok ==> objects == PutAll(old(objects), server, tools) && changed == AltersAny(old(objects), server, tools)
      ensures ok ==> Marked(toolMap, existing, Names(server, tools))
    {
      ok, changed := true, false;
      toolMap := map name | name in existing :: false;
      for i := 0 to |tools|
        invariant ok && objects == PutAll(old(objects), server, tools[..i])
        invariant changed == AltersAny(old(objects), server, tools[..i])
        invariant Marked(toolMap, existing, Names(server, tools[..i]))
      {
        SnocStep(old(objects), server, tools, i);
        PrefixLeavesOthers(old(objects), server, tools, i);
        toolMap := toolMap[ToolName(server, tools[i].name) := true];
        var toolChanged;
        ok, toolChanged := CreateOrUpdate(server, tools[i]);
        if !ok {
          return;
        }
        if toolChanged {
          changed := true;
        }
      }
      assert tools[..|tools|] == tools;
      PrefixLeavesOthers(old(objects), server, tools, |tools|);
    }

    method DeleteZombies(zombies: set<string>, changedBefore: bool) returns (ok: bool, changed: bool)
      modifies this
      ensures exists gone :: gone <= zombies && objects == old(objects) - gone
      ensures ok ==> objects == old(objects) - zombies && changed == (changedBefore || zombies != {})
    {
      ok, changed := true, changedBefore;
      var rest := zombies;
      ghost var gone: set<string> := {};
      while rest != {}
        invariant gone + rest == zombies && objects == old(objects) - gone
        invariant changed == (changedBefore || gone != {})
        decreases rest
      {
        var name :| name in rest;
        ok := Call();
        if !ok {
          return;
        }
        objects := objects - {name};
        gone, rest := gone + {name}, rest - {name};
        changed := true;
      }
      ok := true;
    }
  }
}
