/** Turning a conversation into alternating turns, and marking the one to cache. */
module AnthropicTurns {
  import opened Messages

  datatype Role = UserRole | AssistantRole

  datatype Turn = Turn(role: Role, text: string, merged: bool)

  const SEPARATOR := "\n\n"

  /** Named assistants speak under their name; tool results speak as the user. */
  function TurnFor(m: Message): Turn
    requires !m.System?
  {
    match m
    case User(content) => Turn(UserRole, content, false)
    case Tool(content, _) => Turn(UserRole, content, false)
    case Assistant(content, name, _) =>
      Turn(AssistantRole, if name != "" then name + ": " + content else content, false)
  }

  /** The turns of all messages that say something, system messages aside. */
  function Collected(ms: seq<Message>): seq<Turn> {
    if ms == [] then []
    else Collected(ms[..|ms| - 1])
         + if ms[|ms| - 1].System? || ms[|ms| - 1].content == "" then [] else [TurnFor(ms[|ms| - 1])]
  }

  /** The last system message that says something. */
  function SystemPrompt(ms: seq<Message>): Option<string> {
    if ms == [] then None
    else if ms[|ms| - 1].System? && ms[|ms| - 1].content != "" then Some(ms[|ms| - 1].content)
    else SystemPrompt(ms[..|ms| - 1])
  }

  /** Adds a turn: into the last one when the role is the same, else behind it. */
  function Add(merged: seq<Turn>, t: Turn): seq<Turn> {
    var n := |merged|;
    if n > 0 && merged[n - 1].role == t.role then
      merged[n - 1 := merged[n - 1].(text := merged[n - 1].text + SEPARATOR + t.text, merged := true)]
    else merged + [t]
  }

  function AddAll(merged: seq<Turn>, ts: seq<Turn>): seq<Turn>
    decreases |ts|
  {
    if ts == [] then merged else AddAll(Add(merged, ts[0]), ts[1..])
  }

  function Merge(ts: seq<Turn>): seq<Turn> {
    AddAll([], ts)
  }

  predicate Alternating(ts: seq<Turn>) {
    forall i | 0 < i < |ts| :: ts[i - 1].role != ts[i].role
  }

  /** The length of the run of equal roles at the front. */
  function RunLength(ts: seq<Turn>): (n: nat)
    requires ts != []
    ensures 1 <= n <= |ts|
    ensures forall i | 0 <= i < n :: ts[i].role == ts[0].role
    ensures n < |ts| ==> ts[n].role != ts[0].role
    decreases |ts|
  {
    if |ts| == 1 || ts[1].role != ts[0].role then 1 else 1 + RunLength(ts[1..])
  }

  function JoinTexts(ts: seq<Turn>): string
    requires ts != []
  {
    if |ts| == 1 then ts[0].text else JoinTexts(ts[..|ts| - 1]) + "\n\n" + ts[|ts| - 1].text
  }

  /** One turn per maximal run of equal roles: the texts of the run in order,
      marked as merged when the run has two members or more. */
  function RunByRun(ts: seq<Turn>): seq<Turn>
    decreases |ts|
  {
    if ts == [] then []
    else
      var n := RunLength(ts);
      [Turn(ts[0].role, JoinTexts(ts[..n]), n >= 2 || ts[0].merged)] + RunByRun(ts[n..])
  }

  lemma {:induction false} AddAllAppend(acc: seq<Turn>, a: seq<Turn>, b: seq<Turn>)
    ensures AddAll(acc, a + b) == AddAll(AddAll(acc, a), b)
    decreases |a|
  {
    if a == [] {
      assert a + b == b;
    } else {
      assert (a + b)[1..] == a[1..] + b;
      AddAllAppend(Add(acc, a[0]), a[1..], b);
    }
  }

  /** Everything but the last turn stays as it is when turns are added. */
  lemma {:induction false} AddAllKeepsFront(acc: seq<Turn>, ts: seq<Turn>)
    ensures acc != [] ==> |acc| <= |AddAll(acc, ts)| && acc[..|acc| - 1] <= AddAll(acc, ts)
    decreases |ts|
  {
    if ts != [] {
      AddAllKeepsFront(Add(acc, ts[0]), ts[1..]);
    }
  }

  lemma {:induction false} AddAllAlternates(acc: seq<Turn>, ts: seq<Turn>)
    requires Alternating(acc)
    ensures Alternating(AddAll(acc, ts))
    decreases |ts|
  {
    if ts != [] {
      AddAllAlternates(Add(acc, ts[0]), ts[1..]);
    }
  }

  lemma {:induction false} AlternatingUnchanged(acc: seq<Turn>, ts: seq<Turn>)
    requires Alternating(acc + ts)
    ensures AddAll(acc, ts) == acc + ts
    decreases |ts|
  {
    if ts == [] {
      assert acc + ts == acc;
    } else {
      assert (acc + ts)[|acc|] == ts[0];
      if acc != [] {
        assert (acc + ts)[|acc| - 1] == acc[|acc| - 1];
      }
      assert (acc + [ts[0]]) + ts[1..] == acc + ts;
      AlternatingUnchanged(acc + [ts[0]], ts[1..]);
    }
  }

  /** Merging never leaves equal neighbours, can be done in stages, and only ever
      touches the last turn when the conversation goes on: all turns before it are
      the front of every later request. */
  lemma MergeInStages(xs: seq<Turn>, ys: seq<Turn>)
    ensures Alternating(Merge(xs))
    ensures Merge(xs + ys) == Merge(Merge(xs) + ys)
    ensures Merge(xs) != [] ==> Merge(xs)[..|Merge(xs)| - 1] <= Merge(xs + ys)
  {
    AddAllAlternates([], xs);
    AddAllAppend([], xs, ys);
    AlternatingUnchanged([], Merge(xs));
    assert [] + Merge(xs) == Merge(xs);
    AddAllAppend([], Merge(xs), ys);
    AddAllKeepsFront(Merge(xs), ys);
  }

  /** The turn that `front`, a run led by `t`, merges into. */
  function Whole(t: Turn, front: seq<Turn>): Turn
    requires front != []
  {
    Turn(t.role, JoinTexts(front), |front| >= 2 || t.merged)
  }

  lemma {:induction false} RunAdded(acc: seq<Turn>, t: Turn, front: seq<Turn>, run: seq<Turn>)
    requires front != [] && forall i | 0 <= i < |run| :: run[i].role == t.role
    ensures AddAll(acc + [Whole(t, front)], run) == acc + [Whole(t, front + run)]
    decreases |run|
  {
    if run == [] {
      assert front + run == front;
    } else {
      var next := front + [run[0]];
      assert next[..|next| - 1] == front;
      assert Add(acc + [Whole(t, front)], run[0]) == acc + [Whole(t, next)];
      assert next + run[1..] == front + run;
      RunAdded(acc, t, next, run[1..]);
    }
  }

  lemma {:induction false} AddRunByRun(acc: seq<Turn>, ts: seq<Turn>)
    requires acc == [] || ts == [] || acc[|acc| - 1].role != ts[0].role
    ensures AddAll(acc, ts) == acc + RunByRun(ts)
    decreases |ts|
  {
    if ts == [] {
      assert acc + [] == acc;
    } else {
      var n := RunLength(ts);
      var whole := Whole(ts[0], ts[..n]);
      FirstRun(acc, ts, n);
      AddRunByRun(acc + [whole], ts[n..]);
      Regroup(acc, whole, RunByRun(ts[n..]));
    }
  }

  lemma Regroup(acc: seq<Turn>, t: Turn, rest: seq<Turn>)
    ensures acc + [t] + rest == acc + ([t] + rest)
  {
  }

  lemma FirstRun(acc: seq<Turn>, ts: seq<Turn>, n: nat)
    requires 1 <= n <= |ts| && (acc == [] || acc[|acc| - 1].role != ts[0].role)
    requires forall i | 0 <= i < n :: ts[i].role == ts[0].role
    ensures AddAll(acc, ts) == AddAll(acc + [Whole(ts[0], ts[..n])], ts[n..])
  {
    assert ts == ts[..n] + ts[n..];
    AddAllAppend(acc, ts[..n], ts[n..]);
    OneRun(acc, ts[..n]);
  }

  lemma OneRun(acc: seq<Turn>, run: seq<Turn>)
    requires run != [] && (acc == [] || acc[|acc| - 1].role != run[0].role)
    requires forall i | 0 <= i < |run| :: run[i].role == run[0].role
    ensures AddAll(acc, run) == acc + [Whole(run[0], run)]
  {
    var t := run[0];
    assert Add(acc, t) == acc + [t] && Whole(t, [t]) == t;
    assert [t] + run[1..] == run;
    RunAdded(acc, t, [t], run[1..]);
  }

  /** Merging is exactly one turn per maximal run, with the run's texts in order. */
  lemma MergeIsRunByRun(ts: seq<Turn>)
    ensures Merge(ts) == RunByRun(ts)
  {
    AddRunByRun([], ts);
    assert [] + RunByRun(ts) == RunByRun(ts);
  }

  /** A turn as it is sent; at most the last but one is marked for caching. */
  datatype Sent = Sent(turn: Turn, cached: bool)

  function CacheIndex(ts: seq<Turn>): int {
    if |ts| >= 2 && !ts[|ts| - 2].merged then |ts| - 2 else -1
  }

  function Convert(ms: seq<Message>): seq<Sent> {
    var ts := Merge(Collected(ms));
    seq(|ts|, i requires 0 <= i < |ts| => Sent(ts[i], i == CacheIndex(ts)))
  }

  lemma {:induction false} CollectedAppend(a: seq<Message>, b: seq<Message>)
    ensures Collected(a + b) == Collected(a) + Collected(b)
    decreases |b|
  {
    if b == [] {
      assert a + b == a;
    } else {
      assert (a + b)[..|a + b| - 1] == a + b[..|b| - 1];
      CollectedAppend(a, b[..|b| - 1]);
    }
  }

  /** A message that says something has one turn, at its place: user and tool messages
      speak for the user, the assistant for itself, and under its name if it has one.
      System messages and empty ones have none. */
  lemma EachSpeaksInPlace(before: seq<Message>, m: Message, after: seq<Message>)
    ensures Collected(before + [m] + after) == Collected(before) + Collected([m]) + Collected(after)
    ensures var turns := Collected([m]);
      if m.content == "" || m.System? then turns == []
      else
        && |turns| == 1 && !turns[0].merged
        && (turns[0].role.UserRole? <==> m.User? || m.Tool?)
        && turns[0].text == match m
                            case Assistant(content, name, _) => if name == "" then content else name + ": " + content
                            case _ => m.content
  {
    CollectedAppend(before + [m], after);
    CollectedAppend(before, [m]);
    assert Collected([]) == [] && [m][..0] == [];
  }

  predicate Instructs(m: Message) {
    m.System? && m.content != ""
  }

  /** Message `i` is the last system message that says something. */
  predicate InstructsLast(ms: seq<Message>, i: nat)
    requires i < |ms|
  {
    && Instructs(ms[i])
    && forall j | i < j < |ms| :: !Instructs(ms[j])
  }

  /** The system prompt is the last system message that says something; without one there is none. */
  lemma {:induction false} LastInstructionCounts(ms: seq<Message>)
    ensures if SystemPrompt(ms).None? then forall i | 0 <= i < |ms| :: !Instructs(ms[i])
            else exists i: nat | i < |ms| :: InstructsLast(ms, i) && ms[i].content == SystemPrompt(ms).value
  {
    if ms != [] {
      var n := |ms| - 1;
      var before := ms[..n];
      assert forall i | 0 <= i < n :: before[i] == ms[i];
      if Instructs(ms[n]) {
        assert InstructsLast(ms, n);
      } else {
        LastInstructionCounts(before);
        if SystemPrompt(before).Some? {
          var i: nat :| i < n && InstructsLast(before, i) && before[i].content == SystemPrompt(before).value;
          assert forall j | i < j < n :: before[j] == ms[j];
          assert InstructsLast(ms, i);
        }
      }
    }
  }

  /** A turn is marked exactly when it is the last but one and not a merged one, and
      every continuation of the conversation is sent with the marked turn, and all
      before it, unchanged. */
  lemma CachedPrefixIsStable(ms: seq<Message>, more: seq<Message>)
    ensures var now, later := Convert(ms), Convert(ms + more);
      && (forall i | 0 <= i < |now| :: now[i].cached <==> i == |now| - 2 && !now[i].turn.merged)
      && (forall i | 0 <= i < |now| && now[i].cached ::
            i < |later| && forall j | 0 <= j <= i :: later[j].turn == now[j].turn)
  {
    CollectedAppend(ms, more);
    MergeInStages(Collected(ms), Collected(more));
    var ts, us := Merge(Collected(ms)), Merge(Collected(ms + more));
    if ts != [] {
      var front := ts[..|ts| - 1];
      assert front == us[..|front|];
      assert forall j | 0 <= j < |front| :: us[j] == us[..|front|][j] == front[j] == ts[j];
      var now, later := Convert(ms), Convert(ms + more);
      assert |now| == |ts| && |later| == |us|;
      assert forall i | 0 <= i < |now| :: now[i] == Sent(ts[i], i == CacheIndex(ts));
      forall i | 0 <= i < |now| && now[i].cached
        ensures i < |later|
        ensures forall j | 0 <= j <= i :: later[j].turn == now[j].turn
      {
        assert now[i] == Sent(ts[i], i == CacheIndex(ts));
      }
    }
  }

  method MergeConsecutiveRoles(collected: seq<Turn>) returns (merged: seq<Turn>)
    ensures merged == Merge(collected)
  {
    merged := [];
    assert collected[0..] == collected;
    for i := 0 to |collected|
      invariant AddAll(merged, collected[i..]) == Merge(collected)
    {
      var t, n := collected[i], |merged|;
      assert collected[i..][0] == t && collected[i..][1..] == collected[i + 1..];
      if n > 0 && merged[n - 1].role == t.role {
        ghost var before := merged;
        merged := merged[n - 1 := merged[n - 1].(text := merged[n - 1].text + SEPARATOR + t.text)];
        merged := merged[n - 1 := merged[n - 1].(merged := true)];
        assert merged == Add(before, t);
      } else {
        merged := merged + [t];
      }
    }
  }

  method CollectTurns(ms: seq<Message>) returns (turns: seq<Turn>, system: Option<string>)
    ensures turns == Merge(Collected(ms)) && system == SystemPrompt(ms)
  {
    var collected := [];
    system := None;
    for i := 0 to |ms|
      invariant collected == Collected(ms[..i]) && system == SystemPrompt(ms[..i])
    {
      assert ms[..i + 1][..i] == ms[..i];
      if ms[i].content != "" {
        if ms[i].System? {
          system := Some(ms[i].content);
        } else {
          collected := collected + [TurnFor(ms[i])];
        }
      }
    }
    assert ms[..|ms|] == ms;
    turns := MergeConsecutiveRoles(collected);
  }

  method ConvertMessages(ms: seq<Message>) returns (sent: seq<Sent>, system: Option<string>)
    ensures sent == Convert(ms) && system == SystemPrompt(ms)
  {
    var turns, prompt := CollectTurns(ms);
    system := prompt;
    var cacheIndex := -1;
    if |turns| >= 2 && !turns[|turns| - 2].merged {
      cacheIndex := |turns| - 2;
    }
    var result := new Sent[|turns|](_ => Sent(Turn(UserRole, "", false), false));
    for i := 0 to |turns|
      invariant forall j | 0 <= j < i :: result[j] == Sent(turns[j], j == cacheIndex)
    {
      result[i] := Sent(turns[i], i == cacheIndex);
    }
    sent := result[..];
    assert cacheIndex == CacheIndex(turns);
  }
}
