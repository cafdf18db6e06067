/** Streams in which pieces of artifacts and whole tasks are mixed. A whole task is all
    the server holds; the stream adds what it says to what it has collected. */
module ArtifactSnapshots {
  import opened Messages
  import opened ArtifactStream
  import opened ArtifactReply

  /** The whole task repeats all that was held, in order, with nothing taken away, and
      what it adds says something. */
  predicate Extends(held: seq<Artifact>, artifacts: seq<Artifact>) {
    && DistinctIds(artifacts) && |held| <= |artifacts|
    && (forall i | 0 <= i < |held| :: Repeats(held[i], artifacts[i]))
    && (forall i | |held| <= i < |artifacts| :: artifacts[i].text != "")
  }

  /** The artifact again: unchanged, or with another text under a name not left out. */
  predicate Repeats(was: Artifact, a: Artifact) {
    && a.id == was.id
    && (if a.text == "" then a == was else a.name != "" || was.name == "")
  }

  /** The write gives an artifact that is held no name that the server does not take over. */
  predicate KeepsName(held: seq<Artifact>, w: Write) {
    var i := IndexOf(held, w.artifact.id);
    i.Some? ==>
      if w.append then w.artifact.name == "" || w.artifact.name == held[i.value].name
      else w.artifact.name != "" || held[i.value].name == ""
  }

  predicate StepAgrees(held: seq<Artifact>, e: Event) {
    match e
    case ArtifactUpdate(a, append) => KeepsName(held, Write(a, append))
    case WholeTask(artifacts, _, _) => Extends(held, artifacts)
    case _ => true
  }

  /** Every event up to the first final status keeps the stream in step with the server. */
  predicate InStep(held: seq<Artifact>, events: seq<Event>)
    decreases |events|
  {
    events == [] || Final(events[0])
    || (StepAgrees(held, events[0]) && InStep(HeldAfter(held, events[0]), events[1..]))
  }

  /** The stream has collected what the server holds, after every event up to the first final status. */
  ghost predicate AgreeThroughout(s: State, held: seq<Artifact>, events: seq<Event>)
    decreases |events|
  {
    && Collected(s) == held
    && (events != [] && !Final(events[0]) ==>
          AgreeThroughout(Apply(s, events[0]), HeldAfter(held, events[0]), events[1..]))
  }

  /** The part of an id, as an artifact. */
  function AsArtifact(s: State, id: string): Artifact {
    Artifact(id, PartAt(s, id).name, PartAt(s, id).text)
  }

  lemma IndexInOrder(s: State, id: string)
    requires Sound(s)
    ensures var i := IndexOf(Collected(s), id);
      && (i.Some? <==> id in s.parts) && (i.Some? ==> i.value < |s.order| && s.order[i.value] == id)
  {
    var i := IndexOf(Collected(s), id);
    if i.Some? {
      assert Collected(s)[i.value].id == id == s.order[i.value];
    } else {
      forall k | 0 <= k < |s.order| ensures s.order[k] != id {
        assert Collected(s)[k].id == s.order[k];
      }
    }
  }

  lemma CollectedPut(s: State, id: string, p: Part)
    requires Sound(s)
    ensures var i, a := IndexOf(Collected(s), id), Artifact(id, p.name, p.text);
      Collected(Put(s, id, p)) == if i.Some? then Collected(s)[i.value := a] else Collected(s) + [a]
  {
    IndexInOrder(s, id);
    var i, a, u := IndexOf(Collected(s), id), Artifact(id, p.name, p.text), Put(s, id, p);
    if i.Some? {
      assert u.order == s.order;
      assert Collected(u) == Collected(s)[i.value := a];
    } else {
      assert u.order == s.order + [id];
      assert Collected(u) == Collected(s) + [a];
    }
  }

  lemma UpdateStep(s: State, a: Artifact, append: bool)
    requires Sound(s)
    ensures Collected(Apply(s, ArtifactUpdate(a, append))) == Receive(Collected(s), Write(a, append))
      <==> KeepsName(Collected(s), Write(a, append))
  {
    var held, p := Collected(s), Extend(PartAt(s, a.id), a, append);
    CollectedPut(s, a.id, p);
    IndexInOrder(s, a.id);
    var i, put := IndexOf(held, a.id), Put(s, a.id, p);
    SameCollected(put, Apply(s, ArtifactUpdate(a, append)));
    if i.Some? {
      var was := AsArtifact(s, a.id);
      assert held[i.value] == was;
      var received := if append then was.(text := was.text + a.text) else a;
      assert Receive(held, Write(a, append)) == held[i.value := received];
      OnePlace(held, i.value, Artifact(a.id, p.name, p.text), received);
    } else {
      assert p.name == a.name && p.text == a.text;
      assert Artifact(a.id, p.name, p.text) == a;
    }
  }

  lemma SameCollected(s: State, u: State)
    requires s.parts == u.parts && s.order == u.order
    ensures Collected(s) == Collected(u)
  {
  }

  lemma OnePlace(held: seq<Artifact>, i: nat, a: Artifact, b: Artifact)
    requires i < |held|
    ensures held[i := a] == held[i := b] <==> a == b
  {
    assert held[i := a][i] == a && held[i := b][i] == b;
  }

  /** The ids of artifacts that say something and are not known yet. */
  function NewIds(known: set<string>, artifacts: seq<Artifact>): seq<string> {
    if artifacts == [] then []
    else (if artifacts[0].text != "" && artifacts[0].id !in known then [artifacts[0].id] else [])
         + NewIds(known, artifacts[1..])
  }

  predicate NotAmong(id: string, artifacts: seq<Artifact>) {
    forall i | 0 <= i < |artifacts| :: artifacts[i].id != id
  }

  lemma {:induction false} NewIdsSame(known: set<string>, more: string, artifacts: seq<Artifact>)
    requires NotAmong(more, artifacts)
    ensures NewIds(known + {more}, artifacts) == NewIds(known, artifacts)
  {
    if artifacts != [] {
      assert artifacts[0].id != more;
      NewIdsSame(known, more, artifacts[1..]);
    }
  }

  lemma {:induction false} MergedOrder(s: State, artifacts: seq<Artifact>)
    requires DistinctIds(artifacts)
    ensures MergeAll(s, artifacts).order == s.order + NewIds(s.parts.Keys, artifacts)
    decreases |artifacts|
  {
    if artifacts == [] {
      assert s.order + [] == s.order;
    } else {
      var a, u := artifacts[0], MergeArtifact(s, artifacts[0]);
      MergedOrder(u, artifacts[1..]);
      assert NotAmong(a.id, artifacts[1..]);
      NewIdsSame(s.parts.Keys, a.id, artifacts[1..]);
      assert a.text != "" ==> u.parts.Keys == s.parts.Keys + {a.id};
      var first := if a.text != "" && a.id !in s.parts then [a.id] else [];
      assert u.order == s.order + first;
      RegroupIds(s.order, first, NewIds(s.parts.Keys, artifacts[1..]));
    }
  }

  lemma RegroupIds(a: seq<string>, b: seq<string>, c: seq<string>)
    ensures a + (b + c) == (a + b) + c
  {
  }

  lemma {:induction false} MergedElsewhere(s: State, artifacts: seq<Artifact>, id: string)
    requires forall i | 0 <= i < |artifacts| && artifacts[i].id == id :: artifacts[i].text == ""
    ensures PartAt(MergeAll(s, artifacts), id) == PartAt(s, id)
    decreases |artifacts|
  {
    if artifacts != [] {
      MergedElsewhere(MergeArtifact(s, artifacts[0]), artifacts[1..], id);
    }
  }

  lemma {:induction false} MergedAt(s: State, artifacts: seq<Artifact>, k: nat)
    requires DistinctIds(artifacts) && k < |artifacts| && artifacts[k].text != ""
    ensures PartAt(MergeAll(s, artifacts), artifacts[k].id) == Extend(PartAt(s, artifacts[k].id), artifacts[k], false)
    decreases |artifacts|
  {
    if k == 0 {
      MergedElsewhere(MergeArtifact(s, artifacts[0]), artifacts[1..], artifacts[0].id);
    } else {
      assert artifacts[1..][k - 1] == artifacts[k];
      MergedAt(MergeArtifact(s, artifacts[0]), artifacts[1..], k - 1);
    }
  }

  /** With distinct ids: the artifact at `k` is collected as it is stated exactly when it
      repeats what was held, or is new and says something. */
  lemma StatedAsHeld(s: State, artifacts: seq<Artifact>, k: nat)
    requires DistinctIds(artifacts) && k < |artifacts|
    ensures var a, was := artifacts[k], AsArtifact(s, artifacts[k].id);
      AsArtifact(MergeAll(s, artifacts), a.id) == a
      <==> (if a.text == "" then a == was else a.name != "" || was.name == "")
  {
    var a := artifacts[k];
    if a.text == "" {
      MergedElsewhere(s, artifacts, a.id);
    } else {
      MergedAt(s, artifacts, k);
    }
  }

  lemma {:induction false} NewIdsOf(known: set<string>, artifacts: seq<Artifact>, n: nat)
    requires DistinctIds(artifacts) && n <= |artifacts|
    requires forall i | 0 <= i < n :: artifacts[i].id in known
    requires forall i | n <= i < |artifacts| :: artifacts[i].id !in known && artifacts[i].text != ""
    ensures NewIds(known, artifacts) == Ids(artifacts[n..])
  {
    if artifacts != [] {
      if n > 0 {
        NewIdsOf(known, artifacts[1..], n - 1);
        assert artifacts[1..][n - 1..] == artifacts[n..];
      } else {
        NewIdsOf(known, artifacts[1..], 0);
        assert artifacts[0..] == artifacts && artifacts[1..][0..] == artifacts[1..];
        assert Ids(artifacts) == [artifacts[0].id] + Ids(artifacts[1..]);
      }
    }
  }

  lemma {:induction false} NewIdsSay(known: set<string>, artifacts: seq<Artifact>, id: string)
    requires id in NewIds(known, artifacts)
    ensures id !in known && exists k :: 0 <= k < |artifacts| && artifacts[k].id == id && artifacts[k].text != ""
  {
    if artifacts[0].text == "" || artifacts[0].id in known || artifacts[0].id != id {
      NewIdsSay(known, artifacts[1..], id);
      var k :| 0 <= k < |artifacts[1..]| && artifacts[1..][k].id == id && artifacts[1..][k].text != "";
      assert artifacts[k + 1].id == id;
    }
  }

  /** A whole task is collected as it stands exactly when it extends what was held. */
  lemma SnapshotStep(s: State, artifacts: seq<Artifact>)
    requires Sound(s)
    ensures Collected(MergeAll(s, artifacts)) == artifacts <==> Extends(Collected(s), artifacts)
  {
    if Extends(Collected(s), artifacts) {
      SnapshotExtends(s, artifacts);
    }
    if Collected(MergeAll(s, artifacts)) == artifacts {
      SnapshotOnlyExtends(s, artifacts);
    }
  }

  lemma SnapshotExtends(s: State, artifacts: seq<Artifact>)
    requires Sound(s) && Extends(Collected(s), artifacts)
    ensures Collected(MergeAll(s, artifacts)) == artifacts
  {
    var u := MergeAll(s, artifacts);
    MergedOrder(s, artifacts);
    ExtendsInOrder(s, artifacts);
    assert u.order == Ids(artifacts);
    forall i | 0 <= i < |artifacts| ensures Collected(u)[i] == artifacts[i] {
      StatedAsHeld(s, artifacts, i);
      if i < |s.order| {
        assert Repeats(Collected(s)[i], artifacts[i]) && Collected(s)[i] == AsArtifact(s, artifacts[i].id);
      } else {
        assert AsArtifact(s, artifacts[i].id) == Artifact(artifacts[i].id, "", "");
      }
      assert u.order[i] == artifacts[i].id;
    }
  }

  lemma ExtendsInOrder(s: State, artifacts: seq<Artifact>)
    requires Sound(s) && Extends(Collected(s), artifacts)
    ensures s.order + NewIds(s.parts.Keys, artifacts) == Ids(artifacts)
    ensures forall i | |s.order| <= i < |artifacts| :: artifacts[i].id !in s.parts
  {
    KnownComeFirst(s, artifacts);
    OthersUnknown(s.order, artifacts);
    NewIdsOf(s.parts.Keys, artifacts, |s.order|);
    IdsSplit(s.order, artifacts);
  }

  lemma KnownComeFirst(s: State, artifacts: seq<Artifact>)
    requires Sound(s) && Extends(Collected(s), artifacts)
    ensures |s.order| <= |artifacts|
    ensures forall i | 0 <= i < |s.order| :: artifacts[i].id == s.order[i] && artifacts[i].id in s.parts
  {
    forall i | 0 <= i < |s.order| ensures artifacts[i].id == s.order[i] && artifacts[i].id in s.parts {
      assert Repeats(Collected(s)[i], artifacts[i]) && s.order[i] in s.order;
    }
  }

  lemma OthersUnknown(order: seq<string>, artifacts: seq<Artifact>)
    requires DistinctIds(artifacts) && |order| <= |artifacts|
    requires forall i | 0 <= i < |order| :: artifacts[i].id == order[i]
    ensures forall i | |order| <= i < |artifacts| :: artifacts[i].id !in order
  {
    forall i | |order| <= i < |artifacts| ensures artifacts[i].id !in order {
      forall k | 0 <= k < |order| ensures order[k] != artifacts[i].id {
        assert artifacts[k].id == order[k];
      }
    }
  }

  lemma IdsSplit(order: seq<string>, artifacts: seq<Artifact>)
    requires |order| <= |artifacts| && forall i | 0 <= i < |order| :: artifacts[i].id == order[i]
    ensures order + Ids(artifacts[|order|..]) == Ids(artifacts)
  {
  }

  lemma SnapshotOnlyExtends(s: State, artifacts: seq<Artifact>)
    requires Sound(s) && Collected(MergeAll(s, artifacts)) == artifacts
    ensures Extends(Collected(s), artifacts)
  {
    MergeAllSound(s, artifacts);
    var u := MergeAll(s, artifacts);
    forall i | 0 <= i < |artifacts| ensures artifacts[i].id == u.order[i] && AsArtifact(u, u.order[i]) == artifacts[i] {
      assert Collected(u)[i] == artifacts[i];
    }
    MergedOrder(s, artifacts);
    assert |u.order| == |artifacts| && s.order <= u.order;
    RepeatsWhatWasHeld(s, u, artifacts);
    AddsWhatSpeaks(s, u, artifacts);
  }

  lemma RepeatsWhatWasHeld(s: State, u: State, artifacts: seq<Artifact>)
    requires u == MergeAll(s, artifacts) && DistinctIds(artifacts) && |s.order| <= |artifacts| == |u.order| && s.order <= u.order
    requires forall i | 0 <= i < |artifacts| :: artifacts[i].id == u.order[i] && AsArtifact(u, u.order[i]) == artifacts[i]
    ensures forall i | 0 <= i < |s.order| :: Repeats(Collected(s)[i], artifacts[i])
  {
    forall i | 0 <= i < |s.order| ensures Repeats(Collected(s)[i], artifacts[i]) {
      assert u.order[i] == s.order[i] && Collected(s)[i] == AsArtifact(s, artifacts[i].id);
      StatedAsHeld(s, artifacts, i);
    }
  }

  lemma AddsWhatSpeaks(s: State, u: State, artifacts: seq<Artifact>)
    requires DistinctIds(artifacts) && |u.order| == |artifacts| && u.order == s.order + NewIds(s.parts.Keys, artifacts)
    requires forall i | 0 <= i < |artifacts| :: artifacts[i].id == u.order[i]
    ensures forall i | |s.order| <= i < |artifacts| :: artifacts[i].text != ""
  {
    forall i | |s.order| <= i < |artifacts| ensures artifacts[i].text != "" {
      var id := artifacts[i].id;
      assert id == NewIds(s.parts.Keys, artifacts)[i - |s.order|];
      NewIdsSay(s.parts.Keys, artifacts, id);
      var k :| 0 <= k < |artifacts| && artifacts[k].id == id && artifacts[k].text != "";
      assert k == i;
    }
  }

  lemma OneEventInStep(s: State, e: Event)
    requires Sound(s)
    ensures Collected(Apply(s, e)) == HeldAfter(Collected(s), e) <==> StepAgrees(Collected(s), e)
  {
    match e
    case ArtifactUpdate(a, append) => UpdateStep(s, a, append);
    case WholeTask(artifacts, _, _) =>
      SnapshotStep(s, artifacts);
      SameCollected(MergeAll(s, artifacts), Apply(s, e));
    case _ => SameCollected(s, Apply(s, e));
  }

  /** Pieces and whole tasks in any mixture: after every event the stream has collected
      exactly what the server holds, if and only if every event keeps them in step. */
  lemma {:induction false} AgreeExactlyInStep(s: State, events: seq<Event>)
    requires Sound(s)
    ensures AgreeThroughout(s, Collected(s), events) <==> InStep(Collected(s), events)
    decreases |events|
  {
    if events != [] && !Final(events[0]) {
      OneEventInStep(s, events[0]);
      OneEventSound(s, events[0]);
      if StepAgrees(Collected(s), events[0]) {
        AgreeExactlyInStep(Apply(s, events[0]), events[1..]);
      }
    }
  }

  lemma {:induction false} AgreeInTheEnd(s: State, held: seq<Artifact>, events: seq<Event>)
    requires AgreeThroughout(s, held, events)
    ensures Collected(Consume(s, events)) == HeldFrom(held, events)
    decreases |events|
  {
    if events != [] {
      if Final(events[0]) {
        SameCollected(s, Apply(s, events[0]));
      } else {
        AgreeInTheEnd(Apply(s, events[0]), HeldAfter(held, events[0]), events[1..]);
      }
    }
  }

  /** Streaming matches blocking for pieces and whole tasks in any mixture that stays in step. */
  lemma StreamInStepMatchesBlocking(events: seq<Event>, statusText: string)
    requires InStep([], events)
    requires Texts(Held(events)) != [] || EndsWithStatus(events, statusText)
    ensures StreamTexts(Consume(START, events)) == ReplyTexts(Held(events), statusText, "")
  {
    assert Collected(START) == [];
    AgreeExactlyInStep(START, events);
    AgreeInTheEnd(START, [], events);
    StreamingMatchesBlocking(events, Held(events), statusText);
  }

  const ONE := Artifact("a", "", "1")
  const TWO := Artifact("b", "", "2")
  const TAKEN_BACK := [ArtifactUpdate(ONE, false), WholeTask([TWO], "", "")]

  /** A whole task without an artifact collected before: the stream goes on replying with it. */
  lemma ArtifactTakenBack()
    ensures !InStep([], TAKEN_BACK) && Held(TAKEN_BACK) == [TWO]
    ensures StreamTexts(Consume(START, TAKEN_BACK)) == ["1", "2"]
    ensures ReplyTexts(Held(TAKEN_BACK), "", "") == ["2"]
  {
    TakenBackHeld();
    TakenBackCollected();
    TextsOfOne(TWO);
    TextsOfTwo(ONE, TWO);
  }

  lemma TakenBackHeld()
    ensures !InStep([], TAKEN_BACK) && Held(TAKEN_BACK) == [TWO]
  {
    var e, f := ArtifactUpdate(ONE, false), WholeTask([TWO], "", "");
    assert TAKEN_BACK[1..] == [f] && [f][1..] == [];
    assert HeldAfter([], e) == [ONE];
    assert "a"[0] != "b"[0];
    assert [ONE][0].id != [TWO][0].id && !Repeats([ONE][0], [TWO][0]);
    assert !StepAgrees([ONE], f);
    assert !InStep([ONE], [f]);
    assert HeldFrom([ONE], [f]) == HeldFrom([TWO], []);
    assert Held(TAKEN_BACK) == HeldFrom([ONE], [f]);
  }

  lemma TakenBackCollected()
    ensures Collected(Consume(START, TAKEN_BACK)) == [ONE, TWO]
  {
    var e, f := ArtifactUpdate(ONE, false), WholeTask([TWO], "", "");
    assert TAKEN_BACK[1..] == [f] && [f][1..] == [] && [TWO][1..] == [];
    assert "a"[0] != "b"[0];
    var s := Apply(START, e);
    assert s.order == ["a"] && s.parts == map["a" := Part("", "1", true)];
    assert "b" !in s.parts && TWO.text != "";
    assert MergeArtifact(s, TWO) == Put(s, "b", Part("", "2", true));
    var u := MergeAll(s, [TWO]);
    assert u == MergeAll(MergeArtifact(s, TWO), [TWO][1..]) == Put(s, "b", Part("", "2", true));
    assert u.order == ["a", "b"];
    assert Collected(u) == [ONE, TWO];
    assert Consume(START, TAKEN_BACK) == Consume(s, [f]) == Consume(Apply(s, f), []);
    SameCollected(Apply(s, f), u);
  }
}
