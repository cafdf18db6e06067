/** A streamed reply against the reply read from the task as a whole: what the stream
    collects, what a server that applies the same events holds, and when they agree. */
module ArtifactReply {
  import opened Messages
  import opened ArtifactStream

  /** One artifact written: appended to what there is, or in place of it. */
  datatype Write = Write(artifact: Artifact, append: bool)

  /** The artifacts that say something, each in place of what there was. */
  function Restated(artifacts: seq<Artifact>): seq<Write> {
    if artifacts == [] then []
    else (if artifacts[0].text != "" then [Write(artifacts[0], false)] else []) + Restated(artifacts[1..])
  }

  function WritesOf(e: Event): seq<Write> {
    match e
    case ArtifactUpdate(a, append) => [Write(a, append)]
    case WholeTask(artifacts, _, _) => Restated(artifacts)
    case _ => []
  }

  /** The writes of all events up to the first final status. */
  function Writes(events: seq<Event>): seq<Write> {
    if events == [] || Final(events[0]) then []
    else WritesOf(events[0]) + Writes(events[1..])
  }

  /** The ids written to, in order of their first write. */
  function Mentioned(ws: seq<Write>): seq<string> {
    if ws == [] then []
    else
      var init, id := ws[..|ws| - 1], ws[|ws| - 1].artifact.id;
      if id in Mentioned(init) then Mentioned(init) else Mentioned(init) + [id]
  }

  /** The writes to one id. */
  function To(ws: seq<Write>, id: string): seq<Write> {
    if ws == [] then []
    else
      var init, w := ws[..|ws| - 1], ws[|ws| - 1];
      To(init, id) + if w.artifact.id == id then [w] else []
  }

  /** The text the writes to one id add up to. */
  function TextOf(ws: seq<Write>): string {
    if ws == [] then ""
    else
      var w := ws[|ws| - 1];
      (if w.append then TextOf(ws[..|ws| - 1]) else "") + w.artifact.text
  }

  /** The name given last. */
  function GivenName(ws: seq<Write>): string {
    if ws == [] then ""
    else
      var w := ws[|ws| - 1];
      if w.artifact.name != "" then w.artifact.name else GivenName(ws[..|ws| - 1])
  }

  /** The name of the last write that was not appended to anything. */
  function HeldName(ws: seq<Write>): string {
    if ws == [] then ""
    else
      var w := ws[|ws| - 1];
      if w.append && |ws| > 1 then HeldName(ws[..|ws| - 1]) else w.artifact.name
  }

  /** Where the artifact of that id stands. */
  function IndexOf(held: seq<Artifact>, id: string): (i: Option<nat>)
    ensures i.Some? ==> i.value < |held| && held[i.value].id == id
    ensures i.None? ==> forall k | 0 <= k < |held| :: held[k].id != id
  {
    if held == [] then None
    else if held[|held| - 1].id == id then Some(|held| - 1)
    else IndexOf(held[..|held| - 1], id)
  }

  /** What a server makes of a write: an unknown artifact is added; a known one gets the
      text appended and keeps its name, or is replaced. */
  function Receive(held: seq<Artifact>, w: Write): seq<Artifact> {
    var i := IndexOf(held, w.artifact.id);
    if i.None? then held + [w.artifact]
    else if w.append then held[i.value := held[i.value].(text := held[i.value].text + w.artifact.text)]
    else held[i.value := w.artifact]
  }

  /** The artifacts a server holds after the writes. */
  function HeldBy(ws: seq<Write>): seq<Artifact> {
    if ws == [] then [] else Receive(HeldBy(ws[..|ws| - 1]), ws[|ws| - 1])
  }

  /** What an event leaves at the server: a write is applied, a whole task is all there is. */
  function HeldAfter(held: seq<Artifact>, e: Event): seq<Artifact> {
    match e
    case ArtifactUpdate(a, append) => Receive(held, Write(a, append))
    case WholeTask(artifacts, _, _) => artifacts
    case _ => held
  }

  function HeldFrom(held: seq<Artifact>, events: seq<Event>): seq<Artifact>
    decreases |events|
  {
    if events == [] || Final(events[0]) then held
    else HeldFrom(HeldAfter(held, events[0]), events[1..])
  }

  /** What the server holds at the first final status, or at the end of the events. */
  function Held(events: seq<Event>): seq<Artifact> {
    HeldFrom([], events)
  }

  /** What the stream collects: the parts and their order. */
  datatype Store = Store(parts: map<string, Part>, order: seq<string>)

  function StoreOf(s: State): Store {
    Store(s.parts, s.order)
  }

  function Take(s: Store, w: Write): Store {
    var id := w.artifact.id;
    var p := if id in s.parts then s.parts[id] else Part("", "", false);
    Store(s.parts[id := Extend(p, w.artifact, w.append)], if id in s.parts then s.order else s.order + [id])
  }

  function TakeAll(s: Store, ws: seq<Write>): Store
    decreases |ws|
  {
    if ws == [] then s else TakeAll(Take(s, ws[0]), ws[1..])
  }

  lemma {:induction false} TakeAppend(s: Store, a: seq<Write>, b: seq<Write>)
    ensures TakeAll(s, a + b) == TakeAll(TakeAll(s, a), b)
    decreases |a|
  {
    if a == [] {
      assert a + b == b;
    } else {
      assert (a + b)[1..] == a[1..] + b;
      TakeAppend(Take(s, a[0]), a[1..], b);
    }
  }

  lemma {:induction false} RestatedTaken(s: State, artifacts: seq<Artifact>)
    ensures StoreOf(MergeAll(s, artifacts)) == TakeAll(StoreOf(s), Restated(artifacts))
    decreases |artifacts|
  {
    if artifacts != [] {
      RestatedTaken(MergeArtifact(s, artifacts[0]), artifacts[1..]);
      var first := if artifacts[0].text != "" then [Write(artifacts[0], false)] else [];
      TakeAppend(StoreOf(s), first, Restated(artifacts[1..]));
      assert StoreOf(MergeArtifact(s, artifacts[0])) == TakeAll(StoreOf(s), first) by {
        assert first != [] ==> first[1..] == [];
      }
    }
  }

  /** The stream collects the writes of its events and nothing else. */
  lemma {:induction false} WritesAreTaken(s: State, events: seq<Event>)
    ensures StoreOf(Consume(s, events)) == TakeAll(StoreOf(s), Writes(events))
    decreases |events|
  {
    if events != [] && !Final(events[0]) {
      OneEventTaken(s, events[0]);
      WritesAreTaken(Apply(s, events[0]), events[1..]);
      TakeAppend(StoreOf(s), WritesOf(events[0]), Writes(events[1..]));
    }
  }

  lemma OneEventTaken(s: State, e: Event)
    ensures StoreOf(Apply(s, e)) == TakeAll(StoreOf(s), WritesOf(e))
  {
    match e
    case WholeTask(artifacts, _, _) => RestatedTaken(s, artifacts);
    case ArtifactUpdate(a, append) => assert [Write(a, append)][1..] == [];
    case _ =>
  }

  const NOTHING := Store(map[], [])

  /** What has been collected under an id depends on the writes to that id alone. */
  ghost predicate CollectedAt(s: Store, ws: seq<Write>, id: string) {
    && (id in s.parts <==> id in Mentioned(ws))
    && (id in s.parts <==> To(ws, id) != [])
    && (id in s.parts ==> s.parts[id].name == GivenName(To(ws, id)) && s.parts[id].text == TextOf(To(ws, id)))
  }

  ghost predicate CollectedAll(s: Store, ws: seq<Write>) {
    s.order == Mentioned(ws) && forall id :: CollectedAt(s, ws, id)
  }

  lemma {:induction false} CollectedPerId(ws: seq<Write>)
    ensures CollectedAll(TakeAll(NOTHING, ws), ws)
  {
    if ws != [] {
      var init, w := ws[..|ws| - 1], ws[|ws| - 1];
      CollectedPerId(init);
      TakeSnoc(NOTHING, init, w);
      TakenCollected(TakeAll(NOTHING, init), init, w);
      assert ws == init + [w];
    }
  }

  lemma TakeSnoc(s: Store, init: seq<Write>, w: Write)
    ensures TakeAll(s, init + [w]) == Take(TakeAll(s, init), w)
  {
    TakeAppend(s, init, [w]);
    assert [w][1..] == [];
  }

  lemma TakenCollected(before: Store, init: seq<Write>, w: Write)
    requires CollectedAll(before, init)
    ensures CollectedAll(Take(before, w), init + [w])
  {
    MentionedSnoc(init, w);
    assert CollectedAt(before, init, w.artifact.id);
    forall id ensures CollectedAt(Take(before, w), init + [w], id) {
      assert CollectedAt(before, init, id);
      OneWriteCollected(before, init, w, id);
    }
  }

  lemma OneWriteCollected(before: Store, init: seq<Write>, w: Write, id: string)
    requires CollectedAt(before, init, id)
    ensures CollectedAt(Take(before, w), init + [w], id)
  {
    MentionedSnoc(init, w);
    ToSnoc(init, w, id);
    if w.artifact.id == id {
      OneMore(To(init, id), w);
    }
  }

  lemma OneMore(f: seq<Write>, w: Write)
    ensures TextOf(f + [w]) == (if w.append then TextOf(f) else "") + w.artifact.text
    ensures GivenName(f + [w]) == if w.artifact.name != "" then w.artifact.name else GivenName(f)
    ensures HeldName(f + [w]) == if w.append && f != [] then HeldName(f) else w.artifact.name
  {
    assert (f + [w])[..|f|] == f;
  }

  predicate Once(ids: seq<string>) {
    forall i, j | 0 <= i < j < |ids| :: ids[i] != ids[j]
  }

  lemma {:induction false} MentionedOnce(ws: seq<Write>)
    ensures Once(Mentioned(ws))
  {
    if ws != [] {
      MentionedOnce(ws[..|ws| - 1]);
      OnceMore(Mentioned(ws[..|ws| - 1]), ws[|ws| - 1].artifact.id);
    }
  }

  lemma OnceMore(ids: seq<string>, id: string)
    requires Once(ids)
    ensures id !in ids ==> Once(ids + [id])
  {
  }

  lemma ToSnoc(init: seq<Write>, w: Write, id: string)
    ensures To(init + [w], id) == if w.artifact.id == id then To(init, id) + [w] else To(init, id)
  {
    assert (init + [w])[..|init|] == init;
  }

  lemma MentionedSnoc(init: seq<Write>, w: Write)
    ensures var ids, id := Mentioned(init), w.artifact.id;
      Mentioned(init + [w]) == if id in ids then ids else ids + [id]
  {
    assert (init + [w])[..|init|] == init;
  }

  lemma {:induction false} MentionedAreWritten(ws: seq<Write>, id: string)
    ensures id in Mentioned(ws) <==> To(ws, id) != []
  {
    if ws != [] {
      MentionedAreWritten(ws[..|ws| - 1], id);
    }
  }

  /** The artifacts mentioned, with the texts the writes add up to and these names. */
  function Listed(ws: seq<Write>, name: seq<Write> -> string): seq<Artifact> {
    var ids := Mentioned(ws);
    seq(|ids|, i requires 0 <= i < |ids| => Artifact(ids[i], name(To(ws, ids[i])), TextOf(To(ws, ids[i]))))
  }

  /** The stream lists the artifacts in order of first mention, with the names given last. */
  lemma CollectedIsListed(events: seq<Event>)
    ensures Collected(Consume(START, events)) == Listed(Writes(events), GivenName)
  {
    var s, ws := Consume(START, events), Writes(events);
    WritesAreTaken(START, events);
    CollectedPerId(ws);
    assert StoreOf(s) == TakeAll(NOTHING, ws);
    var ids := Mentioned(ws);
    forall i | 0 <= i < |ids| ensures Collected(s)[i] == Listed(ws, GivenName)[i] {
      assert CollectedAt(StoreOf(s), ws, ids[i]) && ids[i] in ids;
    }
  }

  /** A server lists the same artifacts in the same order with the same texts, with the
      names of the last writes that replaced them. */
  lemma {:induction false} HeldIsListed(ws: seq<Write>)
    ensures HeldBy(ws) == Listed(ws, HeldName)
  {
    if ws != [] {
      var init, w := ws[..|ws| - 1], ws[|ws| - 1];
      HeldIsListed(init);
      ReceivedIsListed(init, w);
      assert init + [w] == ws;
    }
  }

  lemma ReceivedIsListed(init: seq<Write>, w: Write)
    ensures Receive(Listed(init, HeldName), w) == Listed(init + [w], HeldName)
  {
    if IndexOf(Listed(init, HeldName), w.artifact.id).None? {
      ReceivedNew(init, w);
    } else {
      ReceivedOld(init, w);
    }
  }

  lemma ReceivedNew(init: seq<Write>, w: Write)
    requires IndexOf(Listed(init, HeldName), w.artifact.id).None?
    ensures Listed(init + [w], HeldName) == Listed(init, HeldName) + [w.artifact]
  {
    var held, all, ids, id := Listed(init, HeldName), Listed(init + [w], HeldName), Mentioned(init), w.artifact.id;
    UnknownIsNew(held, ids, id);
    MentionedSnoc(init, w);
    MentionedAreWritten(init, id);
    ToSnoc(init, w, id);
    FirstWrite(w);
    assert To(init + [w], id) == [w];
    OthersAsBefore(init, w);
    OneMoreListed(all, held, w.artifact);
  }

  lemma OneMoreListed(all: seq<Artifact>, held: seq<Artifact>, a: Artifact)
    requires |all| == |held| + 1 && all[|held|] == a
    requires forall k | 0 <= k < |held| :: all[k] == held[k]
    ensures all == held + [a]
  {
  }

  lemma ReceivedOld(init: seq<Write>, w: Write)
    requires IndexOf(Listed(init, HeldName), w.artifact.id).Some?
    ensures Receive(Listed(init, HeldName), w) == Listed(init + [w], HeldName)
  {
    var held, all, ids, id := Listed(init, HeldName), Listed(init + [w], HeldName), Mentioned(init), w.artifact.id;
    var at := IndexOf(held, id).value;
    assert ids[at] == id;
    MentionedSnoc(init, w);
    MentionedAreWritten(init, id);
    MentionedOnce(init);
    ToSnoc(init, w, id);
    OthersAsBefore(init, w);
    ReceivedKnown(To(init, id), w, held[at]);
    var received := all[at];
    assert |all| == |held| && forall k | 0 <= k < |held| && k != at :: all[k] == held[k];
    assert all == held[at := received];
  }

  lemma OthersAsBefore(init: seq<Write>, w: Write)
    ensures var ids := Mentioned(init);
      && |ids| <= |Mentioned(init + [w])|
      && forall k | 0 <= k < |ids| && ids[k] != w.artifact.id ::
           Listed(init + [w], HeldName)[k] == Listed(init, HeldName)[k]
  {
    var ids := Mentioned(init);
    MentionedSnoc(init, w);
    forall k | 0 <= k < |ids| && ids[k] != w.artifact.id
      ensures Listed(init + [w], HeldName)[k] == Listed(init, HeldName)[k]
    {
      ToSnoc(init, w, ids[k]);
    }
  }

  lemma UnknownIsNew(held: seq<Artifact>, ids: seq<string>, id: string)
    requires |held| == |ids| && forall k | 0 <= k < |ids| :: held[k].id == ids[k]
    requires IndexOf(held, id).None?
    ensures id !in ids
  {
    forall k | 0 <= k < |ids| ensures ids[k] != id {
      assert held[k].id == ids[k];
    }
  }

  lemma FirstWrite(w: Write)
    ensures HeldName([w]) == w.artifact.name && TextOf([w]) == w.artifact.text
  {
    OneMore([], w);
    assert [] + [w] == [w];
  }

  lemma ReceivedKnown(before: seq<Write>, w: Write, a: Artifact)
    requires before != [] && a == Artifact(w.artifact.id, HeldName(before), TextOf(before))
    ensures Artifact(a.id, HeldName(before + [w]), TextOf(before + [w]))
            == if w.append then a.(text := a.text + w.artifact.text) else w.artifact
  {
    OneMore(before, w);
  }

  /** The artifacts come piece by piece only, never as a whole task. */
  predicate PiecesOnly(events: seq<Event>) {
    forall e | e in events :: !e.WholeTask?
  }

  lemma {:induction false} PiecesAreHeld(before: seq<Write>, events: seq<Event>)
    requires PiecesOnly(events)
    ensures HeldFrom(HeldBy(before), events) == HeldBy(before + Writes(events))
    decreases |events|
  {
    if events == [] || Final(events[0]) {
      assert before + [] == before;
    } else {
      assert forall e | e in events[1..] :: e in events;
      PieceIsHeld(before, events[0]);
      PiecesAreHeld(before + WritesOf(events[0]), events[1..]);
      RegroupWrites(before, WritesOf(events[0]), Writes(events[1..]));
    }
  }

  lemma PieceIsHeld(before: seq<Write>, e: Event)
    requires !e.WholeTask?
    ensures HeldBy(before + WritesOf(e)) == HeldAfter(HeldBy(before), e)
  {
    if e.ArtifactUpdate? {
      var w := Write(e.artifact, e.append);
      assert (before + [w])[..|before|] == before;
    } else {
      assert before + [] == before;
    }
  }

  lemma RegroupWrites(a: seq<Write>, b: seq<Write>, c: seq<Write>)
    ensures a + (b + c) == (a + b) + c
  {
  }

  /** Each artifact's last given name is the name of its last replacement. */
  predicate NamesKept(ws: seq<Write>) {
    forall i | 0 <= i < |Mentioned(ws)| ::
      GivenName(To(ws, Mentioned(ws)[i])) == HeldName(To(ws, Mentioned(ws)[i]))
  }

  /** Piece by piece, the stream and a server that applies the same events always agree
      in the end on the artifacts, their order and their texts, and they agree altogether
      exactly when each artifact's last given name is the name of its last replacement. */
  lemma StreamAgreesWithServer(events: seq<Event>)
    requires PiecesOnly(events)
    ensures var collected, held := Collected(Consume(START, events)), Held(events);
      && |collected| == |held|
      && (forall i | 0 <= i < |held| :: collected[i].id == held[i].id && collected[i].text == held[i].text)
      && (collected == held <==> NamesKept(Writes(events)))
  {
    var ws := Writes(events);
    PiecesHeld(events);
    CollectedIsListed(events);
    var collected, held := Listed(ws, GivenName), Listed(ws, HeldName);
    if collected == held {
      forall i | 0 <= i < |Mentioned(ws)|
        ensures GivenName(To(ws, Mentioned(ws)[i])) == HeldName(To(ws, Mentioned(ws)[i]))
      {
        assert collected[i].name == held[i].name;
      }
    }
  }

  lemma PiecesHeld(events: seq<Event>)
    requires PiecesOnly(events)
    ensures Held(events) == Listed(Writes(events), HeldName)
  {
    PiecesAreHeld([], events);
    assert [] + Writes(events) == Writes(events);
    HeldIsListed(Writes(events));
  }

  /** Only artifact and interim status updates, then the final status with this text. */
  predicate EndsWithStatus(events: seq<Event>, statusText: string) {
    && events != [] && events[|events| - 1] == StatusUpdate(statusText, true)
    && forall i | 0 <= i < |events| - 1 :: events[i].ArtifactUpdate? || (events[i].StatusUpdate? && !events[i].final)
  }

  lemma {:induction false} FinalStatusText(s: State, events: seq<Event>, statusText: string)
    requires EndsWithStatus(events, statusText)
    ensures var u := Consume(s, events);
      u.finalMsg == (if statusText != "" then statusText else s.finalMsg) && u.bareMsg == s.bareMsg
    decreases |events|
  {
    if |events| > 1 {
      FinalStatusText(Apply(s, events[0]), events[1..], statusText);
    }
  }

  /** Streaming matches blocking whenever the stream has collected what the task holds:
      the streamed reply is the reply read from the task; without any text the final
      status message takes its place in both. */
  lemma StreamingMatchesBlocking(events: seq<Event>, artifacts: seq<Artifact>, statusText: string)
    requires Collected(Consume(START, events)) == artifacts
    requires Texts(artifacts) != [] || EndsWithStatus(events, statusText)
    ensures StreamTexts(Consume(START, events)) == ReplyTexts(artifacts, statusText, "")
  {
    if EndsWithStatus(events, statusText) {
      FinalStatusText(START, events, statusText);
    }
  }

  function Renamed(): seq<Event> {
    [ArtifactUpdate(Artifact("a", "x", "1"), false), ArtifactUpdate(Artifact("a", "", "2"), false),
     ArtifactUpdate(Artifact("b", "x", "3"), false)]
  }

  /** An artifact replaced without its name: the stream goes on counting it under the
      old name and loses its text to the next artifact of that name. */
  lemma NameLeftOut()
    ensures !NamesKept(Writes(Renamed()))
    ensures StreamTexts(Consume(START, Renamed())) == ["3"]
    ensures ReplyTexts(Held(Renamed()), "", "") == ["2", "3"]
  {
    RenamedCollected();
    RenamedHeld();
    assert PiecesOnly(Renamed());
    StreamAgreesWithServer(Renamed());
  }

  lemma RenamedHeld()
    ensures var held := Held(Renamed());
      held == [Artifact("a", "", "2"), Artifact("b", "x", "3")] && Texts(held) == ["2", "3"]
  {
    var a, a2, b := Artifact("a", "x", "1"), Artifact("a", "", "2"), Artifact("b", "x", "3");
    WritesOfThree(a, a2, b);
    PiecesAreHeld([], Renamed());
    assert [] + Writes(Renamed()) == Writes(Renamed());
    HeldOfThree(a, a2, b);
    TextsOfTwo(a2, b);
  }

  lemma RenamedCollected()
    ensures var collected := Collected(Consume(START, Renamed()));
      collected == [Artifact("a", "x", "2"), Artifact("b", "x", "3")] && Texts(collected) == ["3"]
  {
    var a, a2, b := Artifact("a", "x", "1"), Artifact("a", "", "2"), Artifact("b", "x", "3");
    WritesOfThree(a, a2, b);
    CollectedIsListed(Renamed());
    ListedOfThree(a, a2, b);
    TextsOfTwo(Artifact("a", "x", "2"), b);
  }

  lemma ListedOfThree(a: Artifact, a2: Artifact, b: Artifact)
    requires a.id == a2.id != b.id && a2.name == ""
    ensures Listed([Write(a, false), Write(a2, false), Write(b, false)], GivenName) == [Artifact(a.id, a.name, a2.text), b]
  {
    MentionedOfThree(a, a2, b);
  }

  lemma WritesOfThree(a: Artifact, a2: Artifact, b: Artifact)
    ensures Writes([ArtifactUpdate(a, false), ArtifactUpdate(a2, false), ArtifactUpdate(b, false)])
            == [Write(a, false), Write(a2, false), Write(b, false)]
  {
    var e, e2, f := ArtifactUpdate(a, false), ArtifactUpdate(a2, false), ArtifactUpdate(b, false);
    assert [e, e2, f][1..] == [e2, f] && [e2, f][1..] == [f] && [f][1..] == [];
    assert Writes([f]) == [Write(b, false)];
    assert Writes([e2, f]) == [Write(a2, false), Write(b, false)];
  }

  lemma HeldOfThree(a: Artifact, a2: Artifact, b: Artifact)
    requires a.id == a2.id != b.id
    ensures HeldBy([Write(a, false), Write(a2, false), Write(b, false)]) == [a2, b]
  {
    var w, w2, v := Write(a, false), Write(a2, false), Write(b, false);
    assert [w, w2, v][..2] == [w, w2] && [w, w2][..1] == [w] && [w][..0] == [];
    assert HeldBy([w]) == [a];
    assert HeldBy([w, w2]) == [a2];
    assert [a2][..0] == [] && IndexOf([a2], b.id).None?;
  }

  lemma MentionedOfThree(a: Artifact, a2: Artifact, b: Artifact)
    requires a.id == a2.id != b.id
    ensures var ws := [Write(a, false), Write(a2, false), Write(b, false)];
      && Mentioned(ws) == [a.id, b.id]
      && To(ws, a.id) == [Write(a, false), Write(a2, false)] && To(ws, b.id) == [Write(b, false)]
      && GivenName(To(ws, a.id)) == (if a2.name != "" then a2.name else a.name)
      && TextOf(To(ws, a.id)) == a2.text
      && GivenName(To(ws, b.id)) == b.name && TextOf(To(ws, b.id)) == b.text
  {
    var w, w2, v := Write(a, false), Write(a2, false), Write(b, false);
    assert [w, w2, v][..2] == [w, w2] && [w, w2][..1] == [w] && [w][..0] == [] && [v][..0] == [];
    assert Mentioned([w]) == [a.id] && Mentioned([w, w2]) == [a.id];
    assert To([w], a.id) == [w] && To([w, w2], a.id) == [w, w2];
    ToSnoc([], w, b.id);
    ToSnoc([w], w2, b.id);
    assert [] + [w] == [w] && [w] + [w2] == [w, w2];
    assert GivenName([w]) == a.name;
  }

  lemma TextsOfTwo(x: Artifact, y: Artifact)
    requires x.text != "" && y.text != ""
    ensures Texts([x, y]) == if KeyOf(x) == KeyOf(y) then [y.text] else [x.text, y.text]
  {
    assert [x, y][..1] == [x] && [x][..0] == [];
    assert KeyOrder([x]) == [KeyOf(x)];
    assert LastText([x], KeyOf(x)) == x.text;
  }

  lemma TextsOfOne(x: Artifact)
    requires x.text != ""
    ensures Texts([x]) == [x.text]
  {
    assert [x][..0] == [];
    assert KeyOrder([x]) == [KeyOf(x)];
  }

  /** The writes to one artifact cut its text into pieces: the first starts it, the
      others are appended; the name is given with the first and may be repeated. */
  predicate CutOf(f: seq<Write>, a: Artifact) {
    && f != [] && f[0].artifact.name == a.name && Pieces(f) == a.text
    && (forall k | 0 < k < |f| :: f[k].append && (f[k].artifact.name == "" || f[k].artifact.name == a.name))
  }

  /** All the texts written, one behind the other. */
  function Pieces(f: seq<Write>): string {
    if f == [] then "" else f[0].artifact.text + Pieces(f[1..])
  }

  /** The events cut exactly these artifacts, interleaved in any way, and begin them in
      this order. */
  ghost predicate Cuts(events: seq<Event>, artifacts: seq<Artifact>) {
    && Mentioned(Writes(events)) == Ids(artifacts)
    && forall i | 0 <= i < |artifacts| :: CutOf(To(Writes(events), artifacts[i].id), artifacts[i])
  }

  lemma {:induction false} PiecesAppend(f: seq<Write>, w: Write)
    ensures Pieces(f + [w]) == Pieces(f) + w.artifact.text
  {
    if f == [] {
      assert [w][1..] == [] && "" + w.artifact.text == w.artifact.text + "";
    } else {
      assert (f + [w])[1..] == f[1..] + [w];
      PiecesAppend(f[1..], w);
    }
  }

  lemma {:induction false} CutAddsUp(f: seq<Write>, name: string)
    requires f != [] && f[0].artifact.name == name
    requires forall k | 0 < k < |f| :: f[k].append && (f[k].artifact.name == "" || f[k].artifact.name == name)
    ensures TextOf(f) == Pieces(f) && GivenName(f) == name && HeldName(f) == name
  {
    var init, w := f[..|f| - 1], f[|f| - 1];
    PiecesAppend(init, w);
    assert f == init + [w];
    if |f| > 1 {
      CutAddsUp(init, name);
    }
  }

  /** However the artifacts are cut into pieces and however the pieces are interleaved,
      the stream collects the artifacts, a server that is sent only pieces holds them, and
      the two replies agree. */
  lemma AnyCuttingIsPutTogether(events: seq<Event>, artifacts: seq<Artifact>, statusText: string)
    requires Cuts(events, artifacts)
    ensures Collected(Consume(START, events)) == artifacts && (PiecesOnly(events) ==> Held(events) == artifacts)
    ensures Texts(artifacts) != [] || EndsWithStatus(events, statusText) ==>
      StreamTexts(Consume(START, events)) == ReplyTexts(artifacts, statusText, "")
  {
    CutsAreListed(Writes(events), artifacts);
    CollectedIsListed(events);
    if PiecesOnly(events) {
      PiecesHeld(events);
    }
    if Texts(artifacts) != [] || EndsWithStatus(events, statusText) {
      StreamingMatchesBlocking(events, artifacts, statusText);
    }
  }

  lemma CutsAreListed(ws: seq<Write>, artifacts: seq<Artifact>)
    requires Mentioned(ws) == Ids(artifacts)
    requires forall i | 0 <= i < |artifacts| :: CutOf(To(ws, artifacts[i].id), artifacts[i])
    ensures Listed(ws, GivenName) == artifacts && Listed(ws, HeldName) == artifacts && NamesKept(ws)
  {
    var given, held := Listed(ws, GivenName), Listed(ws, HeldName);
    forall i | 0 <= i < |artifacts|
      ensures given[i] == artifacts[i] && held[i] == artifacts[i]
      ensures GivenName(To(ws, Mentioned(ws)[i])) == HeldName(To(ws, Mentioned(ws)[i]))
    {
      assert CutOf(To(ws, artifacts[i].id), artifacts[i]);
      CutAddsUp(To(ws, artifacts[i].id), artifacts[i].name);
    }
  }

  /** The artifacts of a task that say something. */
  function Sayers(artifacts: seq<Artifact>): seq<Artifact> {
    if artifacts == [] then []
    else (if artifacts[0].text != "" then [artifacts[0]] else []) + Sayers(artifacts[1..])
  }

  predicate DistinctIds(artifacts: seq<Artifact>) {
    forall i, j | 0 <= i < j < |artifacts| :: artifacts[i].id != artifacts[j].id
  }

  function Replacing(artifacts: seq<Artifact>): seq<Write> {
    seq(|artifacts|, i requires 0 <= i < |artifacts| => Write(artifacts[i], false))
  }

  lemma {:induction false} RestatedAreSayers(artifacts: seq<Artifact>)
    ensures Restated(artifacts) == Replacing(Sayers(artifacts))
  {
    if artifacts != [] {
      RestatedAreSayers(artifacts[1..]);
      ReplacingAppend(if artifacts[0].text != "" then [artifacts[0]] else [], Sayers(artifacts[1..]));
    }
  }

  lemma ReplacingAppend(a: seq<Artifact>, b: seq<Artifact>)
    ensures Replacing(a + b) == Replacing(a) + Replacing(b)
  {
  }

  lemma {:induction false} SayersAreAmong(artifacts: seq<Artifact>)
    ensures forall a | a in Sayers(artifacts) :: a in artifacts
  {
    if artifacts != [] {
      SayersAreAmong(artifacts[1..]);
      assert forall a | a in artifacts[1..] :: a in artifacts;
    }
  }

  lemma {:induction false} SayersDistinct(artifacts: seq<Artifact>)
    requires DistinctIds(artifacts)
    ensures DistinctIds(Sayers(artifacts))
  {
    if artifacts != [] {
      SayersDistinct(artifacts[1..]);
      SayersAreAmong(artifacts[1..]);
      var rest := Sayers(artifacts[1..]);
      forall j | 0 <= j < |rest| ensures rest[j].id != artifacts[0].id {
        assert rest[j] in rest && rest[j] in artifacts[1..];
        var k :| 0 <= k < |artifacts[1..]| && artifacts[1..][k] == rest[j];
        assert artifacts[k + 1] == rest[j];
      }
    }
  }

  function Ids(artifacts: seq<Artifact>): seq<string> {
    seq(|artifacts|, i requires 0 <= i < |artifacts| => artifacts[i].id)
  }

  lemma ReplacingSnoc(artifacts: seq<Artifact>)
    requires artifacts != []
    ensures var n := |artifacts| - 1;
      && Replacing(artifacts) == Replacing(artifacts[..n]) + [Write(artifacts[n], false)]
      && Ids(artifacts) == Ids(artifacts[..n]) + [artifacts[n].id]
  {
  }

  lemma {:induction false} ReplacingMentions(artifacts: seq<Artifact>)
    requires DistinctIds(artifacts)
    ensures Mentioned(Replacing(artifacts)) == Ids(artifacts)
  {
    if artifacts != [] {
      var init, a := artifacts[..|artifacts| - 1], artifacts[|artifacts| - 1];
      ReplacingMentions(init);
      ReplacingSnoc(artifacts);
      MentionedSnoc(Replacing(init), Write(a, false));
    }
  }

  lemma {:induction false} NotReplaced(artifacts: seq<Artifact>, id: string)
    requires forall i | 0 <= i < |artifacts| :: artifacts[i].id != id
    ensures To(Replacing(artifacts), id) == []
  {
    if artifacts != [] {
      var init, a := artifacts[..|artifacts| - 1], artifacts[|artifacts| - 1];
      NotReplaced(init, id);
      ReplacingSnoc(artifacts);
      ToSnoc(Replacing(init), Write(a, false), id);
    }
  }

  lemma {:induction false} ReplacedOnce(artifacts: seq<Artifact>, i: nat)
    requires DistinctIds(artifacts) && i < |artifacts|
    ensures To(Replacing(artifacts), artifacts[i].id) == [Write(artifacts[i], false)]
  {
    var init, a := artifacts[..|artifacts| - 1], artifacts[|artifacts| - 1];
    ReplacingSnoc(artifacts);
    ToSnoc(Replacing(init), Write(a, false), artifacts[i].id);
    if i < |init| {
      ReplacedOnce(init, i);
    } else {
      NotReplaced(init, a.id);
    }
  }

  /** A stream that consists of the whole task replies just as the task read as a whole does. */
  lemma WholeTaskAlone(artifacts: seq<Artifact>, statusText: string, historyText: string)
    requires DistinctIds(artifacts)
    ensures StreamTexts(Consume(START, [WholeTask(artifacts, statusText, historyText)]))
            == ReplyTexts(artifacts, statusText, historyText)
  {
    var e := WholeTask(artifacts, statusText, historyText);
    SayersCollected(e);
    SayersSayTheSame(artifacts);
    MergeKeepsMessages(START, artifacts);
    assert [e][1..] == [];
    assert Consume(START, [e]) == Apply(START, e);
  }

  lemma SayersCollected(e: Event)
    requires e.WholeTask? && DistinctIds(e.artifacts)
    ensures Collected(Consume(START, [e])) == Sayers(e.artifacts)
  {
    assert [e][1..] == [] && Writes([e]) == Restated(e.artifacts) + [];
    RestatedAreSayers(e.artifacts);
    SayersDistinct(e.artifacts);
    assert Writes([e]) == Replacing(Sayers(e.artifacts));
    ReplacingIsListed(Sayers(e.artifacts));
    CollectedIsListed([e]);
  }

  lemma ReplacingIsListed(artifacts: seq<Artifact>)
    requires DistinctIds(artifacts)
    ensures Listed(Replacing(artifacts), GivenName) == artifacts
  {
    var ws := Replacing(artifacts);
    ReplacingMentions(artifacts);
    forall i | 0 <= i < |artifacts| ensures CutOf(To(ws, artifacts[i].id), artifacts[i]) {
      ReplacedOnce(artifacts, i);
      OneWriteCuts(artifacts[i]);
    }
    CutsAreListed(ws, artifacts);
  }

  lemma OneWriteCuts(a: Artifact)
    ensures CutOf([Write(a, false)], a)
  {
    assert [Write(a, false)][1..] == [] && a.text + "" == a.text;
  }

  lemma {:induction false} MergeKeepsMessages(s: State, artifacts: seq<Artifact>)
    ensures var u := MergeAll(s, artifacts); u.finalMsg == s.finalMsg && u.bareMsg == s.bareMsg
    decreases |artifacts|
  {
    if artifacts != [] {
      MergeKeepsMessages(MergeArtifact(s, artifacts[0]), artifacts[1..]);
    }
  }

  lemma SayersSayTheSame(artifacts: seq<Artifact>)
    ensures Texts(Sayers(artifacts)) == Texts(artifacts)
  {
    var keep := seq(|artifacts|, i requires 0 <= i < |artifacts| => artifacts[i].text != "");
    SilentArtifactsDrop(artifacts, keep);
    SayersAreKept(artifacts, keep);
  }

  lemma {:induction false} SayersAreKept(artifacts: seq<Artifact>, keep: seq<bool>)
    requires |keep| == |artifacts| && forall i | 0 <= i < |keep| :: keep[i] <==> artifacts[i].text != ""
    ensures Kept(artifacts, keep) == Sayers(artifacts)
  {
    if artifacts != [] {
      var n := |artifacts| - 1;
      SayersAreKept(artifacts[..n], keep[..n]);
      SayersSnoc(artifacts[..n], artifacts[n]);
      assert artifacts[..n] + [artifacts[n]] == artifacts;
    }
  }

  lemma {:induction false} SayersSnoc(artifacts: seq<Artifact>, a: Artifact)
    ensures Sayers(artifacts + [a]) == Sayers(artifacts) + if a.text != "" then [a] else []
  {
    if artifacts == [] {
      assert [] + [a] == [a] && [a][1..] == [];
    } else {
      assert (artifacts + [a])[1..] == artifacts[1..] + [a];
      SayersSnoc(artifacts[1..], a);
      var first := if artifacts[0].text != "" then [artifacts[0]] else [];
      var last := if a.text != "" then [a] else [];
      assert first + (Sayers(artifacts[1..]) + last) == (first + Sayers(artifacts[1..])) + last;
    }
  }
}
