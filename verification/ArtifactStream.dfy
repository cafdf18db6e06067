/** Collecting a streamed A2A reply, and the blocking reply it has to agree with. */
module ArtifactStream {
  import opened Messages

  /** An artifact as the protocol carries it; `text` joins its text parts, an empty
      name stands for none. */
  datatype Artifact = Artifact(id: string, name: string, text: string)

  /** Artifacts of the same name count as one, unnamed ones by their id. */
  datatype Key = ByName(name: string) | ById(id: string)

  function KeyOf(a: Artifact): Key {
    if a.name != "" then ByName(a.name) else ById(a.id)
  }

  /** The keys under which something was said, in order of first occurrence. */
  function KeyOrder(artifacts: seq<Artifact>): (keys: seq<Key>) {
    if artifacts == [] then []
    else
      var init, last := artifacts[..|artifacts| - 1], artifacts[|artifacts| - 1];
      if last.text == "" || KeyOf(last) in KeyOrder(init) then KeyOrder(init)
      else KeyOrder(init) + [KeyOf(last)]
  }

  /** No key occurs twice, and there is one for everything said. */
  lemma {:induction false} KeysAreThoseSaid(artifacts: seq<Artifact>)
    ensures var keys := KeyOrder(artifacts);
      && (forall i, j | 0 <= i < j < |keys| :: keys[i] != keys[j])
      && (forall k :: k in keys <==> exists i :: 0 <= i < |artifacts| && Says(artifacts[i], k))
  {
    if artifacts != [] {
      var init, last := artifacts[..|artifacts| - 1], artifacts[|artifacts| - 1];
      KeysAreThoseSaid(init);
      forall k ensures k in KeyOrder(artifacts) <==> k in KeyOrder(init) || Says(last, k) {
        assert [KeyOf(last)][0] == KeyOf(last);
      }
      forall k | exists i :: 0 <= i < |artifacts| && Says(artifacts[i], k) ensures k in KeyOrder(artifacts) {
        var i :| 0 <= i < |artifacts| && Says(artifacts[i], k);
        assert i < |init| ==> Says(init[i], k);
      }
      forall k | k in KeyOrder(artifacts) ensures exists i :: 0 <= i < |artifacts| && Says(artifacts[i], k) {
        if k in KeyOrder(init) {
          var i :| 0 <= i < |init| && Says(init[i], k);
          assert Says(artifacts[i], k);
        } else {
          assert Says(artifacts[|init|], k);
        }
      }
    }
  }

  predicate Says(a: Artifact, key: Key) {
    a.text != "" && KeyOf(a) == key
  }

  /** The last thing said under the key. */
  function LastText(artifacts: seq<Artifact>, key: Key): string {
    if artifacts == [] then ""
    else if Says(artifacts[|artifacts| - 1], key) then artifacts[|artifacts| - 1].text
    else LastText(artifacts[..|artifacts| - 1], key)
  }

  function Texts(artifacts: seq<Artifact>): seq<string> {
    var keys := KeyOrder(artifacts);
    seq(|keys|, i requires 0 <= i < |keys| => LastText(artifacts, keys[i]))
  }

  /** Artifact `i` is the last to say something under the key. */
  predicate SaysLast(artifacts: seq<Artifact>, key: Key, i: nat)
    requires i < |artifacts|
  {
    && Says(artifacts[i], key)
    && forall j | i < j < |artifacts| :: !Says(artifacts[j], key)
  }

  /** Artifact `i` is the first to say something under the key. */
  predicate SaysFirst(artifacts: seq<Artifact>, key: Key, i: nat)
    requires i < |artifacts|
  {
    && Says(artifacts[i], key)
    && forall j | 0 <= j < i :: !Says(artifacts[j], key)
  }

  lemma {:induction false} LastTextIs(artifacts: seq<Artifact>, key: Key, i: nat)
    requires i < |artifacts| && SaysLast(artifacts, key, i)
    ensures LastText(artifacts, key) == artifacts[i].text
  {
    var n := |artifacts| - 1;
    if i < n {
      assert forall j | 0 <= j < n :: artifacts[..n][j] == artifacts[j];
      assert !Says(artifacts[n], key);
      LastTextIs(artifacts[..n], key, i);
    }
  }

  ghost predicate Precedes(keys: seq<Key>, k: Key, l: Key) {
    exists i, j | 0 <= i < j < |keys| :: keys[i] == k && keys[j] == l
  }

  lemma PrecedesSnoc(keys: seq<Key>, k: Key, l: Key, last: Key)
    requires (k in keys && l == last) || Precedes(keys, k, l)
    ensures Precedes(keys + [last], k, l)
  {
    var all := keys + [last];
    if k in keys && l == last {
      var i :| 0 <= i < |keys| && keys[i] == k;
      assert all[i] == k && all[|keys|] == l;
    } else {
      var i, j :| 0 <= i < j < |keys| && keys[i] == k && keys[j] == l;
      assert all[i] == k && all[j] == l;
    }
  }

  /** The keys stand in the order in which each first said something. */
  lemma {:induction false} OrderOfFirsts(artifacts: seq<Artifact>, a: nat, b: nat)
    requires a < b < |artifacts|
    requires SaysFirst(artifacts, KeyOf(artifacts[a]), a) && SaysFirst(artifacts, KeyOf(artifacts[b]), b)
    ensures Precedes(KeyOrder(artifacts), KeyOf(artifacts[a]), KeyOf(artifacts[b]))
  {
    var n := |artifacts| - 1;
    var init, k, l := artifacts[..n], KeyOf(artifacts[a]), KeyOf(artifacts[b]);
    assert forall j | 0 <= j < n :: init[j] == artifacts[j];
    KeysAreThoseSaid(init);
    assert Says(init[a], k) && k in KeyOrder(init);
    if b < n {
      OrderOfFirsts(init, a, b);
      PrecedesSnoc(KeyOrder(init), k, l, KeyOf(artifacts[n]));
    } else {
      assert l !in KeyOrder(init);
      PrecedesSnoc(KeyOrder(init), k, l, l);
    }
  }

  /** There is a text for everything said under a key, named artifacts of one name and
      unnamed ones of one id counting as one: what was said there last, at the place
      where it was first said. */
  lemma {:induction false} TextsOfWhatIsSaid(artifacts: seq<Artifact>, a: nat, last: nat)
    requires a < |artifacts| && SaysFirst(artifacts, KeyOf(artifacts[a]), a)
    requires last < |artifacts| && SaysLast(artifacts, KeyOf(artifacts[a]), last)
    ensures KeyOf(artifacts[a]) == (if artifacts[a].name == "" then ById(artifacts[a].id) else ByName(artifacts[a].name))
    ensures var keys, texts := KeyOrder(artifacts), Texts(artifacts);
      && |texts| == |keys|
      && exists i | 0 <= i < |keys| :: keys[i] == KeyOf(artifacts[a]) && texts[i] == artifacts[last].text
  {
    var key, keys := KeyOf(artifacts[a]), KeyOrder(artifacts);
    KeysAreThoseSaid(artifacts);
    assert Says(artifacts[a], key);
    assert exists i :: 0 <= i < |artifacts| && Says(artifacts[i], key);
    assert key in KeyOrder(artifacts);
    LastTextIs(artifacts, key, last);
    var i :| 0 <= i < |keys| && keys[i] == key;
    assert Texts(artifacts)[i] == artifacts[last].text;
  }

  /** The last text under every key that has one. */
  ghost predicate Latest(artifacts: seq<Artifact>, byKey: map<Key, string>) {
    && (forall k :: k in byKey <==> k in KeyOrder(artifacts))
    && (forall k | k in byKey :: byKey[k] == LastText(artifacts, k))
  }

  lemma LatestStep(artifacts: seq<Artifact>, byKey: map<Key, string>)
    requires artifacts != [] && Latest(artifacts[..|artifacts| - 1], byKey)
    ensures var a := artifacts[|artifacts| - 1];
      Latest(artifacts, if a.text != "" then byKey[KeyOf(a) := a.text] else byKey)
  {
  }

  method ArtifactTexts(artifacts: seq<Artifact>) returns (texts: seq<string>)
    ensures texts == Texts(artifacts)
  {
    var order: seq<Key> := [];
    var byKey: map<Key, string> := map[];
    for i := 0 to |artifacts|
      invariant order == KeyOrder(artifacts[..i])
      invariant Latest(artifacts[..i], byKey)
    {
      assert artifacts[..i + 1][..i] == artifacts[..i];
      LatestStep(artifacts[..i + 1], byKey);
      if artifacts[i].text != "" {
        var key := KeyOf(artifacts[i]);
        if key !in byKey {
          order := order + [key];
        }
        byKey := byKey[key := artifacts[i].text];
      }
    }
    assert artifacts[..|artifacts|] == artifacts;
    texts := [];
    for i := 0 to |order|
      invariant texts == Texts(artifacts)[..i]
    {
      texts := texts + [byKey[order[i]]];
    }
  }

  /** The reply of a task read as a whole: its artifacts, else the status message,
      else what the agent said in the history. */
  function ReplyTexts(artifacts: seq<Artifact>, statusText: string, historyText: string): seq<string> {
    if Texts(artifacts) != [] then Texts(artifacts)
    else if statusText != "" then [statusText]
    else if historyText != "" then [historyText]
    else []
  }

  predicate Silent(artifacts: seq<Artifact>) {
    forall i | 0 <= i < |artifacts| :: artifacts[i].text == ""
  }

  lemma SilentHasNoTexts(artifacts: seq<Artifact>)
    ensures Texts(artifacts) == [] <==> Silent(artifacts)
  {
    KeysAreThoseSaid(artifacts);
    if !Silent(artifacts) {
      var i :| 0 <= i < |artifacts| && artifacts[i].text != "";
      assert Says(artifacts[i], KeyOf(artifacts[i]));
      assert KeyOf(artifacts[i]) in KeyOrder(artifacts);
    }
    if KeyOrder(artifacts) != [] {
      var key := KeyOrder(artifacts)[0];
      assert key in KeyOrder(artifacts);
      var i :| 0 <= i < |artifacts| && Says(artifacts[i], key);
    }
  }

  /** An artifact that says something comes before the status message, that before the
      history; a task in which nobody says anything has no reply. */
  lemma ReplyFallsBack(artifacts: seq<Artifact>, statusText: string, historyText: string)
    ensures ReplyTexts(artifacts, statusText, historyText) ==
      if exists i :: 0 <= i < |artifacts| && artifacts[i].text != "" then Texts(artifacts)
      else if statusText + historyText == "" then []
      else if statusText == "" then [historyText] else [statusText]
  {
    SilentHasNoTexts(artifacts);
  }

  datatype Event =
    | BareMessage(text: string)
    | WholeTask(artifacts: seq<Artifact>, statusText: string, historyText: string)
    | StatusUpdate(text: string, final: bool)
    | ArtifactUpdate(artifact: Artifact, append: bool)

  predicate Final(e: Event) {
    e.StatusUpdate? && e.final
  }

  /** An artifact under construction. */
  datatype Part = Part(name: string, text: string, isText: bool)

  /** What the live stream was sent. */
  datatype Emission = Boundary | Content(text: string)

  datatype State = State(parts: map<string, Part>, order: seq<string>, finalMsg: string, bareMsg: string,
                         live: Option<string>, emitted: seq<Emission>)

  const START := State(map[], [], "", "", None, [])

  const BARE := "__bare_message__"

  function PartAt(s: State, id: string): Part {
    if id in s.parts then s.parts[id] else Part("", "", false)
  }

  function Put(s: State, id: string, p: Part): State {
    s.(parts := s.parts[id := p], order := if id in s.parts then s.order else s.order + [id])
  }

  function Extend(p: Part, a: Artifact, append: bool): Part {
    var text := if append then p.text + a.text else a.text;
    Part(if a.name != "" then a.name else p.name, text, p.isText || text != "")
  }

  /** A whole task is taken over artifact by artifact; one without text is skipped. */
  function MergeArtifact(s: State, a: Artifact): State {
    if a.text == "" then s else Put(s, a.id, Extend(PartAt(s, a.id), a, false))
  }

  function MergeAll(s: State, artifacts: seq<Artifact>): State
    decreases |artifacts|
  {
    if artifacts == [] then s else MergeAll(MergeArtifact(s, artifacts[0]), artifacts[1..])
  }

  function Join(texts: seq<string>): string {
    if texts == [] then "" else if |texts| == 1 then texts[0] else texts[0] + "\n" + Join(texts[1..])
  }

  /** The texts stand in order with a line break between every two. */
  lemma {:induction false} JoinSnoc(texts: seq<string>, last: string)
    ensures Join(texts + [last]) == if texts == [] then last else Join(texts) + "\n" + last
  {
    if texts != [] {
      assert (texts + [last])[1..] == texts[1..] + [last];
      JoinSnoc(texts[1..], last);
      if |texts| > 1 {
        assert texts[0] + "\n" + (Join(texts[1..]) + "\n" + last) == (texts[0] + "\n" + Join(texts[1..])) + "\n" + last;
      }
    }
  }

  function StreamLive(s: State, id: string, text: string): State {
    if text == "" then s
    else s.(live := Some(id),
            emitted := s.emitted + (if s.live.Some? && s.live.value != id then [Boundary] else []) + [Content(text)])
  }

  function Apply(s: State, e: Event): State {
    match e
    case BareMessage(text) => StreamLive(s.(bareMsg := s.bareMsg + text), BARE, text)
    case WholeTask(artifacts, statusText, historyText) =>
      var merged := MergeAll(s, artifacts);
      var reply := ReplyTexts(artifacts, statusText, historyText);
      if Texts(artifacts) == [] && reply != [] then merged.(finalMsg := Join(reply)) else merged
    case StatusUpdate(text, final) => if final && text != "" then s.(finalMsg := text) else s
    case ArtifactUpdate(a, append) =>
      StreamLive(Put(s, a.id, Extend(PartAt(s, a.id), a, append)), a.id, a.text)
  }

  /** The events up to and including the first final status. */
  function Consume(s: State, events: seq<Event>): State
    decreases |events|
  {
    if events == [] then s
    else if Final(events[0]) then Apply(s, events[0])
    else Consume(Apply(s, events[0]), events[1..])
  }

  /** The artifacts as collected; those that never had text are empty. */
  function Collected(s: State): seq<Artifact> {
    seq(|s.order|, i requires 0 <= i < |s.order| =>
      var p := PartAt(s, s.order[i]); Artifact(s.order[i], p.name, p.text))
  }

  function StreamTexts(s: State): seq<string> {
    var texts := Texts(Collected(s));
    if texts != [] then texts
    else if s.finalMsg != "" then [s.finalMsg]
    else if s.bareMsg != "" then [s.bareMsg]
    else []
  }

  /** The order lists each collected id once, and an artifact not marked as text has none. */
  ghost predicate Sound(s: State) {
    && (forall i, j | 0 <= i < j < |s.order| :: s.order[i] != s.order[j])
    && (forall id :: id in s.order <==> id in s.parts)
    && (forall id | id in s.parts :: !s.parts[id].isText ==> s.parts[id].text == "")
  }

  lemma {:induction false} MergeAllSound(s: State, artifacts: seq<Artifact>)
    requires Sound(s)
    ensures Sound(MergeAll(s, artifacts))
    decreases |artifacts|
  {
    if artifacts != [] {
      PutSound(s, artifacts[0].id, Extend(PartAt(s, artifacts[0].id), artifacts[0], false));
      MergeAllSound(MergeArtifact(s, artifacts[0]), artifacts[1..]);
    }
  }

  lemma {:induction false} ConsumeSound(s: State, events: seq<Event>)
    requires Sound(s)
    ensures Sound(Consume(s, events))
    decreases |events|
  {
    if events != [] {
      OneEventSound(s, events[0]);
      if !Final(events[0]) {
        ConsumeSound(Apply(s, events[0]), events[1..]);
      }
    }
  }

  lemma OneEventSound(s: State, e: Event)
    requires Sound(s)
    ensures Sound(Apply(s, e))
  {
    match e
    case WholeTask(artifacts, _, _) => MergeAllSound(s, artifacts);
    case ArtifactUpdate(a, append) => PutSound(s, a.id, Extend(PartAt(s, a.id), a, append));
    case _ =>
  }

  lemma PutSound(s: State, id: string, p: Part)
    requires Sound(s) && (!p.isText ==> p.text == "")
    ensures Sound(Put(s, id, p))
  {
  }

  /** The artifacts that are kept. */
  function Kept(artifacts: seq<Artifact>, keep: seq<bool>): seq<Artifact>
    requires |keep| == |artifacts|
  {
    if artifacts == [] then []
    else
      var n := |artifacts| - 1;
      Kept(artifacts[..n], keep[..n]) + if keep[n] then [artifacts[n]] else []
  }

  /** Dropping artifacts that say nothing does not change the texts. */
  lemma SilentArtifactsDrop(artifacts: seq<Artifact>, keep: seq<bool>)
    requires |keep| == |artifacts| && forall i | 0 <= i < |keep| :: !keep[i] ==> artifacts[i].text == ""
    ensures Texts(Kept(artifacts, keep)) == Texts(artifacts)
  {
    SameOrder(artifacts, keep);
    var keys := KeyOrder(artifacts);
    forall i | 0 <= i < |keys| ensures LastText(Kept(artifacts, keep), keys[i]) == LastText(artifacts, keys[i]) {
      SameLast(artifacts, keep, keys[i]);
    }
  }

  lemma {:induction false} SameOrder(artifacts: seq<Artifact>, keep: seq<bool>)
    requires |keep| == |artifacts| && forall i | 0 <= i < |keep| :: !keep[i] ==> artifacts[i].text == ""
    ensures KeyOrder(Kept(artifacts, keep)) == KeyOrder(artifacts)
  {
    if artifacts != [] {
      var n := |artifacts| - 1;
      SameOrder(artifacts[..n], keep[..n]);
      var init := Kept(artifacts[..n], keep[..n]);
      assert (init + [artifacts[n]])[..|init|] == init;
      assert init + [] == init;
    }
  }

  lemma {:induction false} SameLast(artifacts: seq<Artifact>, keep: seq<bool>, key: Key)
    requires |keep| == |artifacts| && forall i | 0 <= i < |keep| :: !keep[i] ==> artifacts[i].text == ""
    ensures LastText(Kept(artifacts, keep), key) == LastText(artifacts, key)
  {
    if artifacts != [] {
      var n := |artifacts| - 1;
      SameLast(artifacts[..n], keep[..n], key);
      var init := Kept(artifacts[..n], keep[..n]);
      assert (init + [artifacts[n]])[..|init|] == init;
      assert init + [] == init;
    }
  }

  /** A piece sent to the live stream. */
  datatype Live = Live(id: string, text: string)

  function LiveOf(e: Event): seq<Live> {
    match e
    case BareMessage(text) => if text != "" then [Live(BARE, text)] else []
    case ArtifactUpdate(a, _) => if a.text != "" then [Live(a.id, a.text)] else []
    case _ => []
  }

  function LiveAll(events: seq<Event>): seq<Live> {
    if events == [] || Final(events[0]) then []
    else LiveOf(events[0]) + LiveAll(events[1..])
  }

  /** The pieces with a boundary between two neighbours of different origin, and nowhere else. */
  function Interleaved(before: Option<string>, lives: seq<Live>): seq<Emission>
    decreases |lives|
  {
    if lives == [] then []
    else (if before.Some? && before.value != lives[0].id then [Boundary] else [])
         + [Content(lives[0].text)] + Interleaved(Some(lives[0].id), lives[1..])
  }

  lemma {:induction false} MergeIsSilent(s: State, artifacts: seq<Artifact>)
    ensures var u := MergeAll(s, artifacts); u.live == s.live && u.emitted == s.emitted
    decreases |artifacts|
  {
    if artifacts != [] {
      MergeIsSilent(MergeArtifact(s, artifacts[0]), artifacts[1..]);
    }
  }

  /** The live stream receives every piece in order, with boundaries exactly where
      the origin changes. */
  lemma {:induction false} BoundariesWhereOriginChanges(s: State, events: seq<Event>)
    ensures Consume(s, events).emitted == s.emitted + Interleaved(s.live, LiveAll(events))
    decreases |events|
  {
    if events != [] && !Final(events[0]) {
      var next := Apply(s, events[0]);
      OneEventLive(s, events[0]);
      BoundariesWhereOriginChanges(next, events[1..]);
      InterleavedAppend(s.live, LiveOf(events[0]), LiveAll(events[1..]));
    }
  }

  lemma OneEventLive(s: State, e: Event)
    ensures var next := Apply(s, e);
      && next.emitted == s.emitted + Interleaved(s.live, LiveOf(e))
      && next.live == LastOrigin(s.live, LiveOf(e))
  {
    if e.WholeTask? {
      MergeIsSilent(s, e.artifacts);
    }
    assert forall l: Live :: [l][1..] == [];
  }

  function LastOrigin(before: Option<string>, lives: seq<Live>): Option<string> {
    if lives == [] then before else Some(lives[|lives| - 1].id)
  }

  lemma {:induction false} InterleavedAppend(before: Option<string>, a: seq<Live>, b: seq<Live>)
    ensures Interleaved(before, a + b) == Interleaved(before, a) + Interleaved(LastOrigin(before, a), b)
    decreases |a|
  {
    if a == [] {
      assert a + b == b;
    } else {
      assert (a + b)[1..] == a[1..] + b;
      InterleavedAppend(Some(a[0].id), a[1..], b);
    }
  }

  /** The bare messages up to the first final status, one after the other. */
  function Bare(events: seq<Event>): string {
    if events == [] || Final(events[0]) then ""
    else (if events[0].BareMessage? then events[0].text else "") + Bare(events[1..])
  }

  /** What the event offers as the reply if no artifact speaks: a final status its message,
      a whole task in which no artifact speaks its status message, or else its history. */
  function Offers(e: Event): string {
    match e
    case StatusUpdate(text, true) => text
    case WholeTask(artifacts, statusText, historyText) =>
      if !Silent(artifacts) then "" else if statusText != "" then statusText else historyText
    case _ => ""
  }

  /** No event from the i-th on that is read offers anything. */
  predicate NoneOffers(events: seq<Event>, i: nat)
    requires i <= |events|
    decreases |events| - i
  {
    i < |events| ==> Offers(events[i]) == "" && (Final(events[i]) || NoneOffers(events, i + 1))
  }

  /** Reading from the event `from` on, event `i` is reached, and is the last to offer something. */
  predicate OffersLast(events: seq<Event>, from: nat, i: nat)
    requires from <= i < |events|
  {
    && (forall j | from <= j < i :: !Final(events[j]))
    && Offers(events[i]) != ""
    && (Final(events[i]) || NoneOffers(events, i + 1))
  }

  lemma OneEventOffers(s: State, e: Event)
    ensures var next := Apply(s, e);
      && next.finalMsg == (if Offers(e) != "" then Offers(e) else s.finalMsg)
      && next.bareMsg == s.bareMsg + if e.BareMessage? then e.text else ""
  {
    assert s.bareMsg + "" == s.bareMsg;
    if e.WholeTask? {
      MergeKeepsMessages(s, e.artifacts);
      SilentHasNoTexts(e.artifacts);
    }
  }

  lemma {:induction false} MergeKeepsMessages(s: State, artifacts: seq<Artifact>)
    ensures var u := MergeAll(s, artifacts); u.finalMsg == s.finalMsg && u.bareMsg == s.bareMsg
    decreases |artifacts|
  {
    if artifacts != [] {
      MergeKeepsMessages(MergeArtifact(s, artifacts[0]), artifacts[1..]);
    }
  }

  lemma RegroupText(a: string, b: string, c: string)
    ensures a + b + c == a + (b + c)
  {
  }

  /** What is offered last beats all offered before, and bare messages add up. */
  lemma {:induction false} MessagesOfStream(s: State, events: seq<Event>, from: nat)
    requires from <= |events|
    ensures var u := Consume(s, events[from..]);
      && u.bareMsg == s.bareMsg + Bare(events[from..])
      && (NoneOffers(events, from) ==> u.finalMsg == s.finalMsg)
      && (forall i | from <= i < |events| && OffersLast(events, from, i) :: u.finalMsg == Offers(events[i]))
    decreases |events| - from
  {
    assert s.bareMsg + "" == s.bareMsg;
    if from < |events| {
      var e := events[from];
      assert events[from..][0] == e && events[from..][1..] == events[from + 1..];
      OneEventOffers(s, e);
      if !Final(e) {
        MessagesOfStream(Apply(s, e), events, from + 1);
        assert forall i | from < i < |events| && OffersLast(events, from, i) :: OffersLast(events, from + 1, i);
        RegroupText(s.bareMsg, if e.BareMessage? then e.text else "", Bare(events[from + 1..]));
      }
    }
  }

  /** The reply of a stream: the texts of its artifacts if one of them speaks; else what
      was offered last; else the bare messages together. */
  lemma StreamFallsBack(events: seq<Event>, i: nat)
    ensures var s := Consume(START, events);
      && (!Silent(Collected(s)) ==> StreamTexts(s) == Texts(Collected(s)))
      && (Silent(Collected(s)) && i < |events| && OffersLast(events, 0, i) ==> StreamTexts(s) == [Offers(events[i])])
      && (Silent(Collected(s)) && NoneOffers(events, 0) ==>
            StreamTexts(s) == if Bare(events) == "" then [] else [Bare(events)])
  {
    SilentHasNoTexts(Collected(Consume(START, events)));
    assert events[0..] == events && "" + Bare(events) == Bare(events);
    MessagesOfStream(START, events, 0);
  }

  /** The context of a running stream. */
  class StreamContext {
    var artifacts: map<string, Part>
    var artifactOrder: seq<string>
    var finalMsg: string
    var bareMsg: string
    var liveArtifactId: string
    var liveStarted: bool
    var emitted: seq<Emission>

    ghost function View(): State
      reads this
    {
      State(artifacts, artifactOrder, finalMsg, bareMsg,
            if liveStarted then Some(liveArtifactId) else None, emitted)
    }

    constructor ()
      ensures View() == START
    {
      artifacts, artifactOrder, finalMsg, bareMsg := map[], [], "", "";
      liveArtifactId, liveStarted, emitted := "", false, [];
    }

    method GetOrCreate(id: string) returns (p: Part)
      modifies this`artifacts, this`artifactOrder
      ensures p == PartAt(old(View()), id) && View() == Put(old(View()), id, p)
    {
      if id !in artifacts {
        artifacts := artifacts[id := Part("", "", false)];
        artifactOrder := artifactOrder + [id];
      }
      p := artifacts[id];
      assert artifacts == artifacts[id := p];
    }

    method StreamLiveText(id: string, text: string)
      requires text != ""
      modifies this`liveArtifactId, this`liveStarted, this`emitted
      ensures View() == StreamLive(old(View()), id, text)
    {
      if liveStarted && liveArtifactId != id {
        emitted := emitted + [Boundary];
      }
      liveArtifactId := id;
      liveStarted := true;
      emitted := emitted + [Content(text)];
    }

    method ConsumeArtifactUpdate(a: Artifact, append: bool)
      modifies this
      ensures View() == Apply(old(View()), ArtifactUpdate(a, append))
    {
      var p := GetOrCreate(a.id);
      if a.name != "" {
        p := p.(name := a.name);
      }
      p := p.(text := if append then p.text + a.text else a.text);
      if |p.text| > 0 {
        p := p.(isText := true);
      }
      artifacts := artifacts[a.id := p];
      if a.text != "" {
        StreamLiveText(a.id, a.text);
      }
    }

    method MergeOne(a: Artifact)
      modifies this`artifacts, this`artifactOrder
      ensures View() == MergeArtifact(old(View()), a)
    {
      if a.text == "" {
        return;
      }
      var p := GetOrCreate(a.id);
      if a.name != "" {
        p := p.(name := a.name);
      }
      artifacts := artifacts[a.id := p.(text := a.text, isText := true)];
    }

    method ConsumeTask(task: seq<Artifact>, statusText: string, historyText: string)
      modifies this
      ensures View() == Apply(old(View()), WholeTask(task, statusText, historyText))
    {
      assert task[0..] == task;
      for i := 0 to |task|
        invariant MergeAll(View(), task[i..]) == MergeAll(old(View()), task)
      {
        assert task[i..][0] == task[i] && task[i..][1..] == task[i + 1..];
        MergeOne(task[i]);
      }
      var texts := ArtifactTexts(task);
      if |texts| == 0 {
        var reply := ReplyTexts(task, statusText, historyText);
        if |reply| > 0 {
          finalMsg := Join(reply);
        }
      }
    }

    method ConsumeMessage(text: string)
      modifies this
      ensures View() == Apply(old(View()), BareMessage(text))
    {
      bareMsg := bareMsg + text;
      if text != "" {
        StreamLiveText(BARE, text);
      }
    }

    method ConsumeStatusUpdate(text: string, final: bool) returns (done: bool)
      modifies this`finalMsg
      ensures View() == Apply(old(View()), StatusUpdate(text, final)) && done == final
    {
      if final && text != "" {
        finalMsg := text;
      }
      done := final;
    }

    method ConsumeEvents(events: seq<Event>)
      modifies this
      ensures View() == Consume(old(View()), events)
    {
      assert events[0..] == events;
      for i := 0 to |events|
        invariant Consume(View(), events[i..]) == Consume(old(View()), events)
      {
        assert events[i..][0] == events[i] && events[i..][1..] == events[i + 1..];
        match events[i]
        case BareMessage(text) => ConsumeMessage(text);
        case WholeTask(task, statusText, historyText) => ConsumeTask(task, statusText, historyText);
        case StatusUpdate(text, final) =>
          var done := ConsumeStatusUpdate(text, final);
          if done {
            return;
          }
        case ArtifactUpdate(a, append) => ConsumeArtifactUpdate(a, append);
      }
    }

    method ReplyTextsOfArtifacts() returns (texts: seq<string>)
      requires Sound(View())
      ensures texts == Texts(Collected(View()))
    {
      ghost var all := Collected(View());
      ghost var state := View();
      ghost var isText := seq(|all|, i requires 0 <= i < |all| => PartAt(state, all[i].id).isText);
      var list := [];
      for i := 0 to |artifactOrder|
        invariant list == Kept(all[..i], isText[..i])
      {
        var p := artifacts[artifactOrder[i]];
        assert all[..i + 1][..i] == all[..i] && isText[..i + 1][..i] == isText[..i];
        assert all[i] == Artifact(artifactOrder[i], p.name, p.text) && isText[i] == p.isText;
        if p.isText {
          list := list + [Artifact(artifactOrder[i], p.name, p.text)];
        }
      }
      assert all[..|all|] == all && isText[..|all|] == isText;
      SilentArtifactsDrop(all, isText);
      texts := ArtifactTexts(list);
    }

    method BuildStreamResult() returns (texts: seq<string>, content: string)
      requires Sound(View())
      ensures texts == StreamTexts(View()) && content == Join(texts)
    {
      texts := ReplyTextsOfArtifacts();
      if |texts| == 0 {
        if |finalMsg| > 0 {
          texts := [finalMsg];
        } else if |bareMsg| > 0 {
          texts := [bareMsg];
        }
      }
      content := Join(texts);
    }

    /** The whole of a stream: its events, then the result. */
    method ConsumeStream(events: seq<Event>) returns (texts: seq<string>)
      requires View() == START
      modifies this
      ensures texts == StreamTexts(Consume(START, events))
    {
      ConsumeEvents(events);
      ConsumeSound(START, events);
      var content;
      texts, content := BuildStreamResult();
    }
  }
}
