/** The status of an A2A task and how replies of the remote server are merged
    into it (A2A Protocol Specification 0.3.0, section 6.3). */
module TaskStatus {
  import opened Messages

  datatype Phase =
    | Unset | Pending | Assigned | Running | InputRequired | AuthRequired
    | Completed | Failed | Cancelled | Unknown

  function ConvertState(state: string): Phase {
    match state
    case "submitted" => Assigned
    case "working" => Running
    case "input-required" => InputRequired
    case "auth-required" => AuthRequired
    case "completed" => Completed
    case "failed" => Failed
    case "canceled" => Cancelled
    case "rejected" => Failed
    case _ => Unknown
  }

  predicate Terminal(phase: Phase) {
    phase.Completed? || phase.Failed? || phase.Cancelled?
  }

  /** A reported state ends the task exactly when it is one of four; no state is
      ever read as pending or unset, so a first reply always leaves those phases. */
  lemma StatesEndTasks(state: string)
    ensures Terminal(ConvertState(state)) <==> state in {"completed", "failed", "canceled", "rejected"}
    ensures ConvertState(state).Completed? <==> state == "completed"
    ensures ConvertState(state).Cancelled? <==> state == "canceled"
    ensures ConvertState(state).Failed? <==> state in {"failed", "rejected"}
    ensures ConvertState(state).InputRequired? <==> state == "input-required"
    ensures ConvertState(state).AuthRequired? <==> state == "auth-required"
    ensures ConvertState(state).Running? <==> state == "working"
    ensures ConvertState(state).Assigned? <==> state == "submitted"
    ensures !ConvertState(state).Pending? && !ConvertState(state).Unset?
  {
  }

  datatype Reason =
    | TaskNotStarted | TaskPending | TaskRunning | TaskSucceeded | TaskFailed | TaskCancelled | TaskTimeout
    | InvalidApprovalDecision | ApprovalGranted | ApprovalRejected
    | ApprovalTimeoutRejected | ApprovalTimeoutProceeded

  /** The task's Completed condition. */
  datatype Condition = Condition(isTrue: bool, reason: Reason)

  datatype TaskMessage = TaskMessage(id: string, role: string, parts: seq<string>)

  datatype Artifact = Artifact(id: string, name: string, parts: seq<string>)

  /** A task as the remote server reports it. */
  datatype RemoteTask = RemoteTask(
    state: string, contextId: string, artifacts: seq<Artifact>, history: seq<TaskMessage>,
    statusMessage: Option<TaskMessage>, timestamp: string, metadata: map<string, string>)

  datatype Status = Status(
    phase: Phase, protocolState: string, contextId: string,
    artifacts: seq<Artifact>, history: seq<TaskMessage>, metadata: map<string, string>,
    lastMessage: Option<TaskMessage>, lastTimestamp: string, error: string,
    startTime: Option<int>, completionTime: Option<int>, completed: Option<Condition>)

  /** Reads an RFC 3339 timestamp; None for an empty or malformed one. */
  type Clock = string -> Option<int>

  function ArtifactsWithParts(artifacts: seq<Artifact>): seq<Artifact> {
    if artifacts == [] then []
    else (if artifacts[0].parts != [] then [artifacts[0]] else []) + ArtifactsWithParts(artifacts[1..])
  }

  function MessagesWithParts(history: seq<TaskMessage>): seq<TaskMessage> {
    if history == [] then []
    else (if history[0].parts != [] then [history[0]] else []) + MessagesWithParts(history[1..])
  }

  /** The reported history, followed by the status message when it says something. */
  function ReportedHistory(task: RemoteTask): seq<TaskMessage> {
    MessagesWithParts(task.history) +
    if task.statusMessage.Some? && task.statusMessage.value.parts != [] then [task.statusMessage.value] else []
  }

  function Populate(s: Status, task: RemoteTask): Status {
    s.(protocolState := task.state, phase := ConvertState(task.state), contextId := task.contextId,
       artifacts := ArtifactsWithParts(task.artifacts), history := ReportedHistory(task),
       metadata := task.metadata, lastMessage := task.statusMessage, lastTimestamp := task.timestamp)
  }

  function ArtifactIds(artifacts: seq<Artifact>): set<string> {
    set i | 0 <= i < |artifacts| :: artifacts[i].id
  }

  /** The non-empty message ids. */
  function MessageIds(history: seq<TaskMessage>): set<string> {
    set i | 0 <= i < |history| && history[i].id != "" :: history[i].id
  }

  function NewArtifacts(known: set<string>, incoming: seq<Artifact>): seq<Artifact> {
    if incoming == [] then []
    else (if incoming[0].id !in known then [incoming[0]] else []) + NewArtifacts(known, incoming[1..])
  }

  function NewMessages(known: set<string>, incoming: seq<TaskMessage>): seq<TaskMessage>
    decreases |incoming|
  {
    if incoming == [] then []
    else if incoming[0].id != "" && incoming[0].id !in known then
      [incoming[0]] + NewMessages(known + {incoming[0].id}, incoming[1..])
    else NewMessages(known, incoming[1..])
  }

  function MergeArtifacts(existing: seq<Artifact>, incoming: seq<Artifact>): seq<Artifact> {
    existing + NewArtifacts(ArtifactIds(existing), incoming)
  }

  function MergeHistory(existing: seq<TaskMessage>, incoming: seq<TaskMessage>): seq<TaskMessage> {
    existing + NewMessages(MessageIds(existing), incoming)
  }

  function SetTimestamps(s: Status, oldPhase: Phase, task: RemoteTask, clock: Clock): Status {
    var phase := ConvertState(task.state);
    var at := clock(task.timestamp);
    s.(phase := phase,
       startTime := if oldPhase.Pending? && s.startTime.None? && at.Some? then at else s.startTime,
       completionTime := if !Terminal(oldPhase) && Terminal(phase) && at.Some? then at else s.completionTime)
  }

  /** One reply of the server, merged. A status without history and artifacts is
      filled from the reply; any other keeps what it has and appends. */
  function Update(s: Status, reply: Option<RemoteTask>, clock: Clock): Status {
    if reply.None? then s
    else
      var task := reply.value;
      var merged :=
        if s.history == [] && s.artifacts == [] then Populate(s, task)
        else Populate(s, task).(artifacts := MergeArtifacts(s.artifacts, ArtifactsWithParts(task.artifacts)),
                                history := MergeHistory(s.history, ReportedHistory(task)));
      SetTimestamps(merged, s.phase, task, clock)
  }

  function UpdateAll(s: Status, replies: seq<Option<RemoteTask>>, clock: Clock): Status
    decreases |replies|
  {
    if replies == [] then s else UpdateAll(Update(s, replies[0], clock), replies[1..], clock)
  }

  ghost predicate UniqueIds(history: seq<TaskMessage>) {
    forall i, j | 0 <= i < j < |history| && history[i].id != "" :: history[i].id != history[j].id
  }

  /** Over any sequence of replies history and artifacts only grow at their ends,
      and a start time once known stays. */
  lemma {:induction false} HistoryOnlyGrows(s: Status, replies: seq<Option<RemoteTask>>, clock: Clock)
    ensures var u := UpdateAll(s, replies, clock);
      && s.history <= u.history && s.artifacts <= u.artifacts
      && (s.startTime.Some? ==> u.startTime == s.startTime)
    decreases |replies|
  {
    if replies != [] {
      HistoryOnlyGrows(Update(s, replies[0], clock), replies[1..], clock);
    }
  }

  /** Merging takes a message exactly when its id is neither known nor met earlier
      in the reply, and keeps the reply's order. */
  lemma {:induction false} TakesFirstOfEachId(known: set<string>, incoming: seq<TaskMessage>, m: TaskMessage)
    ensures NewMessages(known, incoming + [m]) == NewMessages(known, incoming)
      + if m.id != "" && m.id !in known + MessageIds(incoming) then [m] else []
    decreases |incoming|
  {
    if incoming == [] {
      assert [] + [m] == [m] && [m][1..] == [];
    } else {
      var first, tail := incoming[0], incoming[1..];
      assert (incoming + [m])[1..] == tail + [m];
      assert [first] + tail == incoming;
      MessageIdsCons(first, tail);
      TakesFirstOfEachId(if first.id != "" then known + {first.id} else known, tail, m);
      TakesFirstOfEachId(known, tail, m);
    }
  }

  /** Of artifacts, all those with unknown ids are taken, even two with the same id. */
  lemma {:induction false} TakesEveryUnknownArtifact(known: set<string>, incoming: seq<Artifact>, a: Artifact)
    ensures NewArtifacts(known, incoming + [a]) == NewArtifacts(known, incoming) + if a.id !in known then [a] else []
  {
    if incoming == [] {
      assert [] + [a] == [a] && [a][1..] == [];
    } else {
      assert (incoming + [a])[1..] == incoming[1..] + [a];
      TakesEveryUnknownArtifact(known, incoming[1..], a);
      var first := if incoming[0].id !in known then [incoming[0]] else [];
      var last := if a.id !in known then [a] else [];
      assert first + (NewArtifacts(known, incoming[1..]) + last) == (first + NewArtifacts(known, incoming[1..])) + last;
    }
  }

  lemma {:induction false} NewMessagesAreNew(known: set<string>, incoming: seq<TaskMessage>)
    ensures var added := NewMessages(known, incoming);
      UniqueIds(added) && MessageIds(added) !! known && forall m | m in added :: m.id != ""
    decreases |incoming|
  {
    if incoming != [] {
      var m := incoming[0];
      if m.id != "" && m.id !in known {
        NewMessagesAreNew(known + {m.id}, incoming[1..]);
        var rest := NewMessages(known + {m.id}, incoming[1..]);
        var added := [m] + rest;
        forall i | 0 < i < |added| ensures added[i].id != m.id && added[i].id != "" && added[i].id !in known {
          assert added[i] == rest[i - 1] && rest[i - 1] in rest;
          assert rest[i - 1].id in MessageIds(rest);
        }
        forall i, j | 0 <= i < j < |added| ensures added[i].id != added[j].id {
          assert i > 0 ==> added[i] == rest[i - 1];
          assert added[j] == rest[j - 1] && rest[j - 1] in rest;
        }
      } else {
        NewMessagesAreNew(known, incoming[1..]);
      }
    }
  }

  lemma {:induction false} NewMessagesComplete(known: set<string>, incoming: seq<TaskMessage>)
    ensures known + MessageIds(NewMessages(known, incoming)) == known + MessageIds(incoming)
    decreases |incoming|
  {
    if incoming != [] {
      var m, tail := incoming[0], incoming[1..];
      MessageIdsCons(m, tail);
      assert [m] + tail == incoming;
      if m.id != "" && m.id !in known {
        NewMessagesComplete(known + {m.id}, tail);
        MessageIdsCons(m, NewMessages(known + {m.id}, tail));
        assert known + {m.id} + MessageIds(tail) == known + MessageIds(incoming);
      } else {
        NewMessagesComplete(known, tail);
      }
    }
  }

  lemma MessageIdsCons(m: TaskMessage, tail: seq<TaskMessage>)
    ensures MessageIds([m] + tail) == MessageIds(tail) + if m.id != "" then {m.id} else {}
  {
    MessageIdsAppend([m], tail);
    assert MessageIds([m]) == if m.id != "" then {m.id} else {} by {
      assert [m][0] == m;
    }
  }

  lemma MessageIdsAppend(a: seq<TaskMessage>, b: seq<TaskMessage>)
    ensures MessageIds(a + b) == MessageIds(a) + MessageIds(b)
  {
    forall x | x in MessageIds(a) + MessageIds(b) ensures x in MessageIds(a + b) {
      if x in MessageIds(a) {
        var i :| 0 <= i < |a| && a[i].id != "" && a[i].id == x;
        assert (a + b)[i].id == x;
      } else {
        var i :| 0 <= i < |b| && b[i].id != "" && b[i].id == x;
        assert (a + b)[|a| + i].id == x;
      }
    }
  }

  /** Merging keeps message ids unique and takes in every id the reply names. */
  lemma MergeKeepsUnique(existing: seq<TaskMessage>, incoming: seq<TaskMessage>)
    ensures UniqueIds(MergeHistory(existing, incoming)) <==> UniqueIds(existing)
    ensures MessageIds(MergeHistory(existing, incoming)) == MessageIds(existing) + MessageIds(incoming)
  {
    var added := NewMessages(MessageIds(existing), incoming);
    var merged := existing + added;
    NewMessagesAreNew(MessageIds(existing), incoming);
    NewMessagesComplete(MessageIds(existing), incoming);
    MessageIdsAppend(existing, added);
    if UniqueIds(existing) {
      forall i, j | 0 <= i < j < |merged| && merged[i].id != "" ensures merged[i].id != merged[j].id {
        if i < |existing| <= j {
          assert existing[i].id in MessageIds(existing);
          assert added[j - |existing|] in added && added[j - |existing|].id in MessageIds(added);
        }
      }
    }
    if UniqueIds(merged) {
      assert forall i | 0 <= i < |existing| :: merged[i] == existing[i];
    }
  }

  /** The message ids of a status are unique after a reply exactly when they were
      before, or, for a status that is still empty, when the reply's own are. */
  lemma UniqueAfterUpdate(s: Status, task: RemoteTask, clock: Clock)
    ensures UniqueIds(Update(s, Some(task), clock).history) <==>
            UniqueIds(if s.history == [] && s.artifacts == [] then ReportedHistory(task) else s.history)
  {
    if !(s.history == [] && s.artifacts == []) {
      MergeKeepsUnique(s.history, ReportedHistory(task));
    }
  }

  const HELLO := TaskMessage("m1", "agent", ["hello"])

  /** A first reply that repeats its last history message as status message
      leaves that message in the history twice. */
  lemma FirstReplyMayDuplicate(s: Status, clock: Clock)
    requires s.history == [] && s.artifacts == []
    ensures var task := RemoteTask("working", "c", [], [HELLO], Some(HELLO), "", map[]);
      !UniqueIds(Update(s, Some(task), clock).history)
  {
    var task := RemoteTask("working", "c", [], [HELLO], Some(HELLO), "", map[]);
    UniqueAfterUpdate(s, task, clock);
    assert MessagesWithParts([HELLO]) == [HELLO] + MessagesWithParts([]);
    assert ReportedHistory(task) == [HELLO, HELLO];
    assert ReportedHistory(task)[0].id == ReportedHistory(task)[1].id;
  }

  /** Of a reply exactly the messages with parts count, all of them and in order. */
  lemma {:induction false} PartsCount(history: seq<TaskMessage>, m: TaskMessage)
    ensures MessagesWithParts([]) == []
    ensures MessagesWithParts(history + [m]) == MessagesWithParts(history) + if m.parts != [] then [m] else []
  {
    if history == [] {
      assert [] + [m] == [m] && [m][1..] == [];
    } else {
      assert (history + [m])[1..] == history[1..] + [m];
      PartsCount(history[1..], m);
      var first, last := if history[0].parts != [] then [history[0]] else [], if m.parts != [] then [m] else [];
      assert first + (MessagesWithParts(history[1..]) + last) == (first + MessagesWithParts(history[1..])) + last;
    }
  }

  lemma {:induction false} ArtifactPartsCount(artifacts: seq<Artifact>, a: Artifact)
    ensures ArtifactsWithParts([]) == []
    ensures ArtifactsWithParts(artifacts + [a]) == ArtifactsWithParts(artifacts) + if a.parts != [] then [a] else []
  {
    if artifacts == [] {
      assert [] + [a] == [a] && [a][1..] == [];
    } else {
      assert (artifacts + [a])[1..] == artifacts[1..] + [a];
      ArtifactPartsCount(artifacts[1..], a);
      var first, last := if artifacts[0].parts != [] then [artifacts[0]] else [], if a.parts != [] then [a] else [];
      assert first + (ArtifactsWithParts(artifacts[1..]) + last) == (first + ArtifactsWithParts(artifacts[1..])) + last;
    }
  }

  lemma {:induction false} PartsStay(history: seq<TaskMessage>, m: TaskMessage)
    requires m in history && m.parts != []
    ensures m in MessagesWithParts(history)
  {
    if m != history[0] {
      PartsStay(history[1..], m);
    }
  }

  lemma {:induction false} ArtifactPartsStay(artifacts: seq<Artifact>, a: Artifact)
    requires a in artifacts && a.parts != []
    ensures a in ArtifactsWithParts(artifacts)
  {
    if a != artifacts[0] {
      ArtifactPartsStay(artifacts[1..], a);
    }
  }

  /** The messages a reply reports, with the status message behind the history. */
  predicate Reports(task: RemoteTask, m: TaskMessage) {
    m.parts != [] && (m in task.history || task.statusMessage == Some(m))
  }

  lemma ReportedAreReported(task: RemoteTask, m: TaskMessage)
    requires Reports(task, m)
    ensures m in ReportedHistory(task)
  {
    if m in task.history {
      PartsStay(task.history, m);
    }
  }

  /** Whatever a status held: after a reply the id of every reported message and of every
      artifact with parts is stored. */
  lemma NothingReportedIsLost(s: Status, task: RemoteTask, clock: Clock)
    ensures var u := Update(s, Some(task), clock);
      && (forall m | Reports(task, m) && m.id != "" :: m.id in MessageIds(u.history))
      && (forall a | a in task.artifacts && a.parts != [] :: a.id in ArtifactIds(u.artifacts))
  {
    var u, history, artifacts := Update(s, Some(task), clock), ReportedHistory(task), ArtifactsWithParts(task.artifacts);
    if !(s.history == [] && s.artifacts == []) {
      MergeKeepsUnique(s.history, history);
      MergedArtifactIds(s.artifacts, artifacts);
    }
    forall m | Reports(task, m) && m.id != "" ensures m.id in MessageIds(u.history) {
      ReportedAreReported(task, m);
      var i :| 0 <= i < |history| && history[i] == m;
      assert history[i].id in MessageIds(history);
    }
    forall a | a in task.artifacts && a.parts != [] ensures a.id in ArtifactIds(u.artifacts) {
      ArtifactPartsStay(task.artifacts, a);
      var i :| 0 <= i < |artifacts| && artifacts[i] == a;
      assert artifacts[i].id in ArtifactIds(artifacts);
    }
  }

  /** What a reply brings. A status without history and artifacts takes over the reply's;
      any other appends to what it has; the rest is the reply's, and each time is set at
      its moment only, when it can be read. */
  lemma UpdateTakesOver(s: Status, task: RemoteTask, clock: Clock)
    ensures var u := Update(s, Some(task), clock);
      && (s.history == [] && s.artifacts == [] ==>
            && u.artifacts == ArtifactsWithParts(task.artifacts)
            && u.history == MessagesWithParts(task.history)
                 + match task.statusMessage case Some(m) => (if m.parts != [] then [m] else []) case None => [])
      && s.history <= u.history && s.artifacts <= u.artifacts
      && u.protocolState == task.state && u.phase == ConvertState(task.state)
      && u.contextId == task.contextId && u.metadata == task.metadata
      && u.lastMessage == task.statusMessage && u.lastTimestamp == task.timestamp
      && u.error == s.error && u.completed == s.completed
      && u.startTime == (if s.phase == Pending && s.startTime == None && clock(task.timestamp) != None
                         then clock(task.timestamp) else s.startTime)
      && u.completionTime == (if !Terminal(s.phase) && Terminal(u.phase) && clock(task.timestamp) != None
                              then clock(task.timestamp) else s.completionTime)
  {
  }

  lemma {:induction false} NoNewArtifacts(known: set<string>, incoming: seq<Artifact>)
    requires ArtifactIds(incoming) <= known
    ensures NewArtifacts(known, incoming) == []
  {
    if incoming != [] {
      assert incoming[0].id in ArtifactIds(incoming);
      forall x | x in ArtifactIds(incoming[1..]) ensures x in known {
        var i :| 0 <= i < |incoming[1..]| && incoming[1..][i].id == x;
        assert incoming[i + 1].id in ArtifactIds(incoming);
      }
      NoNewArtifacts(known, incoming[1..]);
    }
  }

  lemma {:induction false} NoNewMessages(known: set<string>, incoming: seq<TaskMessage>)
    requires MessageIds(incoming) <= known
    ensures NewMessages(known, incoming) == []
  {
    if incoming != [] {
      assert incoming[0].id != "" ==> incoming[0].id in MessageIds(incoming);
      forall x | x in MessageIds(incoming[1..]) ensures x in known {
        var i :| 0 <= i < |incoming[1..]| && incoming[1..][i].id != "" && incoming[1..][i].id == x;
        assert incoming[i + 1].id in MessageIds(incoming);
      }
      NoNewMessages(known, incoming[1..]);
    }
  }

  lemma {:induction false} MergedArtifactIds(existing: seq<Artifact>, incoming: seq<Artifact>)
    ensures ArtifactIds(incoming) <= ArtifactIds(MergeArtifacts(existing, incoming))
  {
    var known := ArtifactIds(existing);
    var added := NewArtifacts(known, incoming);
    NewArtifactsComplete(known, incoming);
    var merged := existing + added;
    forall x | x in ArtifactIds(incoming) ensures x in ArtifactIds(merged) {
      if x in known {
        var i :| 0 <= i < |existing| && existing[i].id == x;
        assert merged[i].id == x;
      } else {
        assert x in ArtifactIds(incoming) - known;
        assert x in ArtifactIds(added);
        var i :| 0 <= i < |added| && added[i].id == x;
        assert merged[|existing| + i].id == x;
      }
    }
  }

  lemma {:induction false} NewArtifactsComplete(known: set<string>, incoming: seq<Artifact>)
    ensures ArtifactIds(incoming) - known <= ArtifactIds(NewArtifacts(known, incoming))
  {
    if incoming != [] {
      NewArtifactsComplete(known, incoming[1..]);
      var rest, all := NewArtifacts(known, incoming[1..]), NewArtifacts(known, incoming);
      forall x | x in ArtifactIds(incoming) - known ensures x in ArtifactIds(all) {
        var i :| 0 <= i < |incoming| && incoming[i].id == x;
        if i == 0 {
          assert all[0].id == x;
        } else {
          assert incoming[1..][i - 1].id == x;
          assert x in ArtifactIds(incoming[1..]) - known;
          assert x in ArtifactIds(rest);
          var j :| 0 <= j < |rest| && rest[j].id == x;
          assert all[|all| - |rest| + j] == rest[j];
        }
      }
    }
  }

  /** The same reply a second time changes nothing in the whole status. */
  lemma UpdateIdempotent(s: Status, reply: Option<RemoteTask>, clock: Clock)
    ensures var u := Update(s, reply, clock); Update(u, reply, clock) == u
  {
    if reply.Some? {
      ListsSettle(s, reply, clock);
    }
  }

  lemma ListsSettle(s: Status, reply: Option<RemoteTask>, clock: Clock)
    requires reply.Some?
    ensures var u := Update(s, reply, clock); var again := Update(u, reply, clock);
      again.artifacts == u.artifacts && again.history == u.history
  {
    var artifacts, history := ArtifactsWithParts(reply.value.artifacts), ReportedHistory(reply.value);
    if s.history == [] && s.artifacts == [] {
      NoNewArtifacts(ArtifactIds(artifacts), artifacts);
      NoNewMessages(MessageIds(history), history);
    } else {
      MergedAgain(s.artifacts, artifacts);
      HistoryMergedAgain(s.history, history);
    }
  }

  /** A reply to a running task leaves the Completed condition alone, and brings a
      completion time only together with a terminal phase. */
  lemma UpdateKeepsCondition(s: Status, reply: Option<RemoteTask>, clock: Clock)
    requires !Terminal(s.phase)
    ensures var u := Update(s, reply, clock);
      u.completed == s.completed && (u.completionTime.Some? ==> Terminal(u.phase) || s.completionTime.Some?)
  {
  }

  /** What the poller compares to decide whether a status is worth writing. */
  datatype Snapshot = Snapshot(phase: Phase, protocolState: string, error: string,
                               artifacts: nat, history: nat)

  function TakeSnapshot(s: Status): Snapshot {
    Snapshot(s.phase, s.protocolState, s.error, |s.artifacts|, |s.history|)
  }

  /** When snapshots before and after a reply agree, what is not written loses no
      message, no artifact, no phase and no time: only the fields that echo the
      last reply may differ. */
  lemma EqualSnapshotsLoseNothing(s: Status, reply: Option<RemoteTask>, clock: Clock)
    requires TakeSnapshot(Update(s, reply, clock)) == TakeSnapshot(s)
    ensures var u := Update(s, reply, clock);
      && u == s.(contextId := u.contextId, metadata := u.metadata,
                 lastMessage := u.lastMessage, lastTimestamp := u.lastTimestamp)
  {
    HistoryOnlyGrows(s, [reply], clock);
    assert UpdateAll(Update(s, reply, clock), [], clock) == Update(s, reply, clock);
    var u := Update(s, reply, clock);
    assert UpdateAll(s, [reply], clock) == u;
    assert s.history == u.history[..|s.history|] && s.artifacts == u.artifacts[..|s.artifacts|];
  }

  /** A message decoded over another one: an absent id leaves the id that was there. */
  function RefreshedMessage(stored: Option<TaskMessage>, working: Option<TaskMessage>): Option<TaskMessage> {
    if stored.None? then working
    else if working.Some? && stored.value.id == "" then Some(stored.value.(id := working.value.id))
    else stored
  }

  /** A status in memory after the stored one has been decoded over it. Empty fields
      are not sent, so what they held in memory stays; maps are united. */
  function Refreshed(stored: Status, working: Status): Status {
    Status(
      phase := if stored.phase.Unset? then working.phase else stored.phase,
      protocolState := if stored.protocolState == "" then working.protocolState else stored.protocolState,
      contextId := if stored.contextId == "" then working.contextId else stored.contextId,
      artifacts := if stored.artifacts == [] then working.artifacts else stored.artifacts,
      history := if stored.history == [] then working.history else stored.history,
      metadata := working.metadata + stored.metadata,
      lastMessage := RefreshedMessage(stored.lastMessage, working.lastMessage),
      lastTimestamp := if stored.lastTimestamp == "" then working.lastTimestamp else stored.lastTimestamp,
      error := if stored.error == "" then working.error else stored.error,
      startTime := if stored.startTime.None? then working.startTime else stored.startTime,
      completionTime := if stored.completionTime.None? then working.completionTime else stored.completionTime,
      completed := if stored.completed.None? then working.completed else stored.completed)
  }

  const BLANK := Status(Unset, "", "", [], [], map[], None, "", "", None, None, None)

  /** A blank stored status leaves the one in memory as it is; of one that lacks nothing
      everything is taken, and its metadata win. */
  lemma RefreshedExtremes(stored: Status, working: Status)
    ensures Refreshed(BLANK, working) == working
    ensures
      && stored.phase != Unset && stored.protocolState != "" && stored.contextId != "" && stored.lastTimestamp != ""
      && stored.artifacts != [] && stored.history != [] && stored.error != ""
      && stored.lastMessage.Some? && stored.lastMessage.value.id != ""
      && stored.startTime.Some? && stored.completionTime.Some? && stored.completed.Some?
      ==> Refreshed(stored, working) == stored.(metadata := working.metadata + stored.metadata)
  {
    assert working.metadata + map[] == working.metadata;
  }

  lemma RefreshedSame(s: Status)
    ensures Refreshed(s, s) == s
  {
    assert s.metadata + s.metadata == s.metadata;
  }

  /** The same reply merged again after a refresh brings the status to where the
      first merge had brought it. */
  lemma UpdateAfterRefresh(s: Status, merged: Status, reply: Option<RemoteTask>, clock: Clock)
    requires !s.phase.Unset? && merged == Update(s, reply, clock).(completed := merged.completed)
    requires reply.Some?
    ensures Update(Refreshed(s, merged), reply, clock) == merged.(completed := Refreshed(s, merged).completed)
  {
    var task, r, again := reply.value, Refreshed(s, merged), Update(Refreshed(s, merged), reply, clock);
    ListsAfterRefresh(s, merged, reply, clock);
    assert r.phase == s.phase && r.completed == again.completed && r.error == again.error == s.error;
    assert again.startTime == merged.startTime && again.completionTime == merged.completionTime;
  }

  lemma ListsAfterRefresh(s: Status, merged: Status, reply: Option<RemoteTask>, clock: Clock)
    requires reply.Some? && merged == Update(s, reply, clock).(completed := merged.completed)
    ensures var again := Update(Refreshed(s, merged), reply, clock);
      again.artifacts == merged.artifacts && again.history == merged.history
  {
    var artifacts, history := ArtifactsWithParts(reply.value.artifacts), ReportedHistory(reply.value);
    if s.history == [] && s.artifacts == [] {
      NoNewArtifacts(ArtifactIds(artifacts), artifacts);
      NoNewMessages(MessageIds(history), history);
    } else {
      MergedAgain(s.artifacts, artifacts);
      HistoryMergedAgain(s.history, history);
    }
  }

  lemma MergedAgain(existing: seq<Artifact>, incoming: seq<Artifact>)
    ensures MergeArtifacts(MergeArtifacts(existing, incoming), incoming) == MergeArtifacts(existing, incoming)
  {
    MergedArtifactIds(existing, incoming);
    NoNewArtifacts(ArtifactIds(MergeArtifacts(existing, incoming)), incoming);
  }

  lemma HistoryMergedAgain(existing: seq<TaskMessage>, incoming: seq<TaskMessage>)
    ensures MergeHistory(MergeHistory(existing, incoming), incoming) == MergeHistory(existing, incoming)
  {
    MergeKeepsUnique(existing, incoming);
    NoNewMessages(MessageIds(MergeHistory(existing, incoming)), incoming);
  }
}
