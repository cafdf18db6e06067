/** What a successful poll stores. The write that resets the failure count refreshes the
    status in memory before it is compared and written, so the first success after a
    failure can lose what it fetched; the next one stores it. */
module PollRefresh {
  import opened Messages
  import opened TaskStatus
  import opened TaskController

  /** The two differ at most in the fields that echo the last reply. */
  predicate SameNews(s: Status, u: Status) {
    s == u.(contextId := s.contextId, metadata := s.metadata,
            lastMessage := s.lastMessage, lastTimestamp := s.lastTimestamp)
  }

  /** A refresh hides nothing of what was fetched: whatever the reply changed has no
      value in the stored status. */
  predicate Unshadowed(stored: Status, fetched: Status) {
    && stored.phase == fetched.phase
    && (stored.protocolState == "" || stored.protocolState == fetched.protocolState)
    && (stored.artifacts == [] || stored.artifacts == fetched.artifacts)
    && (stored.history == [] || stored.history == fetched.history)
  }

  /** What the poll of a running task fetches. */
  function News(fmt: Formats, t: Task, env: Env): Status {
    Fetched(fmt, t.spec, t.status, if env.poll.PollReplied? then env.poll.reply else None)
  }

  predicate Succeeds(fmt: Formats, t: Task, env: Env) {
    Polls(fmt, t, env) && ConditionConsistent(t.status) && env.poll.PollReplied?
  }

  /** A successful poll whose write succeeds stores everything the reply brought
      exactly when it does not reset a failure count, or the refresh hides nothing. */
  lemma PollStoresWhatItFetched(fmt: Formats, t: Task, env: Env)
    requires Succeeds(fmt, t, env) && env.statusWriteOk
    ensures var u := Reconcile(fmt, t, env).stored;
      u.Some? && (SameNews(u.value.status, News(fmt, t, env))
                  <==> !Resets(t, env) || Unshadowed(t.status, News(fmt, t, env)))
  {
    var fetched := News(fmt, t, env);
    FetchedKeeps(fmt, t, env.poll.reply);
    if !Resets(t, env) {
      if env.poll.reply.Some? && TakeSnapshot(fetched) == TakeSnapshot(t.status) {
        EqualSnapshotsLoseNothing(t.status, env.poll.reply, fmt.clock);
      }
    } else {
      RefreshedNews(t.status, fetched);
      RefreshShows(t.status, fetched);
    }
  }

  /** The fields that change only together with the phase. */
  lemma FetchedKeeps(fmt: Formats, t: Task, reply: Option<RemoteTask>)
    requires !Terminal(t.status.phase) && !t.status.phase.Unset?
    ensures var u := Fetched(fmt, t.spec, t.status, reply);
      && u.error == t.status.error
      && (u.phase == t.status.phase ==>
            && u.completed == t.status.completed
            && u.startTime == t.status.startTime && u.completionTime == t.status.completionTime)
  {
  }

  lemma RefreshShows(s: Status, fetched: Status)
    requires !s.phase.Unset? && s.completed.Some? && fetched.error == s.error
    requires fetched.phase == s.phase ==>
      fetched.completed == s.completed && fetched.startTime == s.startTime && fetched.completionTime == s.completionTime
    ensures SameNews(Refreshed(s, fetched), fetched) <==> Unshadowed(s, fetched)
    ensures !PassesRefresh(s, fetched) ==> (SameNews(s, fetched) <==> Unshadowed(s, fetched))
  {
  }

  /** A poll that loses news leaves the task to be polled again, and the next success
      with the same reply stores what the first would have stored. */
  lemma NextPollStoresTheNews(fmt: Formats, t: Task, first: Env, second: Env)
    requires Succeeds(fmt, t, first) && Resets(t, first)
    requires second.poll == first.poll && second.statusWriteOk
    ensures var u := Reconcile(fmt, t, first);
      && u.stored.Some? && u.stored.value.note == Count(0)
      && (first.statusWriteOk ==> u.requeue == Some(PollInterval(t.spec)))
      && (Polls(fmt, u.stored.value, second) ==>
            var v := Reconcile(fmt, u.stored.value, second).stored;
            v.Some? && SameNews(v.value.status, News(fmt, t, first)))
  {
    var u := Reconcile(fmt, t, first);
    var s, fetched, reply := t.status, News(fmt, t, first), first.poll.reply;
    FetchedKeeps(fmt, t, reply);
    RefreshedConsistent(s, fetched);
    var stored := u.stored.value;
    assert stored.status == s || stored.status == Refreshed(s, fetched);
    if Polls(fmt, stored, second) {
      PollConsistent(fmt, t, first);
      PollStoresWhatItFetched(fmt, stored, second);
      FetchedAgain(fmt, t, reply);
      assert News(fmt, stored, second) == fetched;
    }
  }

  lemma FetchedAgain(fmt: Formats, t: Task, reply: Option<RemoteTask>)
    requires t.spec.hasServer && ConditionConsistent(t.status) && t.status.completed.Some?
    ensures var fetched := Fetched(fmt, t.spec, t.status, reply);
      Fetched(fmt, t.spec, Refreshed(t.status, fetched), reply) == fetched
  {
    var s, fetched := t.status, Fetched(fmt, t.spec, t.status, reply);
    if reply.Some? {
      UpdateAfterRefresh(s, fetched, reply, fmt.clock);
      SameConditions(Update(s, reply, fmt.clock), Update(Refreshed(s, fetched), reply, fmt.clock), s.phase);
    } else {
      RefreshedSame(s);
    }
  }

  lemma SameConditions(u: Status, v: Status, oldPhase: Phase)
    requires v.(completed := u.completed) == u && v.completed == u.completed
    ensures UpdateConditions(u, oldPhase) == UpdateConditions(v, oldPhase)
  {
  }

  /** A running task with one failed poll behind it. */
  function FailedOnce(now: int): Task {
    Task(Spec(true, "c", "", now, None, None, None),
         Status(Running, "working", "c", [], [], map[], None, "", "", Some(now), None, Some(Condition(false, TaskRunning))),
         Count(1))
  }

  function Finished(artifacts: seq<Artifact>, timestamp: string): RemoteTask {
    RemoteTask("completed", "c", artifacts, [], None, timestamp, map[])
  }

  function Answer(now: int, task: RemoteTask): Env {
    Env(now, PollReplied(Some(task)), true, true, true)
  }

  /** The first success after a failure reports the task as completed, all writes
      succeed, and the stored status is unchanged. */
  lemma CompletionLost(fmt: Formats, now: int)
    ensures var t, env := FailedOnce(now), Answer(now, Finished([], ""));
      && Succeeds(fmt, t, env) && News(fmt, t, env).phase.Completed?
      && Reconcile(fmt, t, env).stored == Some(t.(note := Count(0)))
  {
    var t, env := FailedOnce(now), Answer(now, Finished([], ""));
    RefreshedNews(t.status, News(fmt, t, env));
    assert ArtifactsWithParts([]) == [] && MessagesWithParts([]) == [];
  }

  const RESULT := Artifact("a", "", ["text"])

  /** With a first artifact in the same reply the artifact and the completion time are
      stored beside the old phase: a running task with a completion time. */
  lemma CompletionMixed(fmt: Formats, now: int, timestamp: string)
    requires fmt.clock(timestamp).Some?
    ensures var t, env := FailedOnce(now), Answer(now, Finished([RESULT], timestamp));
      var u := Reconcile(fmt, t, env).stored;
      && Mixes(fmt, t, env)
      && u.Some? && u.value.status.phase.Running? && u.value.status.completionTime.Some?
      && u.value.status.artifacts == [RESULT]
  {
    var t, env := FailedOnce(now), Answer(now, Finished([RESULT], timestamp));
    assert ArtifactsWithParts([RESULT]) == [RESULT] + ArtifactsWithParts([]);
    assert Update(t.status, env.poll.reply, fmt.clock).artifacts == [RESULT];
    ReconcileConsistent(fmt, t, env);
  }
}
