/** The reconciler as it works: on a task object whose status it updates in place,
    written back to the store when the write succeeds. */
module TaskReconciler {
  import opened Messages
  import opened TaskStatus
  import opened TaskController

  /** The working copy of a task during one reconcile. */
  class A2ATask {
    const spec: Spec
    var status: Status
    var note: Note

    constructor (t: Task)
      ensures spec == t.spec && status == t.status && note == t.note
    {
      spec, status, note := t.spec, t.status, t.note;
    }

    method MergeArtifactsInto(incoming: seq<Artifact>)
      modifies this`status
      ensures status == old(status).(artifacts := MergeArtifacts(old(status.artifacts), incoming))
    {
      var existingIds := {};
      for i := 0 to |status.artifacts|
        invariant status == old(status)
        invariant existingIds == ArtifactIds(status.artifacts[..i])
      {
        assert status.artifacts[..i + 1] == status.artifacts[..i] + [status.artifacts[i]];
        existingIds := existingIds + {status.artifacts[i].id};
      }
      assert status.artifacts[..|status.artifacts|] == status.artifacts;
      for i := 0 to |incoming|
        invariant status == old(status).(artifacts := status.artifacts)
        invariant status.artifacts + NewArtifacts(existingIds, incoming[i..])
                  == MergeArtifacts(old(status.artifacts), incoming)
      {
        if incoming[i].id !in existingIds {
          status := status.(artifacts := status.artifacts + [incoming[i]]);
        }
      }
    }

    method MergeHistoryInto(incoming: seq<TaskMessage>)
      modifies this`status
      ensures status == old(status).(history := MergeHistory(old(status.history), incoming))
    {
      if |incoming| == 0 {
        return;
      }
      var existingIds := {};
      for i := 0 to |status.history|
        invariant status == old(status)
        invariant existingIds == MessageIds(status.history[..i])
      {
        assert status.history[..i + 1] == status.history[..i] + [status.history[i]];
        if status.history[i].id != "" {
          existingIds := existingIds + {status.history[i].id};
        }
      }
      assert status.history[..|status.history|] == status.history;
      for i := 0 to |incoming|
        invariant status == old(status).(history := status.history)
        invariant status.history + NewMessages(existingIds, incoming[i..])
                  == MergeHistory(old(status.history), incoming)
      {
        if incoming[i].id != "" && incoming[i].id !in existingIds {
          status := status.(history := status.history + [incoming[i]]);
          existingIds := existingIds + {incoming[i].id};
        }
      }
    }

    method SetTaskTimestamps(oldPhase: Phase, task: RemoteTask, clock: Clock)
      modifies this`status
      ensures status == SetTimestamps(old(status), oldPhase, task, clock)
    {
      var newPhase := ConvertState(task.state);
      status := status.(phase := newPhase);
      if oldPhase.Pending? && status.startTime.None? {
        var at := clock(task.timestamp);
        if at.Some? {
          status := status.(startTime := at);
        }
      }
      if !Terminal(oldPhase) && Terminal(newPhase) {
        var at := clock(task.timestamp);
        if at.Some? {
          status := status.(completionTime := at);
        }
      }
    }

    method UpdateStatus(reply: Option<RemoteTask>, clock: Clock)
      modifies this`status
      ensures status == Update(old(status), reply, clock)
    {
      if reply.None? {
        return;
      }
      var task, oldPhase := reply.value, status.phase;
      if |status.history| == 0 && |status.artifacts| == 0 {
        status := Populate(status, task);
        SetTaskTimestamps(oldPhase, task, clock);
        return;
      }
      var newData := Populate(status, task);
      MergeArtifactsInto(newData.artifacts);
      MergeHistoryInto(newData.history);
      status := status.(protocolState := newData.protocolState, metadata := newData.metadata,
                        contextId := newData.contextId, lastMessage := newData.lastMessage,
                        lastTimestamp := newData.lastTimestamp);
      SetTaskTimestamps(oldPhase, task, clock);
    }

    method CheckApprovalTimeout(fmt: Formats, now: int) returns (timedOut: bool)
      modifies this`status
      ensures var check := ApprovalTimeout(fmt, old(status), now);
        && timedOut == check.Expired?
        && status == if timedOut then check.status else old(status)
    {
      var timeout, onTimeout := Lookup(status.metadata, "timeout"), Lookup(status.metadata, "onTimeout");
      if timeout == "" {
        return false;
      }
      var limit := fmt.duration(timeout);
      if limit.None? || status.startTime.None? || now < status.startTime.value + limit.value {
        return false;
      }
      if onTimeout == "proceed" {
        status := status.(phase := Completed);
        status := status.(completionTime := Some(now));
        SetConditionCompleted(true, ApprovalTimeoutProceeded);
      } else if onTimeout == "reject" || onTimeout == "" {
        status := status.(phase := Failed);
        status := status.(error := "Approval timeout exceeded");
        status := status.(completionTime := Some(now));
        SetConditionCompleted(true, ApprovalTimeoutRejected);
      } else {
        return false;
      }
      timedOut := true;
    }

    method SetConditionCompleted(isTrue: bool, reason: Reason)
      modifies this`status
      ensures status == SetCompleted(old(status), isTrue, reason)
    {
      status := status.(completed := Some(Condition(isTrue, reason)));
    }

    method ProcessApprovalDecision(fmt: Formats, now: int) returns (handled: bool)
      modifies this`status
      ensures var decided := ApprovalDecision(fmt, old(status), spec.input, now);
        && handled == decided.Some?
        && status == if handled then decided.value else old(status)
    {
      var decision := fmt.decision(spec.input);
      if decision.None? {
        status := status.(completionTime := Some(now), phase := Failed, error := "Invalid approval decision format");
        SetConditionCompleted(false, InvalidApprovalDecision);
        return true;
      }
      if decision.value == "" {
        return false;
      }
      status := status.(completionTime := Some(now));
      if decision.value == "approved" {
        status := status.(phase := Completed);
        SetConditionCompleted(true, ApprovalGranted);
      } else if decision.value == "rejected" {
        status := status.(phase := Failed, error := "Tool execution rejected by user");
        SetConditionCompleted(true, ApprovalRejected);
      } else {
        status := status.(phase := Failed, error := "Invalid decision value");
        SetConditionCompleted(false, InvalidApprovalDecision);
      }
      handled := true;
    }

    method UpdateConditionsAndEvents(oldPhase: Phase)
      modifies this`status
      ensures status == UpdateConditions(old(status), oldPhase)
    {
      if status.phase == oldPhase {
        return;
      }
      match status.phase
      case Pending | Assigned => SetConditionCompleted(false, TaskPending);
      case Running => SetConditionCompleted(false, TaskRunning);
      case Completed => SetConditionCompleted(true, TaskSucceeded);
      case Failed => SetConditionCompleted(true, TaskFailed);
      case Cancelled => SetConditionCompleted(true, TaskCancelled);
      case _ =>
    }

    method FetchStatus(fmt: Formats, poll: Poll) returns (ok: bool)
      modifies this`status
      ensures ok <==> !(spec.hasServer && poll.PollFailed?)
      ensures status == if spec.hasServer && poll.PollReplied? then Fetched(fmt, spec, old(status), poll.reply)
                        else old(status)
    {
      if !spec.hasServer {
        return true;
      }
      if poll.PollFailed? {
        return false;
      }
      var oldPhase := status.phase;
      UpdateStatus(poll.reply, fmt.clock);
      UpdateConditionsAndEvents(oldPhase);
      ok := true;
    }
  }

  /** The stored object; reading and writing it are atomic. */
  class Store {
    var task: Option<Task>

    constructor (t: Option<Task>)
      ensures task == t
    {
      task := t;
    }

    method WriteStatus(status: Status, env: Env) returns (ok: bool)
      requires task.Some?
      modifies this
      ensures ok == env.statusWriteOk
      ensures task == Some(if ok then old(task).value.(status := status) else old(task).value)
    {
      ok := env.statusWriteOk;
      if ok {
        task := Some(task.value.(status := status));
      }
    }

    /** Writes the object without its status. The answer carries the stored status and
        is decoded over the working copy. */
    method WriteObject(a2aTask: A2ATask, env: Env) returns (ok: bool)
      requires task.Some? && a2aTask.spec == task.value.spec
      modifies this, a2aTask`status
      ensures ok == env.noteWriteOk
      ensures var before := old(task).value;
        && task == Some(if ok then before.(note := a2aTask.note) else before)
        && a2aTask.status == if ok then Refreshed(before.status, old(a2aTask.status)) else old(a2aTask.status)
    {
      ok := env.noteWriteOk;
      if ok {
        task := Some(task.value.(note := a2aTask.note));
        a2aTask.status := Refreshed(task.value.status, a2aTask.status);
      }
    }
  }

  method PollTaskStatus(store: Store, fmt: Formats, a2aTask: A2ATask, env: Env) returns (requeue: Option<int>)
    requires store.task.Some? && a2aTask.spec == store.task.value.spec && a2aTask.note == store.task.value.note
    modifies store, a2aTask
    ensures Reconciled(store.task, requeue) == PollTask(fmt, old(store.task).value, old(a2aTask.status), env)
  {
    var failureCount := Failures(a2aTask.note);
    var before := TakeSnapshot(a2aTask.status);
    var ok := a2aTask.FetchStatus(fmt, env.poll);
    if !ok {
      failureCount := failureCount + 1;
      a2aTask.note := Count(failureCount);
      var _ := store.WriteObject(a2aTask, env);
      return Some(PollBackoff(failureCount, PollInterval(a2aTask.spec), env.poll.rateLimited));
    }
    if failureCount > 0 {
      a2aTask.note := Count(0);
      var _ := store.WriteObject(a2aTask, env);
    }
    if TakeSnapshot(a2aTask.status) != before {
      var written := store.WriteStatus(a2aTask.status, env);
      if !written {
        return None;
      }
    }
    requeue := if Terminal(a2aTask.status.phase) then None else Some(PollInterval(a2aTask.spec));
  }

  method ReconcileStored(store: Store, fmt: Formats, env: Env) returns (requeue: Option<int>)
    requires store.task.Some?
    modifies store
    ensures Reconciled(store.task, requeue) == Reconcile(fmt, old(store.task).value, env)
  {
    var stored := store.task.value;
    var ttl := if stored.spec.ttl.Some? then stored.spec.ttl.value else DEFAULT_TASK_TTL;
    if env.now >= stored.spec.created + ttl {
      if env.deleteOk {
        store.task := None;
      }
      return None;
    }
    var a2aTask := new A2ATask(stored);
    if a2aTask.status.phase.Unset? {
      a2aTask.status := a2aTask.status.(phase := Pending);
    }
    if a2aTask.status.completed.None? {
      a2aTask.SetConditionCompleted(false, TaskNotStarted);
      var _ := store.WriteStatus(a2aTask.status, env);
      return None;
    }
    if Terminal(a2aTask.status.phase) {
      return None;
    }
    if a2aTask.status.phase.InputRequired? {
      var timedOut := a2aTask.CheckApprovalTimeout(fmt, env.now);
      if timedOut {
        var _ := store.WriteStatus(a2aTask.status, env);
        return None;
      }
      if !a2aTask.spec.hasServer && a2aTask.spec.input != "" {
        var handled := a2aTask.ProcessApprovalDecision(fmt, env.now);
        if handled {
          var _ := store.WriteStatus(a2aTask.status, env);
          return None;
        }
      }
    }
    if TaskTimedOut(stored, env.now) {
      a2aTask.status := a2aTask.status.(phase := Failed, error := "Task polling timeout");
      a2aTask.SetConditionCompleted(true, TaskTimeout);
      a2aTask.status := a2aTask.status.(completionTime := Some(env.now));
      var _ := store.WriteStatus(a2aTask.status, env);
      return None;
    }
    requeue := PollTaskStatus(store, fmt, a2aTask, env);
  }
}
