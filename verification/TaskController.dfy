/** The task controller as a transition on the stored task. The clock, the poll
    replies, the user's input and the success of every write are arbitrary. */
module TaskController {
  import opened Messages
  import opened TaskStatus
  import Int64

  const DEFAULT_POLL_INTERVAL := 5_000_000_000        // nanoseconds, like every duration here
  const DEFAULT_TASK_TIMEOUT := 43_200_000_000_000
  const DEFAULT_TASK_TTL := 2_592_000_000_000_000
  const MAX_POLL_BACKOFF := 300_000_000_000
  const RATE_LIMIT_FLOOR := 30_000_000_000
  const MAX_BACKOFF_EXPONENT := 16

  /** A task without a server is an approval task. */
  datatype Spec = Spec(hasServer: bool, contextId: string, input: string, created: int,
                       timeout: Option<int>, ttl: Option<int>, pollInterval: Option<int>)

  /** The failure-count annotation: absent, not a number, or a number. */
  datatype Note = Absent | Unreadable | Count(n: int)

  datatype Task = Task(spec: Spec, status: Status, note: Note)

  /** The readers of durations, timestamps and decisions; None for malformed
      text. A decision object without the field reads as "". */
  datatype Formats = Formats(duration: string -> Option<int>, clock: Clock, decision: string -> Option<string>)

  datatype Poll = PollFailed(rateLimited: bool) | PollReplied(reply: Option<RemoteTask>)

  datatype Env = Env(now: int, poll: Poll, statusWriteOk: bool, noteWriteOk: bool, deleteOk: bool)

  /** What is stored afterwards (None once deleted), and the requeue delay if there is one. */
  datatype Reconciled = Reconciled(stored: Option<Task>, requeue: Option<int>)

  function SetCompleted(s: Status, isTrue: bool, reason: Reason): Status {
    s.(completed := Some(Condition(isTrue, reason)))
  }

  function Lookup(m: map<string, string>, key: string): string {
    if key in m then m[key] else ""
  }

  datatype TimeoutCheck = NotDue | Malformed | Expired(status: Status)

  function ApprovalTimeout(fmt: Formats, s: Status, now: int): TimeoutCheck {
    var timeout, onTimeout := Lookup(s.metadata, "timeout"), Lookup(s.metadata, "onTimeout");
    if timeout == "" then NotDue
    else
      var limit := fmt.duration(timeout);
      if limit.None? then Malformed
      else if s.startTime.None? || now < s.startTime.value + limit.value then NotDue
      else if onTimeout == "proceed" then
        Expired(SetCompleted(s.(phase := Completed, completionTime := Some(now)), true, ApprovalTimeoutProceeded))
      else if onTimeout == "reject" || onTimeout == "" then
        Expired(SetCompleted(s.(phase := Failed, error := "Approval timeout exceeded", completionTime := Some(now)),
                             true, ApprovalTimeoutRejected))
      else Malformed
  }

  /** The user's decision, if the input holds one. Input that cannot be read, or
      that names no known decision, fails the task. */
  function ApprovalDecision(fmt: Formats, s: Status, input: string, now: int): Option<Status> {
    var decision := fmt.decision(input);
    var ended := s.(completionTime := Some(now));
    match decision
    case None =>
      Some(SetCompleted(ended.(phase := Failed, error := "Invalid approval decision format"),
                        false, InvalidApprovalDecision))
    case Some(d) =>
      if d == "" then None
      else if d == "approved" then Some(SetCompleted(ended.(phase := Completed), true, ApprovalGranted))
      else if d == "rejected" then
        Some(SetCompleted(ended.(phase := Failed, error := "Tool execution rejected by user"), true, ApprovalRejected))
      else
        Some(SetCompleted(ended.(phase := Failed, error := "Invalid decision value"), false, InvalidApprovalDecision))
  }

  function UpdateConditions(s: Status, oldPhase: Phase): Status {
    if s.phase == oldPhase then s
    else match s.phase
      case Pending | Assigned => SetCompleted(s, false, TaskPending)
      case Running => SetCompleted(s, false, TaskRunning)
      case Completed => SetCompleted(s, true, TaskSucceeded)
      case Failed => SetCompleted(s, true, TaskFailed)
      case Cancelled => SetCompleted(s, true, TaskCancelled)
      case _ => s
  }

  function Power2(n: nat): (p: nat)
    ensures p >= 1
  {
    if n == 0 then 1 else 2 * Power2(n - 1)
  }

  function Exponent(failures: int): (e: nat)
    ensures e <= MAX_BACKOFF_EXPONENT
  {
    if failures < 0 then 0 else if failures > MAX_BACKOFF_EXPONENT then MAX_BACKOFF_EXPONENT else failures
  }

  function PollBackoff(failures: int, base: int, rateLimited: bool): int {
    var b := if base <= 0 then DEFAULT_POLL_INTERVAL else base;
    var raw := Int64.Wrap(b * Power2(Exponent(failures)));
    var capped := if raw <= 0 || raw > MAX_POLL_BACKOFF then MAX_POLL_BACKOFF else raw;
    if rateLimited && capped < RATE_LIMIT_FLOOR then RATE_LIMIT_FLOOR else capped
  }

  function Failures(note: Note): int {
    if note.Count? then note.n else 0
  }

  function PollInterval(spec: Spec): int {
    if spec.pollInterval.Some? then spec.pollInterval.value else DEFAULT_POLL_INTERVAL
  }

  /** The status in memory after a successful fetch. */
  function Fetched(fmt: Formats, spec: Spec, s: Status, reply: Option<RemoteTask>): Status {
    if spec.hasServer then UpdateConditions(Update(s, reply, fmt.clock), s.phase) else s
  }

  /** `t` is the task as stored, `s` its status in memory. Resetting the failure count
      writes the object without its status, and the answer to that write refreshes the
      status in memory from the stored one. */
  function PollTask(fmt: Formats, t: Task, s: Status, env: Env): Reconciled {
    var failures := Failures(t.note);
    if t.spec.hasServer && env.poll.PollFailed? then
      var note := if env.noteWriteOk then Count(failures + 1) else t.note;
      Reconciled(Some(t.(note := note)), Some(PollBackoff(failures + 1, PollInterval(t.spec), env.poll.rateLimited)))
    else
      var fetched := Fetched(fmt, t.spec, s, if env.poll.PollReplied? then env.poll.reply else None);
      var reset := failures > 0 && env.noteWriteOk;
      var note := if reset then Count(0) else t.note;
      var working := if reset then Refreshed(t.status, fetched) else fetched;
      var changed := TakeSnapshot(working) != TakeSnapshot(s);
      if changed && !env.statusWriteOk then Reconciled(Some(t.(note := note)), None)
      else
        Reconciled(Some(t.(note := note, status := if changed then working else t.status)),
                   if Terminal(working.phase) then None else Some(PollInterval(t.spec)))
  }

  function Written(t: Task, s: Status, env: Env): Reconciled {
    Reconciled(Some(if env.statusWriteOk then t.(status := s) else t), None)
  }

  function TaskTimedOut(t: Task, now: int): bool {
    t.spec.hasServer
    && now >= t.spec.created + if t.spec.timeout.Some? then t.spec.timeout.value else DEFAULT_TASK_TIMEOUT
  }

  /** The task has not outlived its time to live. */
  predicate Alive(t: Task, now: int) {
    now < t.spec.created + if t.spec.ttl.Some? then t.spec.ttl.value else DEFAULT_TASK_TTL
  }

  function Reconcile(fmt: Formats, t: Task, env: Env): Reconciled {
    if !Alive(t, env.now) then
      Reconciled(if env.deleteOk then None else Some(t), None)
    else
      var s := if t.status.phase.Unset? then t.status.(phase := Pending) else t.status;
      if s.completed.None? then Written(t, SetCompleted(s, false, TaskNotStarted), env)
      else if Terminal(s.phase) then Reconciled(Some(t), None)
      else
        var expiry := if s.phase.InputRequired? then ApprovalTimeout(fmt, s, env.now) else NotDue;
        if expiry.Expired? then Written(t, expiry.status, env)
        else
          var decided := if s.phase.InputRequired? && !t.spec.hasServer && t.spec.input != ""
                         then ApprovalDecision(fmt, s, t.spec.input, env.now) else None;
          if decided.Some? then Written(t, decided.value, env)
          else if TaskTimedOut(t, env.now) then
            Written(t, SetCompleted(s.(phase := Failed, error := "Task polling timeout",
                                       completionTime := Some(env.now)), true, TaskTimeout), env)
          else PollTask(fmt, t, s, env)
  }

  predicate DenialReason(reason: Reason) {
    reason.ApprovalRejected? || reason.ApprovalTimeoutRejected?
  }

  predicate ConsentReason(reason: Reason) {
    reason.ApprovalGranted? || reason.ApprovalTimeoutProceeded?
  }

  /** What holds of every stored status: its condition is true exactly in a terminal
      phase whose reason is neither of the two that report such a task with a false
      condition; a denial comes only with failed, a consent only with completed. */
  predicate ConditionConsistent(s: Status) {
    s.completed.Some? ==>
      var c := s.completed.value;
      && !s.phase.Unset?
      && (c.isTrue <==> Terminal(s.phase) && !c.reason.InvalidApprovalDecision? && !c.reason.TaskNotStarted?)
      && (DenialReason(c.reason) ==> s.phase.Failed?)
      && (ConsentReason(c.reason) ==> s.phase.Completed?)
  }

  /** A completion time comes only with a terminal phase. */
  predicate TimeConsistent(s: Status) {
    s.completionTime.Some? ==> Terminal(s.phase)
  }

  predicate Consistent(s: Status) {
    ConditionConsistent(s) && TimeConsistent(s)
  }

  /** The status the creator of a task writes. */
  predicate FreshStatus(s: Status) {
    s.completed.None? && s.completionTime.None?
  }

  /** The wake comes down to polling the server. */
  predicate Polls(fmt: Formats, t: Task, env: Env) {
    && Alive(t, env.now)
    && t.status.completed.Some? && !Terminal(t.status.phase)
    && t.spec.hasServer && !TaskTimedOut(t, env.now)
    && (t.status.phase.InputRequired? ==> !ApprovalTimeout(fmt, t.status, env.now).Expired?)
  }

  /** The poll succeeds and resets a failure count, which refreshes the status in memory. */
  predicate Resets(t: Task, env: Env) {
    env.poll.PollReplied? && Failures(t.note) > 0 && env.noteWriteOk
  }

  /** Something of `fetched` that is compared passes a refresh because the stored
      status has nothing in its place. */
  predicate PassesRefresh(stored: Status, fetched: Status) {
    || (stored.protocolState == "" != fetched.protocolState)
    || (stored.artifacts == [] != fetched.artifacts)
    || (stored.history == [] != fetched.history)
  }

  /** A refresh keeps the old phase beside the completion time just fetched, and
      something passes that makes the mixture worth writing. */
  predicate Mixes(fmt: Formats, t: Task, env: Env) {
    && Polls(fmt, t, env) && Resets(t, env) && env.statusWriteOk && env.poll.reply.Some?
    && var task := env.poll.reply.value;
       && Terminal(ConvertState(task.state)) && fmt.clock(task.timestamp).Some?
       && PassesRefresh(t.status, Update(t.status, env.poll.reply, fmt.clock))
  }

  datatype Event = Wake(env: Env) | SetInput(input: string)

  /** One event in the life of a stored task; None once the task is deleted. */
  function Step(fmt: Formats, t: Option<Task>, event: Event): Option<Task> {
    if t.None? then None
    else match event
      case Wake(env) => Reconcile(fmt, t.value, env).stored
      case SetInput(input) => Some(t.value.(spec := t.value.spec.(input := input)))
  }

  function Life(fmt: Formats, t: Option<Task>, events: seq<Event>): Option<Task>
    decreases |events|
  {
    if events == [] then t else Life(fmt, Step(fmt, t, events[0]), events[1..])
  }

  lemma DecisionsConsistent(fmt: Formats, s: Status, input: string, now: int)
    ensures var check := ApprovalTimeout(fmt, s, now);
      check.Expired? ==> Consistent(check.status) && Terminal(check.status.phase)
    ensures var decided := ApprovalDecision(fmt, s, input, now);
      decided.Some? ==> Consistent(decided.value) && Terminal(decided.value.phase)
  {
  }

  lemma FetchedConsistent(fmt: Formats, spec: Spec, s: Status, reply: Option<RemoteTask>)
    requires ConditionConsistent(s) && !Terminal(s.phase) && !s.phase.Unset?
    ensures var u := Fetched(fmt, spec, s, reply);
      && ConditionConsistent(u) && (TimeConsistent(s) ==> TimeConsistent(u))
      && (reply.None? || !spec.hasServer ==> u == s)
  {
    if spec.hasServer && reply.Some? {
      UpdateKeepsCondition(s, reply, fmt.clock);
      StatesEndTasks(reply.value.state);
      ConditionFollowsPhase(Update(s, reply, fmt.clock), s);
    }
  }

  lemma ConditionFollowsPhase(u: Status, s: Status)
    requires ConditionConsistent(s) && !Terminal(s.phase) && u.completed == s.completed
    requires !u.phase.Unset? && !u.phase.Pending?
    ensures ConditionConsistent(UpdateConditions(u, s.phase))
  {
  }

  /** A refresh keeps phase and condition as they are stored. */
  lemma RefreshedConsistent(s: Status, fetched: Status)
    requires ConditionConsistent(s) && s.completed.Some?
    ensures var u := Refreshed(s, fetched);
      && ConditionConsistent(u) && u.phase == s.phase && u.completed == s.completed
  {
  }

  lemma PollConsistent(fmt: Formats, t: Task, env: Env)
    requires ConditionConsistent(t.status) && t.status.completed.Some? && !Terminal(t.status.phase)
    ensures var u := PollTask(fmt, t, t.status, env).stored;
      u.Some? && ConditionConsistent(u.value.status) && (t.spec.hasServer || u.value.status == t.status)
  {
    var reply := if env.poll.PollReplied? then env.poll.reply else None;
    FetchedConsistent(fmt, t.spec, t.status, reply);
    RefreshedConsistent(t.status, Fetched(fmt, t.spec, t.status, reply));
    RefreshedSame(t.status);
  }

  /** A poll stores a completion time in a phase that is not terminal exactly when it mixes. */
  lemma PollTimeConsistent(fmt: Formats, t: Task, env: Env)
    requires Consistent(t.status) && Polls(fmt, t, env)
    ensures var u := PollTask(fmt, t, t.status, env).stored;
      u.Some? && (TimeConsistent(u.value.status) <==> !Mixes(fmt, t, env))
  {
    if Resets(t, env) {
      ResetTimeConsistent(fmt, t, env);
    } else {
      FetchedConsistent(fmt, t.spec, t.status, if env.poll.PollReplied? then env.poll.reply else None);
    }
  }

  lemma ResetTimeConsistent(fmt: Formats, t: Task, env: Env)
    requires Consistent(t.status) && Polls(fmt, t, env) && Resets(t, env)
    ensures var u := PollTask(fmt, t, t.status, env).stored;
      u.Some? && (TimeConsistent(u.value.status) <==> !Mixes(fmt, t, env))
  {
    var s, reply := t.status, env.poll.reply;
    if reply.None? {
      RefreshedSame(s);
    } else {
      var merged := Update(s, reply, fmt.clock);
      var fetched := UpdateConditions(merged, s.phase);
      RefreshedTimes(fmt, s, reply);
      RefreshedNews(s, fetched);
      assert fetched == merged.(completed := fetched.completed);
    }
  }

  lemma RefreshedTimes(fmt: Formats, s: Status, reply: Option<RemoteTask>)
    requires reply.Some? && Consistent(s) && !Terminal(s.phase)
    ensures var u := Refreshed(s, UpdateConditions(Update(s, reply, fmt.clock), s.phase));
      u.completionTime.Some? <==> Terminal(ConvertState(reply.value.state)) && fmt.clock(reply.value.timestamp).Some?
  {
  }

  /** What a refresh leaves to be noticed. */
  lemma RefreshedNews(s: Status, fetched: Status)
    requires !s.phase.Unset? && s.error == fetched.error
    ensures TakeSnapshot(Refreshed(s, fetched)) != TakeSnapshot(s) <==> PassesRefresh(s, fetched)
  {
  }

  /** One wake keeps the condition consistent always, and the completion time exactly
      unless the wake mixes. */
  lemma ReconcileConsistent(fmt: Formats, t: Task, env: Env)
    requires ConditionConsistent(t.status)
    ensures var u := Reconcile(fmt, t, env).stored;
      u.Some? ==>
        && ConditionConsistent(u.value.status)
        && (TimeConsistent(t.status) ==> (TimeConsistent(u.value.status) <==> !Mixes(fmt, t, env)))
  {
    var s := if t.status.phase.Unset? then t.status.(phase := Pending) else t.status;
    DecisionsConsistent(fmt, s, t.spec.input, env.now);
    if !Terminal(s.phase) && s.completed.Some? {
      PollConsistent(fmt, t, env);
      if Polls(fmt, t, env) && TimeConsistent(t.status) {
        PollTimeConsistent(fmt, t, env);
      }
    }
  }

  /** No wake of the run mixes. */
  ghost predicate NeverMixes(fmt: Formats, t: Option<Task>, events: seq<Event>)
    decreases |events|
  {
    t.Some? && events != [] ==>
      && (events[0].Wake? ==> !Mixes(fmt, t.value, events[0].env))
      && NeverMixes(fmt, Step(fmt, t, events[0]), events[1..])
  }

  /** Every status stored during the run satisfies the predicate. */
  ghost predicate Throughout(fmt: Formats, t: Option<Task>, events: seq<Event>, p: Status -> bool)
    decreases |events|
  {
    && (t.Some? ==> p(t.value.status))
    && (events != [] ==> Throughout(fmt, Step(fmt, t, events[0]), events[1..], p))
  }

  /** Whatever the clock, the replies, the input and the writes do to a task from its
      creation on: its condition is consistent in every stored status, and completion
      times come only with terminal phases throughout exactly when no wake mixes. */
  lemma EveryReachableTaskConsistent(fmt: Formats, t: Task, events: seq<Event>)
    requires FreshStatus(t.status)
    ensures Throughout(fmt, Some(t), events, ConditionConsistent)
    ensures Throughout(fmt, Some(t), events, TimeConsistent) <==> NeverMixes(fmt, Some(t), events)
  {
    StaysConsistent(fmt, Some(t), events);
    TimesStayConsistent(fmt, Some(t), events);
  }

  lemma {:induction false} StaysConsistent(fmt: Formats, t: Option<Task>, events: seq<Event>)
    requires t.Some? ==> ConditionConsistent(t.value.status)
    ensures Throughout(fmt, t, events, ConditionConsistent)
    decreases |events|
  {
    if events != [] {
      if t.Some? && events[0].Wake? {
        ReconcileConsistent(fmt, t.value, events[0].env);
      }
      StaysConsistent(fmt, Step(fmt, t, events[0]), events[1..]);
    }
  }

  lemma {:induction false} TimesStayConsistent(fmt: Formats, t: Option<Task>, events: seq<Event>)
    requires t.Some? ==> Consistent(t.value.status)
    ensures Throughout(fmt, t, events, TimeConsistent) <==> NeverMixes(fmt, t, events)
    decreases |events|
  {
    if events != [] {
      var u := Step(fmt, t, events[0]);
      if t.Some? && events[0].Wake? {
        ReconcileConsistent(fmt, t.value, events[0].env);
      }
      if u.None? || TimeConsistent(u.value.status) {
        TimesStayConsistent(fmt, u, events[1..]);
      } else {
        assert !Throughout(fmt, u, events[1..], TimeConsistent);
      }
    }
  }

  lemma {:induction false} DeletedStaysDeleted(fmt: Formats, events: seq<Event>)
    ensures Life(fmt, None, events).None?
    decreases |events|
  {
    if events != [] {
      DeletedStaysDeleted(fmt, events[1..]);
    }
  }

  /** A terminal status never changes again, except that a task first seen in a
      terminal phase receives its Completed condition once, as not started. */
  lemma {:induction false} TerminalIsAbsorbing(fmt: Formats, t: Task, events: seq<Event>)
    requires Terminal(t.status.phase)
    ensures var u := Life(fmt, Some(t), events);
      u.Some? ==>
        || u.value.status == t.status
        || (t.status.completed.None? && u.value.status == SetCompleted(t.status, false, TaskNotStarted))
    decreases |events|
  {
    if events != [] {
      var u := Step(fmt, Some(t), events[0]);
      if u.Some? {
        TerminalIsAbsorbing(fmt, u.value, events[1..]);
      } else {
        DeletedStaysDeleted(fmt, events[1..]);
      }
    }
  }

  /** A task without a server leaves its phase only while it waits for input, and
      only through an expired approval or a readable or unreadable decision. */
  lemma ApprovalTaskEndsByDecision(fmt: Formats, t: Task, event: Event)
    requires !t.spec.hasServer && !Terminal(t.status.phase)
    ensures var u := Step(fmt, Some(t), event);
      u.Some? && Terminal(u.value.status.phase) ==>
        && event.Wake? && t.status.phase.InputRequired? && event.env.statusWriteOk
        && (ApprovalTimeout(fmt, t.status, event.env.now) == Expired(u.value.status)
            || ApprovalDecision(fmt, t.status, t.spec.input, event.env.now) == Some(u.value.status))
  {
    if event.Wake? && Alive(t, event.env.now) && t.status.phase.InputRequired? && t.status.completed.Some? {
      WaitingWake(fmt, t, event.env);
    }
  }

  /** What a wake does to an approval that waits: its expiry, else its decision, else nothing. */
  lemma WaitingWake(fmt: Formats, t: Task, env: Env)
    requires t.status.phase.InputRequired? && t.status.completed.Some? && !t.spec.hasServer && Alive(t, env.now)
    ensures var u := Reconcile(fmt, t, env).stored;
      var expiry := ApprovalTimeout(fmt, t.status, env.now);
      var decided := if t.spec.input != "" then ApprovalDecision(fmt, t.status, t.spec.input, env.now) else None;
      && u.Some?
      && u.value.status == if !env.statusWriteOk then t.status
           else if expiry.Expired? then expiry.status
           else if decided.Some? then decided.value
           else t.status
  {
    RefreshedSame(t.status);
  }

  /** A task without a condition only receives its first one, and a phase if it has none. */
  lemma FirstWake(fmt: Formats, t: Task, env: Env)
    requires t.status.completed.None? && Alive(t, env.now)
    ensures var phase := if t.status.phase == Unset then Pending else t.status.phase;
      Reconcile(fmt, t, env) == Reconciled(
        Some(if env.statusWriteOk
             then t.(status := t.status.(phase := phase, completed := Some(Condition(false, TaskNotStarted)))) else t),
        None)
  {
  }

  /** The approval's own time limit is readable and has passed. */
  predicate LimitPassed(fmt: Formats, s: Status, now: int) {
    && "timeout" in s.metadata && s.metadata["timeout"] != ""
    && fmt.duration(s.metadata["timeout"]).Some? && s.startTime.Some?
    && now - s.startTime.value >= fmt.duration(s.metadata["timeout"]).value
  }

  /** How a waiting approval is settled. A passed limit is settled by its policy,
      even against a decision the user has already given; otherwise the decision
      counts; without one, or with an unknown policy and no decision, nothing changes. */
  lemma Settlement(fmt: Formats, t: Task, env: Env)
    requires t.status.phase.InputRequired? && t.status.completed.Some? && !t.spec.hasServer
    requires Alive(t, env.now) && env.statusWriteOk
    ensures var u := Reconcile(fmt, t, env).stored;
      var policy := if "onTimeout" in t.status.metadata then t.status.metadata["onTimeout"] else "";
      var known := policy == "proceed" || policy == "reject" || policy == "";
      var decision := if t.spec.input == "" then Some("") else fmt.decision(t.spec.input);
      && u.Some?
      && if LimitPassed(fmt, t.status, env.now) && known then
           EndsAs(t.status, u.value.status, policy == "proceed",
                  if policy == "proceed" then ApprovalTimeoutProceeded else ApprovalTimeoutRejected, env.now)
         else if decision == Some("") then u.value.status == t.status
         else if decision == Some("approved") then EndsAs(t.status, u.value.status, true, ApprovalGranted, env.now)
         else if decision == Some("rejected") then EndsAs(t.status, u.value.status, false, ApprovalRejected, env.now)
         else EndsAs(t.status, u.value.status, false, InvalidApprovalDecision, env.now)
  {
    WaitingWake(fmt, t, env);
  }

  /** A passed limit settles a waiting approval of any task, with a server or without,
      before anything else is looked at. */
  lemma ExpiryComesFirst(fmt: Formats, t: Task, env: Env)
    requires t.status.phase.InputRequired? && t.status.completed.Some? && Alive(t, env.now) && env.statusWriteOk
    requires LimitPassed(fmt, t.status, env.now)
    ensures var u := Reconcile(fmt, t, env).stored;
      var policy := if "onTimeout" in t.status.metadata then t.status.metadata["onTimeout"] else "";
      && (policy == "proceed" ==> u.Some? && EndsAs(t.status, u.value.status, true, ApprovalTimeoutProceeded, env.now))
      && (policy == "reject" || policy == "" ==>
            u.Some? && EndsAs(t.status, u.value.status, false, ApprovalTimeoutRejected, env.now))
  {
  }

  /** The status ended then, for that reason, with nothing else touched but the error of a denial. */
  predicate EndsAs(was: Status, s: Status, consent: bool, reason: Reason, now: int) {
    && s == was.(phase := s.phase, completed := s.completed, completionTime := Some(now), error := s.error)
    && s.phase == (if consent then Completed else Failed)
    && s.completed == Some(Condition(reason != InvalidApprovalDecision, reason))
    && (if consent then s.error == was.error else s.error != "")
  }

  /** The end of a task that is polled: it fails at the first wake that finds its time
      limit passed, 12 hours without one, and is polled until then. An approval it waits
      for can only end it earlier by its own limit. */
  lemma FailsAtItsTimeLimit(fmt: Formats, t: Task, env: Env)
    requires ConditionConsistent(t.status) && t.status.completed.Some? && !Terminal(t.status.phase)
    requires t.spec.hasServer && Alive(t, env.now) && env.statusWriteOk
    requires t.status.phase.InputRequired? ==> !ApprovalTimeout(fmt, t.status, env.now).Expired?
    ensures var u := Reconcile(fmt, t, env);
      var limit := match t.spec.timeout case Some(d) => d case None => 12 * 3600 * 1_000_000_000;
      && u.stored.Some? && u.stored.value.spec == t.spec
      && (TimedOut(t.status, u.stored.value.status, env.now) <==> env.now >= t.spec.created + limit)
      && (env.now >= t.spec.created + limit ==> u.requeue.None? && u.stored.value.note == t.note)
      && (env.now < t.spec.created + limit ==> u == PollTask(fmt, t, t.status, env))
  {
    if !TaskTimedOut(t, env.now) {
      PollKeepsReason(fmt, t, env);
    }
  }

  predicate TimedOut(was: Status, s: Status, now: int) {
    && s == was.(phase := Failed, completed := Some(Condition(true, TaskTimeout)), completionTime := Some(now),
                 error := s.error)
    && s.error != ""
  }

  lemma PollKeepsReason(fmt: Formats, t: Task, env: Env)
    requires ConditionConsistent(t.status) && t.status.completed.Some? && !Terminal(t.status.phase)
    ensures var u := PollTask(fmt, t, t.status, env).stored;
      u.Some? && u.value.spec == t.spec && u.value.status.completed != Some(Condition(true, TaskTimeout))
  {
    var reply := if env.poll.PollReplied? then env.poll.reply else None;
    var fetched := Fetched(fmt, t.spec, t.status, reply);
    FetchedConsistent(fmt, t.spec, t.status, reply);
    RefreshedConsistent(t.status, fetched);
  }

  /** A task is deleted at the first wake that finds its time to live passed, 30 days
      without one, and if the deletion succeeds; nothing else happens to it then. */
  lemma DeletedAtItsEnd(fmt: Formats, t: Task, env: Env)
    ensures var ttl := match t.spec.ttl case Some(d) => d case None => 720 * 3600 * 1_000_000_000;
      var u := Reconcile(fmt, t, env);
      && (u.stored.None? <==> env.now >= t.spec.created + ttl && env.deleteOk)
      && (env.now >= t.spec.created + ttl && !env.deleteOk ==> u == Reconciled(Some(t), None))
  {
  }

  /** What a fetch makes of the condition: it follows a phase that changed, and stays with
      one that did not or is none of these. */
  lemma ReasonFollowsPhase(fmt: Formats, spec: Spec, s: Status, reply: RemoteTask)
    requires spec.hasServer
    ensures var u := Fetched(fmt, spec, s, Some(reply));
      && u == Update(s, Some(reply), fmt.clock).(completed := u.completed)
      && (ConvertState(reply.state) == s.phase ==> u.completed == s.completed)
      && (ConvertState(reply.state) != s.phase ==>
            match reply.state
            case "submitted" => u.completed == Some(Condition(false, TaskPending))
            case "working" => u.completed == Some(Condition(false, TaskRunning))
            case "completed" => u.completed == Some(Condition(true, TaskSucceeded))
            case "failed" => u.completed == Some(Condition(true, TaskFailed))
            case "rejected" => u.completed == Some(Condition(true, TaskFailed))
            case "canceled" => u.completed == Some(Condition(true, TaskCancelled))
            case _ => u.completed == s.completed)
  {
  }

  /** A poll that fails, or whose status cannot be written, leaves the stored status alone;
      a poll asks to be repeated after the poll interval, five seconds without one, unless
      the task has ended or its news could not be written. */
  lemma PollLeavesStatus(fmt: Formats, t: Task, env: Env)
    requires t.spec.hasServer && t.status.completed.Some? && !Terminal(t.status.phase)
    ensures var u := PollTask(fmt, t, t.status, env);
      && u.stored.Some? && u.stored.value.spec == t.spec
      && (env.poll.PollFailed? || !env.statusWriteOk ==> u.stored.value.status == t.status)
      && (env.poll.PollReplied? && u.requeue.Some? ==>
            u.requeue.value == match t.spec.pollInterval case Some(d) => d case None => 5_000_000_000)
      && (env.poll.PollFailed? ==> u.requeue.Some?)
      && (env.poll.PollReplied? && !Resets(t, env) ==>
            var fetched := Fetched(fmt, t.spec, t.status, env.poll.reply);
            (u.requeue.None? <==>
               Terminal(fetched.phase) || (!env.statusWriteOk && TakeSnapshot(fetched) != TakeSnapshot(t.status))))
  {
  }
}
