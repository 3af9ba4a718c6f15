/** Whole lives of a task and of a dispatch intent: every transition of pkg/domain/task.go and
    the intent part of pkg/domain/a2a.go, in any order. */
module Lifecycles {
  import opened Wrappers
  import opened Domain

  // ---------------------------------------------------------------- tasks

  datatype TaskCall =
    | AssignCall(worker: ID, agent: Agent) | EditCall(project: ID, agent: Agent) | StartCall | RetryCall | SayCall
    | ContinueCall | RunningCall(path: string) | RecordCall | WaitCall | AskCall(session: string) | ResumeCall
    | InterruptCall | InterruptedCall | CompleteCall(result: string, session: string) | FailCall(reason: string)
    | ResultCall(result: string, session: string) | SessionCall(session: string) | ArchiveCall

  function Perform(task: Task, call: TaskCall, now: Time): Result<Task> {
    match call
    case AssignCall(worker, agent) => task.AssignWorker(worker, agent, now)
    case EditCall(project, agent) => task.Edit(project, agent, now)
    case StartCall => task.Start(now)
    case RetryCall => task.Retry(now)
    case SayCall => task.AppendUserConversation(now)
    case ContinueCall => task.Continue(now)
    case RunningCall(path) => task.MarkRunning(path, now)
    case RecordCall => task.Record(now)
    case WaitCall => task.WaitForInput(now)
    case AskCall(session) => task.RequestInteraction(session, now)
    case ResumeCall => task.Resume(now)
    case InterruptCall => task.RequestInterrupt(now)
    case InterruptedCall => task.MarkInterrupted(now)
    case CompleteCall(result, session) => task.Complete(result, session, now)
    case FailCall(reason) => task.Fail(reason, now)
    case ResultCall(result, session) => task.RecordResult(result, session, now)
    case SessionCall(session) => Ok(task.RememberSession(session, now))
    case ArchiveCall => task.Archive(now)
  }

  /** The edges of the design's state diagram. */
  predicate Designed(before: TaskStatus, after: TaskStatus) {
    match before
    case CREATED => after.ASSIGNED? || after.ARCHIVED?
    case ASSIGNED => after.STARTING?
    case STARTING => after.RUNNING? || after.BROKEN?
    case RUNNING => after.WAITING_INPUT? || after.INTERRUPTING? || after.FINISHED? || after.BROKEN?
    case WAITING_INPUT => after.RUNNING?
    case INTERRUPTING => after.INTERRUPTED?
    case FINISHED | BROKEN | INTERRUPTED => after.ARCHIVED?
    case ARCHIVED => false
  }

  /** The edges the code has beyond the diagram: retry and continue, and early or late answers. */
  predicate Beyond(before: TaskStatus, after: TaskStatus) {
    match before
    case FINISHED => after.CREATED? || after.STARTING?
    case BROKEN | INTERRUPTED => after.CREATED?
    case STARTING => after.WAITING_INPUT? || after.INTERRUPTING? || after.INTERRUPTED? || after.FINISHED?
    case RUNNING => after.INTERRUPTED?
    case WAITING_INPUT => after.INTERRUPTING? || after.INTERRUPTED? || after.FINISHED? || after.BROKEN?
    case INTERRUPTING => after.BROKEN?
    case _ => false
  }

  predicate Edge(before: TaskStatus, after: TaskStatus) {
    Designed(before, after) || Beyond(before, after)
  }

  lemma PerformFollowsEdge(task: Task, call: TaskCall, now: Time)
    requires Perform(task, call, now).Ok?
    ensures var after := Perform(task, call, now).value;
            && after.id == task.id
            && (after.status == task.status || Edge(task.status, after.status))
            && (after == task || after.version == task.version + 1)
  {
  }

  /** A task with everything a transition can ask for. */
  function Ready(status: TaskStatus): Task {
    Task("t", status, false, "p", CODEX, "w", "path", "session", "", 1, 0)
  }

  /** A call that takes the edge. */
  function Along(after: TaskStatus, before: TaskStatus): TaskCall {
    match after
    case CREATED => RetryCall
    case ASSIGNED => AssignCall("w", CODEX)
    case STARTING => if before.FINISHED? then ContinueCall else StartCall
    case RUNNING => if before.WAITING_INPUT? then ResumeCall else RunningCall("")
    case WAITING_INPUT => WaitCall
    case INTERRUPTING => InterruptCall
    case INTERRUPTED => InterruptedCall
    case FINISHED => CompleteCall("", "")
    case BROKEN => FailCall("")
    case ARCHIVED => ArchiveCall
  }

  lemma EdgeIsTaken(before: TaskStatus, after: TaskStatus)
    requires Edge(before, after)
    ensures var r := Perform(Ready(before), Along(after, before), 0); r.Ok? && r.value.status == after
  {
    assert !Blank("w") by { assert Trim("w") == "w"; }
  }

  ghost predicate Connected(before: TaskStatus, after: TaskStatus) {
    exists task: Task, call: TaskCall, now: Time ::
      task.status == before && Perform(task, call, now).Ok? && Perform(task, call, now).value.status == after
  }

  /** The transitions between different statuses are exactly the edges. */
  lemma EdgesAreExact(before: TaskStatus, after: TaskStatus)
    requires before != after
    ensures Connected(before, after) <==> Edge(before, after)
  {
    if Connected(before, after) {
      var task: Task, call: TaskCall, now: Time :|
        task.status == before && Perform(task, call, now).Ok? && Perform(task, call, now).value.status == after;
      PerformFollowsEdge(task, call, now);
    }
    if Edge(before, after) {
      EdgeIsTaken(before, after);
      assert Ready(before).status == before;
    }
  }

  /** A sequence of calls, each at its time; a refused call changes nothing. */
  function Live(task: Task, calls: seq<(TaskCall, Time)>): Task
    decreases |calls|
  {
    if calls == [] then task else
      var r := Perform(task, calls[0].0, calls[0].1);
      Live(if r.Ok? then r.value else task, calls[1..])
  }

  predicate Retries(calls: seq<(TaskCall, Time)>)
    decreases |calls|
  {
    calls != [] && (calls[0].0.RetryCall? || Retries(calls[1..]))
  }

  /** What one transition other than a retry keeps. */
  lemma PerformKeeps(task: Task, call: TaskCall, now: Time)
    requires Perform(task, call, now).Ok?
    ensures var after := Perform(task, call, now).value;
            && task.version <= after.version
            && (task.status.ARCHIVED? ==> call.SessionCall?)
            && (call.RetryCall? || task.worktreePath == "" || after.worktreePath == task.worktreePath)
            && (call.RetryCall? || task.agentSessionID == "" || after.agentSessionID != "")
            && (call.AssignCall? || call.RetryCall? || after.workerID == task.workerID)
            && (task.status.CREATED? || task.status.ASSIGNED? || (after.agent == task.agent
                                                                  && after.projectID == task.projectID))
  {
  }

  /** Over a whole life: an archived task stays archived, the version never falls, and without a retry
      a worktree once bound is never exchanged and a known session never forgotten. */
  lemma {:induction false} LivesAreOrderly(task: Task, calls: seq<(TaskCall, Time)>)
    ensures var after := Live(task, calls);
            && after.id == task.id && task.version <= after.version
            && (task.status.ARCHIVED? ==> after.status.ARCHIVED?)
            && (Retries(calls) || task.worktreePath == "" || after.worktreePath == task.worktreePath)
            && (Retries(calls) || task.agentSessionID == "" || after.agentSessionID != "")
    decreases |calls|
  {
    if calls != [] {
      var r := Perform(task, calls[0].0, calls[0].1);
      if r.Ok? {
        PerformKeeps(task, calls[0].0, calls[0].1);
        PerformFollowsEdge(task, calls[0].0, calls[0].1);
      }
      LivesAreOrderly(if r.Ok? then r.value else task, calls[1..]);
    }
  }

  // ---------------------------------------------------------------- dispatch intents

  datatype IntentCall = AttemptCall | DeferCall(code: string, message: string,
                                                at: Time) | DeliveredCall | AbandonCall(code: string, message: string)

  function Handle(intent: Intent, call: IntentCall, now: Time): Result<Intent> {
    match call
    case AttemptCall => intent.StartAttempt(now)
    case DeferCall(code, message, at) => intent.ScheduleRetry(code, message, at, now)
    case DeliveredCall => Ok(intent.Complete(now))
    case AbandonCall(code, message) => Ok(intent.Fail(code, message, now))
  }

  function Dispatch(intent: Intent, calls: seq<(IntentCall, Time)>): Intent
    decreases |calls|
  {
    if calls == [] then intent else
      var r := Handle(intent, calls[0].0, calls[0].1);
      Dispatch(if r.Ok? then r.value else intent, calls[1..])
  }

  /** How many of the calls are taken, and how many of those are attempts. */
  function Taken(intent: Intent, calls: seq<(IntentCall, Time)>, attemptsOnly: bool): nat
    decreases |calls|
  {
    if calls == [] then 0 else
      var r := Handle(intent, calls[0].0, calls[0].1);
      (if r.Ok? && (attemptsOnly ==> calls[0].0.AttemptCall?) then 1 else 0)
      + Taken(if r.Ok? then r.value else intent, calls[1..], attemptsOnly)
  }

  /** The version counts the transitions taken, the attempt counter counts the attempts among them. */
  lemma {:induction false} CountersCount(intent: Intent, calls: seq<(IntentCall, Time)>)
    ensures var after := Dispatch(intent, calls);
            && after.version == intent.version + Taken(intent, calls, false)
            && after.attemptCount == intent.attemptCount + Taken(intent, calls, true)
            && (after == intent || intent.Before(after))
    decreases |calls|
  {
    if calls != [] {
      var r := Handle(intent, calls[0].0, calls[0].1);
      CountersCount(if r.Ok? then r.value else intent, calls[1..]);
    }
  }

  predicate Abandons(calls: seq<(IntentCall, Time)>)
    decreases |calls|
  {
    calls != [] && (calls[0].0.AbandonCall? || Abandons(calls[1..]))
  }

  /** A delivered intent is never attempted or deferred again; only a failure verdict moves it, and then a deferral
      may reopen it. */
  lemma {:induction false} DeliveredStays(intent: Intent, calls: seq<(IntentCall, Time)>)
    requires intent.status.DELIVERED? && !Abandons(calls)
    ensures Dispatch(intent, calls).status.DELIVERED? && Taken(intent, calls, true) == 0
    decreases |calls|
  {
    if calls != [] {
      var r := Handle(intent, calls[0].0, calls[0].1);
      DeliveredStays(if r.Ok? then r.value else intent, calls[1..]);
    }
  }

  // ---------------------------------------------------------------- rounds

  datatype RoundCall =
    | BindCall(taskID: ID, contextID: ID,
               status: RemoteStatus) | ObserveCall(status: RemoteStatus, sequence: int, observed: bool)
    | UnreachableCall | ErrorCall(code: string, message: string)

  function Affect(round: Round, call: RoundCall, now: Time): Result<Round> {
    match call
    case BindCall(taskID, contextID, status) => round.BindRemote(taskID, contextID, status, now)
    case ObserveCall(status, sequence, observed) => round.Observe(status, sequence, observed, now)
    case UnreachableCall => Ok(round.MarkUnreachable(now))
    case ErrorCall(code, message) => Ok(round.SetError(code, message, now))
  }

  /** A round is made exactly of complete names, a positive attempt and turn, and an operation that creates rounds; it
      is open at the given cursor, unbound and without a diagnosis. */
  lemma NewRoundIff(id: ID, taskID: ID, executionID: ID, attempt: int, turn: int, operation: Operation, workerID: ID,
                    commandID: ID, parentRoundID: ID, contextID: ID, lastSequence: nat, now: Time)
    ensures var r := NewRound(id, taskID, executionID, attempt, turn, operation, workerID, commandID, parentRoundID,
                              contextID, lastSequence, now);
            && (r.Ok? <==> && (forall name :: name in {id, taskID, executionID, workerID, commandID} ==> !Blank(name))
                           && attempt >= 1 && turn >= 1 && operation.CreatesRound())
            && (r.Ok? ==> && r.value.id == id && r.value.taskID == taskID && r.value.executionID == executionID
                          && r.value.attempt == attempt && r.value.turn == turn && r.value.workerID == workerID
                          && r.value.commandID == commandID && r.value.contextID == contextID
                          && r.value.lastSequence == lastSequence && r.value.a2aTaskID == ""
                          && r.value.Live() && !r.value.remoteStatus.Terminal() && r.value.version == 1)
  {
  }

  /** An intent is made exactly of a complete command; it belongs to the round, is due at once and was never attempted.
      */
  lemma NewIntentIff(round: Round, operation: Operation, commandID: ID, now: Time)
    ensures var r := NewIntent(round, operation, commandID, now);
            && (r.Ok? <==> !Blank(commandID))
            && (r.Ok? ==> && r.value.roundID == round.id && r.value.taskID == round.taskID
                          && r.value.executionID == round.executionID && r.value.workerID == round.workerID
                          && r.value.commandID == commandID && r.value.status.PENDING? && r.value.availableAt == now
                          && r.value.createdAt == now && r.value.attemptCount == 0 && r.value.version == 1)
  {
  }

  /** The call is accepted: a binding names a remote task and agrees with what is bound, and an observation neither
      moves the cursor back nor contradicts a terminal status. */
  predicate Accepts(round: Round, call: RoundCall) {
    match call
    case BindCall(taskID, contextID, _) =>
      && !Blank(taskID) && !Blank(contextID)
      && round.a2aTaskID in {"", taskID} && round.contextID in {"", contextID}
    case ObserveCall(status, sequence, observed) =>
      sequence >= round.lastSequence
      && !(observed && round.remoteStatus.Terminal() && status.Known() && status != round.remoteStatus)
    case _ => true
  }

  /** What an accepted call leaves: contact is lost since the first failure and regained by the next answer, a remote
      identity is never exchanged, and a completed round stays completed. */
  lemma AffectFollows(round: Round, call: RoundCall, now: Time)
    ensures Affect(round, call, now).Ok? <==> Accepts(round, call)
    ensures Accepts(round, call) ==>
              var after := Affect(round, call, now).value;
              && round.SameIdentity(after) && after.version == round.version + 1
              && round.lastSequence <= after.lastSequence
              && (round.a2aTaskID != "" ==> after.a2aTaskID == round.a2aTaskID)
              && (round.contextID != "" ==> after.contextID == round.contextID)
              && (round.completedAt.Some? ==> after.completedAt.Some?)
              && after.unreachableSince == (if !call.UnreachableCall? && !call.ErrorCall? then None
                                            else if call.UnreachableCall? && round.unreachableSince.None? then Some(now)
                                            else round.unreachableSince)
              && (call.BindCall? ==> after.a2aTaskID == call.taskID && after.contextID == call.contextID)
              && (call.ErrorCall? ==> after.errorCode == call.code && after.errorMessage == call.message)
  {
  }

  function Follow(round: Round, calls: seq<(RoundCall, Time)>): Round
    decreases |calls|
  {
    if calls == [] then round else
      var r := Affect(round, calls[0].0, calls[0].1);
      Follow(if r.Ok? then r.value else round, calls[1..])
  }

  function Followed(round: Round, calls: seq<(RoundCall, Time)>): nat
    decreases |calls|
  {
    if calls == [] then 0 else
      var r := Affect(round, calls[0].0, calls[0].1);
      (if r.Ok? then 1 else 0) + Followed(if r.Ok? then r.value else round, calls[1..])
  }

  /** Over any sequence of calls a round's version counts the accepted ones, its cursor never falls, a remote identity
      once bound stays, and a completed round stays completed. */
  lemma {:induction false} RoundLivesAreOrderly(round: Round, calls: seq<(RoundCall, Time)>)
    ensures var after := Follow(round, calls);
            && round.SameIdentity(after) && after.version == round.version + Followed(round, calls)
            && round.lastSequence <= after.lastSequence
            && (round.a2aTaskID != "" ==> after.a2aTaskID == round.a2aTaskID)
            && (round.contextID != "" ==> after.contextID == round.contextID)
            && (round.completedAt.Some? ==> after.completedAt.Some?)
    decreases |calls|
  {
    if calls != [] {
      var r := Affect(round, calls[0].0, calls[0].1);
      AffectFollows(round, calls[0].0, calls[0].1);
      RoundLivesAreOrderly(if r.Ok? then r.value else round, calls[1..]);
    }
  }

  predicate OnlyObserves(calls: seq<(RoundCall, Time)>)
    decreases |calls|
  {
    calls == [] || (!calls[0].0.BindCall? && OnlyObserves(calls[1..]))
  }

  /** No observation leads a bound round out of a terminal status. */
  lemma {:induction false} TerminalStays(round: Round, calls: seq<(RoundCall, Time)>)
    requires round.remoteStatus.Terminal() && OnlyObserves(calls)
    ensures Follow(round, calls).remoteStatus == round.remoteStatus
    decreases |calls|
  {
    if calls != [] {
      var r := Affect(round, calls[0].0, calls[0].1);
      TerminalStays(if r.Ok? then r.value else round, calls[1..]);
    }
  }
}
