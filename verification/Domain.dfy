/** The Manager's records and their transitions: pkg/domain/a2a.go, task.go and worker.go.
    The store hands out copies, so a transition is a function from a record to its successor. */
module Domain {
  import opened Wrappers

  type ID = string
  type Time = int

  // ---------------------------------------------------------------- text

  /** unicode.IsSpace. */
  predicate Space(c: char) {
    var n := c as int;
    || 9 <= n <= 13 || n == 0x20 || n == 0x85 || n == 0xA0 || n == 0x1680
    || 0x2000 <= n <= 0x200a || n == 0x2028 || n == 0x2029 || n == 0x202f || n == 0x205f || n == 0x3000
  }

  function TrimLeft(s: string): string {
    if s != "" && Space(s[0]) then TrimLeft(s[1..]) else s
  }

  function TrimRight(s: string): string {
    if s != "" && Space(s[|s| - 1]) then TrimRight(s[..|s| - 1]) else s
  }

  function Trim(s: string): string {
    TrimRight(TrimLeft(s))
  }

  predicate Blank(s: string) {
    Trim(s) == ""
  }

  lemma NotBlank(s: string)
    requires s != "" && !Space(s[0]) && !Space(s[|s| - 1])
    ensures !Blank(s)
  {
    assert TrimLeft(s) == s && TrimRight(s) == s;
  }

  // ---------------------------------------------------------------- rounds

  datatype Operation = START | RETRY | CONTINUE | INTERACTION_RESPONSE | CANCEL {
    predicate CreatesRound() {
      START? || RETRY? || CONTINUE?
    }
  }

  /** NONE is the empty string: no status was observed. */
  datatype RemoteStatus = NONE | UNSPECIFIED | SUBMITTED | WORKING | INPUT_REQUIRED | AUTH_REQUIRED
                        | COMPLETED | FAILED | REJECTED | CANCELED | UNKNOWN {
    predicate Terminal() {
      COMPLETED? || FAILED? || REJECTED? || CANCELED?
    }

    /** A status that says something: not empty, unknown or unspecified. */
    predicate Known() {
      !NONE? && !UNKNOWN? && !UNSPECIFIED?
    }
  }

  datatype Round = Round(
    id: ID, taskID: ID, executionID: ID, attempt: int, turn: int, operation: Operation, workerID: ID,
    commandID: ID, parentRoundID: ID, a2aTaskID: ID, contextID: ID, remoteStatus: RemoteStatus, lastSequence: nat,
    lastSyncedAt: Option<Time>, lastNetworkAt: Option<Time>, unreachableSince: Option<Time>, unknownSince: Option<Time>,
    errorCode: string, errorMessage: string, retryable: bool, version: nat,
    createdAt: Time, updatedAt: Time, completedAt: Option<Time>)
  {
    /** after is this round some transitions later: same identity, higher version, cursor not moved back. */
    predicate Before(after: Round) {
      && SameIdentity(after) && version < after.version && lastSequence <= after.lastSequence
    }

    predicate SameIdentity(other: Round) {
      && id == other.id && taskID == other.taskID && executionID == other.executionID
      && attempt == other.attempt && turn == other.turn && workerID == other.workerID
    }

    /** The round is open exactly while its status is not terminal. */
    predicate Consistent() {
      completedAt.Some? <==> remoteStatus.Terminal()
    }

    predicate Live() {
      completedAt.None?
    }

    predicate Bound() {
      a2aTaskID != "" && contextID != ""
    }

    function BindRemote(taskID: ID, contextID: ID, status: RemoteStatus, now: Time): (r: Result<Round>)
      ensures r.Ok? ==> this.Before(r.value) && r.value.lastSequence == lastSequence
      ensures r.Ok? ==> r.value.Bound() && (a2aTaskID != "" ==> r.value.a2aTaskID == a2aTaskID)
      ensures r.Ok? && Consistent() && !remoteStatus.Terminal() ==> r.value.Consistent()
    {
      var _ :- Require(!Blank(taskID) && !Blank(contextID), Invalid);
      var _ :- Require(a2aTaskID == "" || a2aTaskID == taskID, Conflict);
      var _ :- Require(this.contextID == "" || this.contextID == contextID, Conflict);
      Ok(this.(
        a2aTaskID := taskID,
        contextID := contextID,
        remoteStatus := if status.Known() then status else remoteStatus,
        unknownSince :=
          if status.UNKNOWN? || status.UNSPECIFIED? then Some(now) else if status.NONE? then unknownSince else None,
        lastSyncedAt := Some(now),
        lastNetworkAt := Some(now),
        unreachableSince := None,
        version := version + 1,
        updatedAt := now,
        completedAt := if status.Terminal() then Some(now) else completedAt))
    }

    /** applyRemoteObservation: move the cursor and the status, never back and never out of a terminal status. */
    function Observe(status: RemoteStatus, sequence: int, statusObserved: bool, now: Time): (r: Result<Round>)
      ensures r.Ok? <==> sequence >= lastSequence
                         && (statusObserved && remoteStatus.Terminal() && status.Known() ==> status == remoteStatus)
      ensures r.Ok? ==> this.Before(r.value) && r.value.lastSequence == sequence
      ensures r.Ok? ==> r.value.remoteStatus == if statusObserved && status.Known() then status else remoteStatus
      ensures r.Ok? && remoteStatus.Terminal() ==> r.value.remoteStatus == remoteStatus
      ensures r.Ok? && Consistent() ==> r.value.Consistent()
    {
      var _ :- Require(sequence >= lastSequence, Conflict);
      var known := statusObserved && status.Known();
      var _ :- Require(!(known && remoteStatus.Terminal() && status != remoteStatus), Conflict);
      var unknown := statusObserved && !status.Known();
      var changed := sequence > lastSequence || (known && status != remoteStatus)
                     || (unknown && unknownSince.None?) || (known && unknownSince.Some?);
      var seen := this.(
        unknownSince := if unknown && unknownSince.None? then Some(now) else if known then None else unknownSince,
        lastNetworkAt := Some(now),
        unreachableSince := None,
        version := version + 1,
        updatedAt := now);
      if !changed then Ok(seen) else
        var status' := if known then status else remoteStatus;
        Ok(seen.(
          remoteStatus := status',
          lastSequence := sequence,
          lastSyncedAt := Some(now),
          completedAt := if status'.Terminal() then Some(now) else completedAt))
    }

    function MarkUnreachable(now: Time): (r: Round)
      ensures this.Before(r) && r.lastSequence == lastSequence && r.remoteStatus == remoteStatus
      ensures r.completedAt == completedAt && r.unreachableSince.Some?
    {
      this.(unreachableSince := if unreachableSince.None? then Some(now) else unreachableSince,
            version := version + 1, updatedAt := now)
    }

    function SetError(code: string, message: string, now: Time): (r: Round)
      ensures this.Before(r) && r.lastSequence == lastSequence && r.remoteStatus == remoteStatus && !r.Live()
    {
      this.(errorCode := code, errorMessage := message, completedAt := Some(now), version := version + 1,
            updatedAt := now)
    }
  }

  function NewRound(id: ID, taskID: ID, executionID: ID, attempt: int, turn: int, operation: Operation, workerID: ID,
                    commandID: ID, parentRoundID: ID, contextID: ID, lastSequence: nat, now: Time): (r: Result<Round>)
    ensures r.Ok? ==> r.value.Live() && r.value.Consistent() && r.value.version == 1 && !r.value.Bound()
  {
    var _ :- Require(!Blank(id) && !Blank(taskID) && !Blank(executionID) && !Blank(workerID)
                     && !Blank(commandID), Invalid);
    var _ :- Require(attempt >= 1 && turn >= 1 && operation.CreatesRound(), Invalid);
    Ok(Round(id, taskID, executionID, attempt, turn, operation, workerID, commandID, parentRoundID, "", contextID,
             UNSPECIFIED, lastSequence, None, None, None, None, "", "", false, 1, now, now, None))
  }

  // ---------------------------------------------------------------- dispatch intents

  datatype DispatchStatus = PENDING | SENDING | DELIVERED | ABANDONED

  datatype Intent = Intent(
    id: ID, roundID: ID, taskID: ID, executionID: ID, workerID: ID, commandID: ID, operation: Operation,
    status: DispatchStatus, attemptCount: nat, availableAt: Time, lastAttemptAt: Option<Time>,
    completedAt: Option<Time>, errorCode: string, errorMessage: string, version: nat, createdAt: Time, updatedAt: Time)
  {
    predicate Before(after: Intent) {
      && id == after.id && roundID == after.roundID && taskID == after.taskID && commandID == after.commandID
      && createdAt == after.createdAt && version < after.version && attemptCount <= after.attemptCount
    }

    function StartAttempt(now: Time): (r: Result<Intent>)
      ensures r.Ok? ==> this.Before(r.value) && r.value.attemptCount == attemptCount + 1 && r.value.status.SENDING?
    {
      var _ :- Require(status.PENDING? || status.SENDING?, Conflict);
      Ok(this.(status := SENDING, attemptCount := attemptCount + 1, lastAttemptAt := Some(now),
               version := version + 1, updatedAt := now))
    }

    function ScheduleRetry(code: string, message: string, availableAt: Time, now: Time): (r: Result<Intent>)
      ensures r.Ok? ==> this.Before(r.value) && r.value.availableAt == availableAt && r.value.status.PENDING?
    {
      var _ :- Require(!status.DELIVERED?, Conflict);
      Ok(this.(status := PENDING, errorCode := code, errorMessage := message, availableAt := availableAt,
               version := version + 1, updatedAt := now))
    }

    function Complete(now: Time): (r: Intent)
      ensures this.Before(r) && r.status.DELIVERED?
    {
      this.(status := DELIVERED, completedAt := Some(now), errorCode := "", errorMessage := "",
            version := version + 1, updatedAt := now)
    }

    function Fail(code: string, message: string, now: Time): (r: Intent)
      ensures this.Before(r) && r.status.ABANDONED?
    {
      this.(status := ABANDONED, errorCode := code, errorMessage := message, completedAt := Some(now),
            version := version + 1, updatedAt := now)
    }
  }

  function NewIntent(round: Round, operation: Operation, commandID: ID, now: Time): (r: Result<Intent>)
    ensures r.Ok? ==> r.value.version == 1 && r.value.attemptCount == 0 && r.value.roundID == round.id
  {
    var _ :- Require(!Blank(commandID), Invalid);
    Ok(Intent("dispatch_" + commandID, round.id, round.taskID, round.executionID, round.workerID, commandID, operation,
              PENDING, 0, now, None, None, "", "", 1, now, now))
  }

  // ---------------------------------------------------------------- tasks

  datatype TaskStatus = CREATED | ASSIGNED | STARTING | RUNNING | WAITING_INPUT | INTERRUPTING
                      | INTERRUPTED | FINISHED | BROKEN | ARCHIVED {
    /** canReceiveRuntimeEvent, and isLegacyA2AActiveTask. */
    predicate Active() {
      STARTING? || RUNNING? || WAITING_INPUT? || INTERRUPTING?
    }

    /** isTaskTerminal. */
    predicate Ended() {
      FINISHED? || BROKEN? || INTERRUPTED? || ARCHIVED?
    }
  }

  datatype Agent = NO_AGENT | CODEX | CLAUDE | OTHER_AGENT {
    predicate Valid() {
      CODEX? || CLAUDE?
    }
  }

  datatype Task = Task(
    id: ID, status: TaskStatus, interruptDesired: bool, projectID: ID, agent: Agent, workerID: ID,
    worktreePath: string, agentSessionID: string, result: string, version: nat, updatedAt: Time)
  {
    predicate SameOrBefore(after: Task) {
      after == this || (after.id == id && version < after.version)
    }

    /** What every runtime transition keeps while a round is open. */
    predicate Runs(after: Task) {
      SameOrBefore(after) && after.workerID == workerID
    }

    function To(status: TaskStatus, now: Time): Task {
      this.(status := status, version := version + 1, updatedAt := now)
    }

    function Touch(now: Time): Task {
      this.(version := version + 1, updatedAt := now)
    }

    function WithSession(session: string): Task {
      if session != "" then this.(agentSessionID := session) else this
    }

    function AssignWorker(workerID: ID, agent: Agent, now: Time): (r: Result<Task>)
      ensures r.Ok? ==>
                SameOrBefore(r.value) && !status.Active() && r.value.status.ASSIGNED? && r.value.workerID == workerID
    {
      var _ :- Require(status.CREATED? || status.ASSIGNED?, InvalidTransition);
      var _ :- Require(!Blank(workerID), Invalid);
      var _ :- Require(this.agent.NO_AGENT? ==> agent.Valid(), Invalid);
      var _ :- Require(!this.agent.NO_AGENT? && !agent.NO_AGENT? ==> agent == this.agent, Conflict);
      Ok(this.(workerID := workerID, agent := if this.agent.NO_AGENT? then agent else this.agent).To(ASSIGNED, now))
    }

    function Edit(projectID: ID, agent: Agent, now: Time): (r: Result<Task>)
      ensures r.Ok? ==>
                SameOrBefore(r.value) && r.value.status == status && !status.Active() && r.value.workerID == workerID
    {
      var _ :- Require(status.CREATED? || status.ASSIGNED?, InvalidTransition);
      var _ :- Require(!Blank(projectID) && !agent.OTHER_AGENT?, Invalid);
      Ok(this.(projectID := projectID, agent := agent).Touch(now))
    }

    function Start(now: Time): (r: Result<Task>)
      ensures r.Ok? ==> Runs(r.value) && !status.Active() && r.value.status.STARTING?
    {
      var _ :- Require(status.ASSIGNED?, InvalidTransition);
      Ok(To(STARTING, now))
    }

    function Retry(now: Time): (r: Result<Task>)
      ensures r.Ok? ==> SameOrBefore(r.value) && status.Ended() && r.value.status.CREATED?
    {
      var _ :- Require(status.FINISHED? || status.BROKEN? || status.INTERRUPTED?, InvalidTransition);
      Ok(this.(status := CREATED, workerID := "", worktreePath := "", agentSessionID := "", result := "").Touch(now))
    }

    function AppendUserConversation(now: Time): (r: Result<Task>)
      ensures r.Ok? ==> Runs(r.value) && r.value.status == status && !status.Active()
    {
      var _ :- Require(status.FINISHED?, InvalidTransition);
      Ok(Touch(now))
    }

    function Continue(now: Time): (r: Result<Task>)
      ensures r.Ok? ==> Runs(r.value) && !status.Active() && r.value.status.STARTING?
    {
      var _ :- Require(status.FINISHED?, InvalidTransition);
      var _ :- Require(workerID != "" && worktreePath != "" && agentSessionID != "", Conflict);
      Ok(this.(result := "", interruptDesired := false).To(STARTING, now))
    }

    function MarkRunning(path: string, now: Time): (r: Result<Task>)
      ensures r.Ok? ==> Runs(r.value) && status.Active() && r.value.status.Active()
    {
      var _ :- Require(status.STARTING? || status.RUNNING? || status.WAITING_INPUT?, InvalidTransition);
      var _ :- Require(path == "" || worktreePath == "" || worktreePath == path, Conflict);
      var bound := if path != "" && worktreePath == "" then this.(worktreePath := path) else this;
      if status.STARTING? then Ok(bound.To(RUNNING, now))
      else if bound != this then Ok(bound.Touch(now))
      else Ok(this)
    }

    /** AppendLog, AppendConversation, RecordInteractionAnswered and RecordInteractionResolved. */
    function Record(now: Time): (r: Result<Task>)
      ensures r.Ok? ==> Runs(r.value) && status.Active() && r.value.status == status
    {
      var _ :- Require(status.Active(), InvalidTransition);
      Ok(Touch(now))
    }

    function WaitForInput(now: Time): (r: Result<Task>)
      ensures r.Ok? ==> Runs(r.value) && status.Active() && r.value.status.WAITING_INPUT?
    {
      var _ :- Require(status.RUNNING? || status.STARTING?, InvalidTransition);
      Ok(To(WAITING_INPUT, now))
    }

    function RequestInteraction(session: string, now: Time): (r: Result<Task>)
      ensures r.Ok? ==> Runs(r.value) && status.Active() && r.value.status.WAITING_INPUT?
    {
      var _ :- Require(status.RUNNING? || status.WAITING_INPUT?, InvalidTransition);
      Ok(WithSession(session).To(WAITING_INPUT, now))
    }

    function Resume(now: Time): (r: Result<Task>)
      ensures r.Ok? ==> Runs(r.value) && status.Active() && r.value.status.RUNNING?
    {
      var _ :- Require(status.WAITING_INPUT?, InvalidTransition);
      Ok(To(RUNNING, now))
    }

    function RequestInterrupt(now: Time): (r: Result<Task>)
      ensures r.Ok? ==> Runs(r.value) && status.Active() && r.value.status.INTERRUPTING?
    {
      var _ :- Require(status.RUNNING? || status.WAITING_INPUT? || status.STARTING?, InvalidTransition);
      Ok(this.(interruptDesired := true).To(INTERRUPTING, now))
    }

    function MarkInterrupted(now: Time): (r: Result<Task>)
      ensures r.Ok? ==> Runs(r.value) && status.Active() && r.value.status.INTERRUPTED?
    {
      var _ :- Require(status.Active(), InvalidTransition);
      Ok(To(INTERRUPTED, now))
    }

    function Complete(result: string, session: string, now: Time): (r: Result<Task>)
      ensures r.Ok? ==> Runs(r.value) && status.Active() && r.value.status.FINISHED?
    {
      var _ :- Require(status.RUNNING? || status.STARTING? || status.WAITING_INPUT?, InvalidTransition);
      var done := WithSession(session);
      Ok((if result != "" then done.(result := result) else done).To(FINISHED, now))
    }

    function Fail(reason: string, now: Time): (r: Result<Task>)
      ensures r.Ok? ==> Runs(r.value) && status.Active() && r.value.status.BROKEN?
    {
      var _ :- Require(status.Active(), InvalidTransition);
      Ok(this.(result := reason).To(BROKEN, now))
    }

    function RecordResult(result: string, session: string, now: Time): (r: Result<Task>)
      ensures r.Ok? ==> Runs(r.value) && status.Active() && r.value.status == status
    {
      var _ :- Require(status.Active(), InvalidTransition);
      Ok(WithSession(session).(result := result).Touch(now))
    }

    function RememberSession(session: string, now: Time): (r: Task)
      ensures Runs(r) && r.status == status
    {
      if session == "" || session == agentSessionID then this else this.(agentSessionID := session).Touch(now)
    }

    function Archive(now: Time): (r: Result<Task>)
      ensures r.Ok? ==>
                SameOrBefore(r.value) && !status.Active() && r.value.status.ARCHIVED? && r.value.workerID == workerID
    {
      var _ :- Require(status.CREATED? || status.FINISHED? || status.BROKEN? || status.INTERRUPTED?, InvalidTransition);
      Ok(To(ARCHIVED, now))
    }
  }

  function NewTask(id: ID, title: string, projectID: ID, agent: Agent, now: Time): (r: Result<Task>)
    ensures r.Ok? ==> r.value.id == id && r.value.status.CREATED? && r.value.version == 1
  {
    var _ :- Require(!Blank(id) && !Blank(title) && !Blank(projectID) && !agent.OTHER_AGENT?, Invalid);
    Ok(Task(id, CREATED, false, projectID, agent, "", "", "", "", 1, now))
  }

  // ---------------------------------------------------------------- workers

  datatype WorkerStatus = REGISTERED | ONLINE | OFFLINE | DISABLED

  /** bound lists the projects of a worker in SPECIFIC_PROJECTS mode. */
  datatype Worker = Worker(
    id: ID, status: WorkerStatus, agents: seq<Agent>, allProjects: bool, bound: seq<ID>, currentTaskIDs: seq<ID>,
    version: nat, updatedAt: Time)
  {
    /** workerCanRunTask and CanAcceptTask. */
    predicate CanAccept(agent: Agent, projectID: ID) {
      status.ONLINE? && agent in agents && (allProjects || projectID in bound)
    }

    function AssignTask(taskID: ID, now: Time): (r: Result<Worker>)
      ensures r.Ok? <==> !Blank(taskID)
      ensures r.Ok? ==> r.value.id == id && (r.value == this || version < r.value.version)
      ensures r.Ok? && NoDuplicates(currentTaskIDs) ==> NoDuplicates(r.value.currentTaskIDs)
      ensures r.Ok? ==> forall t :: t in r.value.currentTaskIDs <==> t in currentTaskIDs || t == taskID
    {
      var _ :- Require(!Blank(taskID), Invalid);
      if taskID in currentTaskIDs then Ok(this)
      else Ok(this.(currentTaskIDs := currentTaskIDs + [taskID], version := version + 1, updatedAt := now))
    }

    function ReleaseTask(taskID: ID, now: Time): (r: Worker)
      ensures r.id == id && (r == this || version < r.version)
      ensures NoDuplicates(currentTaskIDs) ==> NoDuplicates(r.currentTaskIDs)
      ensures NoDuplicates(currentTaskIDs) ==> forall t :: t in r.currentTaskIDs <==> t in currentTaskIDs && t != taskID
    {
      if taskID !in currentTaskIDs then this else
        var i := Index(currentTaskIDs, taskID);
        RemovedOnce(currentTaskIDs, i);
        this.(currentTaskIDs := currentTaskIDs[..i] + currentTaskIDs[i + 1..], version := version + 1, updatedAt := now)
    }
  }

  predicate NoDuplicates(s: seq<ID>) {
    forall i, j :: 0 <= i < j < |s| ==> s[i] != s[j]
  }

  function Index(s: seq<ID>, x: ID): (i: nat)
    requires x in s
    ensures i < |s| && s[i] == x
  {
    if s[0] == x then 0 else 1 + Index(s[1..], x)
  }

  /** Deleting one position of a list without duplicates deletes that element and nothing else. */
  lemma RemovedOnce(s: seq<ID>, i: nat)
    requires i < |s|
    ensures NoDuplicates(s) ==> NoDuplicates(s[..i] + s[i + 1..])
    ensures NoDuplicates(s) ==> forall t :: t in s[..i] + s[i + 1..] <==> t in s && t != s[i]
  {
    var rest := s[..i] + s[i + 1..];
    if NoDuplicates(s) {
      assert forall k :: 0 <= k < |rest| ==> rest[k] == s[if k < i then k else k + 1];
      forall t ensures t in rest <==> t in s && t != s[i] {
        if t in s && t != s[i] {
          var k :| 0 <= k < |s| && s[k] == t;
          assert rest[if k < i then k else k - 1] == t;
        }
      }
    }
  }

  // ---------------------------------------------------------------- interactions, logs, messages

  datatype InteractionKind = USER_INPUT | COMMAND_APPROVAL | FILE_APPROVAL | PERMISSION_APPROVAL

  datatype InteractionStatus = ASKED | ANSWERED | WITHDRAWN

  datatype Decision = NO_DECISION | APPROVE | APPROVE_FOR_SESSION | DENY | DECISION_CANCEL

  datatype Interaction = Interaction(
    id: ID, taskID: ID, kind: InteractionKind, status: InteractionStatus, agentSessionID: string,
    decision: Decision, message: string, payload: string, updatedAt: Time)

  /** "log_<round>_<event>" and "msg_<round>_<event>", or a fresh message id. */
  datatype RecordID = OfEvent(roundID: ID, eventID: ID) | OfCommand(id: ID)

  datatype Log = Log(id: RecordID, taskID: ID, stream: string, content: string, createdAt: Time)

  datatype Message = Message(id: RecordID, taskID: ID, role: string, content: string, createdAt: Time)
}
