/** Projection of one remote update: manager/internal/app/a2a_projection.go.
    A call first reads records and then commits; Plan is everything between the reads and the commit. */
module Projection {
  import opened Wrappers
  import opened Domain
  import opened Events
  import opened ManagerStore

  /** The copies a call has read, each possibly at another moment. */
  datatype Loaded = Loaded(round: Option<Round>, intent: Option<Intent>, seen: Option<InboxRow>, task: Option<Task>,
                           worker: Option<Worker>, interaction: Option<Interaction>)

  function Read<T>(copy: Option<T>): Result<T> {
    if copy.Some? then Ok(copy.value) else Err(NotFound)
  }

  // ---------------------------------------------------------------- terminal pairing

  /** validateA2ATerminalPair. */
  function CheckTerminalPair(round: Round, update: Update): Result<()> {
    var eventTerminal := update.event.Some? && update.event.value.kind.EXECUTION_TERMINAL?;
    var statusTerminal := update.status.Terminal();
    if !eventTerminal && !statusTerminal then Ok(())
    else if !statusTerminal then Err(Conflict)
    else if !eventTerminal then Require(update.status.REJECTED? && round.lastSequence == 0
                                        && update.event.None?, Conflict)
    else Require(TerminalStatus(update.event) == update.status, Conflict)
  }

  // ---------------------------------------------------------------- identity and admission

  predicate Associated(intent: Intent, round: Round) {
    && intent.roundID == round.id && intent.taskID == round.taskID
    && intent.executionID == round.executionID && intent.workerID == round.workerID
  }

  /** Bind the remote identity on the first update of a dispatch and hold later updates to it. */
  function Bind(round: Round, intent: Option<Intent>, update: Update, now: Time): Result<Round> {
    var bound :- if round.Bound() then Ok(round)
                 else if intent.None? then Err(Conflict)
                 else round.BindRemote(update.taskID, update.contextID, NONE, now);
    var _ :- Require(update.taskID == bound.a2aTaskID && update.contextID == bound.contextID, Conflict);
    Ok(bound)
  }

  /** sequence is the cursor after the update; news is the event unless it is a replay. */
  datatype Admission = Admission(sequence: int, inbox: Option<InboxRow>, news: Option<Event>)

  predicate InScope(round: Round, event: Event) {
    event.scope == Scope(round.taskID, round.executionID, round.attempt, round.turn, round.workerID)
  }

  function Admit(round: Round, seen: Option<InboxRow>, update: Update, now: Time): Result<Admission> {
    if update.event.None? then
      var _ :- Require(update.sequence <= round.lastSequence, SequenceGap);
      Ok(Admission(round.lastSequence, None, None))
    else
      var event := update.event.value;
      var _ :- Require(event.Valid(), Invalid);
      if seen.Some? then
        var _ :- Require(seen.value.event == event, Conflict);
        Ok(Admission(round.lastSequence, None, None))
      else
        var _ :- Require(InScope(round, event), Conflict);
        var _ :- Require(event.sequence == round.lastSequence + 1, SequenceGap);
        Ok(Admission(event.sequence, Some(InboxRow(round.id, round.executionID, event, now)), Some(event)))
  }

  // ---------------------------------------------------------------- business projection

  datatype Business = Business(task: Task, round: Round, interaction: Option<Interaction>, logs: seq<Log>,
                               messages: seq<Message>)

  predicate SameButDiagnosis(before: Round, after: Round) {
    after == before.(errorCode := after.errorCode, errorMessage := after.errorMessage, retryable := after.retryable)
  }

  /** updateA2ARoundDiagnostic. */
  function Diagnose(round: Round, event: Event): (r: Round)
    ensures SameButDiagnosis(round, r)
  {
    var code := Trim(PayloadString(event.payload, ["errorCode"]));
    var message := Trim(PayloadString(event.payload, ["message"]));
    round.(errorCode := if code != "" then code else round.errorCode,
           errorMessage := if message != "" then message else round.errorMessage,
           retryable := if event.payload.retryable.Some? then event.payload.retryable.value else round.retryable)
  }

  function StreamOf(event: Event): string {
    var stream := PayloadString(event.payload, ["stream"]);
    if stream == "" then "system" else stream
  }

  function RoleOf(event: Event): string {
    var role := PayloadString(event.payload, ["role"]);
    if role == "" then "assistant" else role
  }

  function ContentOf(event: Event): string {
    PayloadString(event.payload, ["content", "text"])
  }

  function Ask(task: Task, event: Event, existing: Option<Interaction>, now: Time): (r: Result<(Task, Interaction)>)
    ensures r.Ok? ==> task.Runs(r.value.0) && task.status.Active() && r.value.0.status.Active()
    ensures r.Ok? ==> existing.None? && r.value.1.taskID == task.id && r.value.1.status.ASKED?
  {
    var id := InteractionID(event);
    var kind := KindFromText(PayloadString(event.payload, ["kind"]));
    var _ :- Require(id != "" && kind.Some?, Conflict);
    var _ :- Require(existing.None?, Conflict);
    var _ :- Require(!Blank(id) && !Blank(task.id), Invalid);
    var asked :- task.RequestInteraction(event.Session(), now);
    Ok((asked, Interaction(id, task.id, kind.value, ASKED, event.Session(), NO_DECISION, "", "", now)))
  }

  function Resolve(task: Task, existing: Option<Interaction>, now: Time): (r: Result<(Task, Interaction)>)
    ensures r.Ok? ==> task.Runs(r.value.0) && task.status.Active() && r.value.0.status.Active()
    ensures r.Ok? ==>
              existing.Some? && r.value.1.taskID == task.id && r.value.1.id == existing.value.id
              && r.value.1.status.ANSWERED?
  {
    var interaction :- AsProjection(Read(existing));
    var _ :- Require(interaction.taskID == task.id, Conflict);
    var recorded :- task.Record(now);
    var resumed := if recorded.status.WAITING_INPUT? then recorded.Resume(now).value else recorded;
    Ok((resumed, interaction.(status := ANSWERED, updatedAt := now)))
  }

  /** projectA2AEvent. */
  function ProjectEvent(task: Task, round: Round, event: Event, existing: Option<Interaction>,
                        now: Time): Result<Business> {
    match event.kind
    case EXECUTION_ACCEPTED => Ok(Business(task, round, None, [], []))
    case WORKSPACE_READY =>
      var _ :- Require(!Blank(event.Worktree()), Conflict);
      var running :- task.MarkRunning(event.Worktree(), now);
      Ok(Business(running, round, None, [], []))
    case AGENT_SESSION_STARTED | AGENT_SESSION_UPDATED =>
      var _ :- Require(!Blank(event.Session()), Conflict);
      Ok(Business(task.RememberSession(event.Session(), now), round, None, [], []))
    case LOG_CHUNK =>
      var logged :- task.Record(now);
      Ok(Business(logged, round, None,
                  [Log(OfEvent(round.id, event.id), task.id, StreamOf(event), ContentOf(event), event.occurredAt)], []))
    case CONVERSATION_MESSAGE =>
      var said :- task.Record(now);
      Ok(Business(said, round, None, [],
                  [Message(OfEvent(round.id, event.id), task.id, RoleOf(event), ContentOf(event), event.occurredAt)]))
    case INTERACTION_REQUESTED =>
      var asked :- Ask(task, event, existing, now);
      Ok(Business(asked.0, round, Some(asked.1), [], []))
    case INTERACTION_RESOLVED =>
      var resolved :- Resolve(task, existing, now);
      Ok(Business(resolved.0, round, Some(resolved.1), [], []))
    case RESULT_UPDATED =>
      var recorded :- task.RecordResult(PayloadString(event.payload, ["result", "content"]), event.Session(), now);
      Ok(Business(recorded, round, None, [], []))
    case EXECUTION_DIAGNOSTIC =>
      var diagnosed := Diagnose(round, event);
      var logged :- task.Record(now);
      Ok(Business(logged, diagnosed, None,
                  [Log(OfEvent(round.id, event.id), task.id, "system",
                       FormatDiagnostic(diagnosed.errorCode, diagnosed.errorMessage), event.occurredAt)], []))
    case EXECUTION_TERMINAL =>
      var status := TerminalStatus(Some(event));
      Ok(Business(task, if status.FAILED? || status.REJECTED? then Diagnose(round, event) else round, None, [], []))
  }

  function FailureReason(round: Round, status: RemoteStatus, event: Option<Event>): string {
    var reason := FormatDiagnostic(round.errorCode, round.errorMessage);
    var fallback := PayloadOf(event, ["message", "error", "errorCode"]);
    if reason != "" then reason
    else if fallback != "" then fallback
    else if status.FAILED? then "FAILED" else "REJECTED"
  }

  /** applyA2AStatus. */
  function ApplyStatus(task: Task, round: Round, observed: RemoteStatus, event: Option<Event>,
                       now: Time): Result<Task> {
    var status := if observed.Known() then observed else TerminalStatus(event);
    match status
    case WORKING =>
      if task.status.STARTING? then
        task.MarkRunning(if event.Some?
                         && event.value.Worktree() != "" then event.value.Worktree() else task.worktreePath, now)
      else if task.status.WAITING_INPUT? then task.Resume(now)
      else Ok(task)
    case INPUT_REQUIRED | AUTH_REQUIRED =>
      if task.status.RUNNING? || task.status.STARTING? then task.WaitForInput(now) else Ok(task)
    case COMPLETED =>
      if task.status.Ended() then Ok(task) else task.Complete(PayloadOf(event, ["result", "content"]), SessionOf(event),
                                                              now)
    case FAILED | REJECTED =>
      if task.status.Ended() then Ok(task) else task.Fail(FailureReason(round, status, event), now)
    case CANCELED =>
      if task.status.Ended() then Ok(task) else task.MarkInterrupted(now)
    case _ => Ok(task)
  }

  // ---------------------------------------------------------------- applyA2ARemoteUpdate

  /** From the round and inbox copies to the advanced round: lines 52 to 141. */
  datatype Advanced = Advanced(round: Round, admission: Admission)

  function Advance(round: Round, intent: Option<Intent>, seen: Option<InboxRow>, update: Update,
                   now: Time): Result<Advanced> {
    var _ :- Require(!Blank(update.taskID) && !Blank(update.contextID), Conflict);
    var _ :- Require(intent.Some? ==> Associated(intent.value, round), Conflict);
    var bound :- Bind(round, intent, update, now);
    var _ :- CheckTerminalPair(bound, update);
    var admission :- Admit(bound, seen, update, now);
    var observed :- bound.Observe(update.status, admission.sequence, !update.status.NONE?, now);
    Ok(Advanced(observed, admission))
  }

  /** From the task and interaction copies to the projected business records: lines 142 to 158. */
  function Conduct(advanced: Advanced, task: Task, interaction: Option<Interaction>, status: RemoteStatus,
                   now: Time): Result<Business> {
    var news := advanced.admission.news;
    var business :- if news.Some? then ProjectEvent(task, advanced.round, news.value, interaction, now)
                    else Ok(Business(task, advanced.round, None, [], []));
    var after :- ApplyStatus(business.task, business.round, status, news, now);
    Ok(business.(task := after))
  }

  /** dispatched says that the update answers a dispatch, whose intent is then required. */
  function Plan(loaded: Loaded, dispatched: bool, update: Update, now: Time): Result<ProjectionCommit> {
    var round :- AsProjection(Read(loaded.round));
    var _ :- AsProjection(Require(dispatched == loaded.intent.Some?, NotFound));
    var advanced :- AsProtocol(Advance(round, loaded.intent, loaded.seen, update, now));
    var task :- AsProjection(Read(loaded.task));
    var business :- AsProtocol(Conduct(advanced, task, loaded.interaction, update.status, now));
    var ended := business.task.status.Ended();
    var worker :- if ended then AsProjection(Read(loaded.worker)) else Ok(Worker("", OFFLINE, [], false, [], [], 0, 0));
    Ok(ProjectionCommit(
      advanced.admission.inbox, business.task, task.version,
      if ended then Some(worker.ReleaseTask(task.id, now)) else None, if ended then worker.version else 0,
      business.round, round.version,
      if loaded.intent.Some? then Some(loaded.intent.value.Complete(now)) else None,
      if loaded.intent.Some? then loaded.intent.value.version else 0,
      business.interaction, business.logs, business.messages, ended))
  }

  // ---------------------------------------------------------------- failA2ARoundWithIntent

  /** Nothing to do: the round already ended with this error. */
  predicate AlreadyFailed(round: Round, code: string) {
    round.completedAt.Some? && round.errorCode == code
  }

  function PlanFailure(loaded: Loaded, dispatched: bool, code: string, message: string,
                       now: Time): Result<ProjectionCommit> {
    var round :- Read(loaded.round);
    var task :- Read(loaded.task);
    var failed :- if task.status.Ended() then Ok(task) else task.Fail(code + ": " + message, now);
    var worker :- Read(loaded.worker);
    var _ :- Require(dispatched == loaded.intent.Some?, NotFound);
    Ok(ProjectionCommit(
      None, failed, task.version, Some(worker.ReleaseTask(task.id, now)), worker.version,
      round.(remoteStatus := FAILED).SetError(code, message, now), round.version,
      if loaded.intent.Some? then Some(loaded.intent.value.Fail(code, message, now)) else None,
      if loaded.intent.Some? then loaded.intent.value.version else 0,
      None, [], [], true))
  }

  // ---------------------------------------------------------------- what a plan does

  lemma BindKeeps(round: Round, intent: Option<Intent>, update: Update, now: Time)
    requires Bind(round, intent, update, now).Ok?
    ensures var bound := Bind(round, intent, update, now).value;
            && (bound == round || round.Before(bound)) && bound.lastSequence == round.lastSequence
            && bound.remoteStatus == round.remoteStatus && bound.completedAt == round.completedAt
            && bound.errorCode == round.errorCode && bound.errorMessage == round.errorMessage
            && bound.retryable == round.retryable
  {
  }

  /** The cursor moves by one with a new inbox row, and not at all without one. */
  lemma AdvanceMovesByOne(round: Round, intent: Option<Intent>, seen: Option<InboxRow>, update: Update, now: Time)
    requires Advance(round, intent, seen, update, now).Ok?
    ensures var a := Advance(round, intent, seen, update, now).value;
            && round.Before(a.round)
            && (a.admission.inbox.Some? <==> a.admission.news.Some?)
            && (a.admission.inbox.None? ==> a.round.lastSequence == round.lastSequence)
            && (a.admission.inbox.Some? ==>
                  var row := a.admission.inbox.value;
                  && row.roundID == round.id && row.executionID == round.executionID
                  && row.Sequence() == round.lastSequence + 1 == a.round.lastSequence
                  && update.event == Some(row.event) && a.admission.news == update.event)
  {
    BindKeeps(round, intent, update, now);
  }

  lemma ProjectEventKeepsTask(task: Task, round: Round, event: Event, existing: Option<Interaction>, now: Time)
    requires ProjectEvent(task, round, event, existing, now).Ok?
    ensures var b := ProjectEvent(task, round, event, existing, now).value;
            && task.Runs(b.task) && (b.task.status.Active() <==> task.status.Active())
            && (!task.status.Active() ==> b.task.status == task.status)
  {
  }

  lemma PlainEventKeepsRound(task: Task, round: Round, event: Event, existing: Option<Interaction>, now: Time)
    requires ProjectEvent(task, round, event, existing, now).Ok? && !event.kind.EXECUTION_DIAGNOSTIC?
             && !event.kind.EXECUTION_TERMINAL?
    ensures ProjectEvent(task, round, event, existing, now).value.round == round
  {
  }

  lemma ProjectEventKeepsRound(task: Task, round: Round, event: Event, existing: Option<Interaction>, now: Time)
    requires ProjectEvent(task, round, event, existing, now).Ok?
    ensures SameButDiagnosis(round, ProjectEvent(task, round, event, existing, now).value.round)
  {
    if !event.kind.EXECUTION_DIAGNOSTIC? && !event.kind.EXECUTION_TERMINAL? {
      PlainEventKeepsRound(task, round, event, existing, now);
    }
  }

  /** An event keeps the task's activity, identity and worker, and of the round everything but its diagnosis. */
  lemma ProjectEventKeeps(task: Task, round: Round, event: Event, existing: Option<Interaction>, now: Time)
    requires ProjectEvent(task, round, event, existing, now).Ok?
    ensures var b := ProjectEvent(task, round, event, existing, now).value;
            && task.Runs(b.task) && (b.task.status.Active() <==> task.status.Active())
            && (!task.status.Active() ==> b.task.status == task.status)
            && SameButDiagnosis(round, b.round)
  {
    ProjectEventKeepsTask(task, round, event, existing, now);
    ProjectEventKeepsRound(task, round, event, existing, now);
  }

  /** A question is recorded exactly when it has an unused name and a known kind and the task is at work; it then waits
      for its answer. */
  lemma AskIff(task: Task, event: Event, existing: Option<Interaction>, now: Time)
    ensures var id, kind := InteractionID(event), KindFromText(PayloadString(event.payload, ["kind"]));
            Ask(task, event, existing, now).Ok? <==>
              && !Blank(id) && kind.Some? && existing.None? && !Blank(task.id)
              && (task.status.RUNNING? || task.status.WAITING_INPUT?)
    ensures Ask(task, event, existing, now).Ok? ==>
              var (asked, question) := Ask(task, event, existing, now).value;
              && asked.status.WAITING_INPUT? && question.id == InteractionID(event) && question.taskID == task.id
              && question.status.ASKED?
              && Some(question.kind) == KindFromText(PayloadString(event.payload, ["kind"]))
  {
  }

  /** A resolution is recorded exactly when the question exists, is the task's own and the task is active; a waiting
      task runs again. */
  lemma ResolveIff(task: Task, existing: Option<Interaction>, now: Time)
    ensures Resolve(task, existing, now).Ok? <==>
              existing.Some? && existing.value.taskID == task.id && task.status.Active()
    ensures Resolve(task, existing, now).Ok? ==>
              var (resumed, answered) := Resolve(task, existing, now).value;
              && resumed.status == (if task.status.WAITING_INPUT? then RUNNING else task.status)
              && answered == existing.value.(status := ANSWERED, updatedAt := now)
  {
  }

  lemma ApplyStatusKeeps(task: Task, round: Round, observed: RemoteStatus, event: Option<Event>, now: Time)
    requires ApplyStatus(task, round, observed, event, now).Ok?
    ensures task.Runs(ApplyStatus(task, round, observed, event, now).value)
  {
  }

  /** The task status that a known remote status leads to, or None where the task refuses it. */
  function NextStatus(status: TaskStatus, remote: RemoteStatus): Option<TaskStatus> {
    match remote
    case WORKING => Some(if status.STARTING? || status.WAITING_INPUT? then RUNNING else status)
    case INPUT_REQUIRED | AUTH_REQUIRED => Some(if status.STARTING? || status.RUNNING? then WAITING_INPUT else status)
    case COMPLETED =>
      if status.Ended() then Some(status) else if status.Active() && !status.INTERRUPTING? then Some(FINISHED) else None
    case FAILED | REJECTED => if status.Ended() then Some(status) else if status.Active() then Some(BROKEN) else None
    case CANCELED => if status.Ended() then Some(status) else if status.Active() then Some(INTERRUPTED) else None
    case _ => Some(status)
  }

  /** A known status moves the task as the table says, and is refused exactly where the table has no entry or a first
      WORKING names another worktree than the task's. */
  lemma StatusFollowsTable(task: Task, round: Round, remote: RemoteStatus, event: Option<Event>, now: Time)
    requires remote.Known()
    ensures var r, next := ApplyStatus(task, round, remote, event, now), NextStatus(task.status, remote);
            var path := if event.Some? then event.value.Worktree() else "";
            && (r.Ok? <==>
                  next.Some? && !(remote.WORKING? && task.status.STARTING? && path != "" && task.worktreePath != ""
                                  && path != task.worktreePath))
            && (r.Ok? ==> r.value.status == next.value)
  {
  }

  lemma ConductKeeps(advanced: Advanced, task: Task, interaction: Option<Interaction>, status: RemoteStatus, now: Time)
    requires Conduct(advanced, task, interaction, status, now).Ok?
    ensures var b := Conduct(advanced, task, interaction, status, now).value;
            && task.Runs(b.task)
            && SameButDiagnosis(advanced.round, b.round)
  {
    var news := advanced.admission.news;
    if news.Some? {
      ProjectEventKeeps(task, advanced.round, news.value, interaction, now);
      var b := ProjectEvent(task, advanced.round, news.value, interaction, now).value;
      ApplyStatusKeeps(b.task, b.round, status, news, now);
    } else {
      ApplyStatusKeeps(task, advanced.round, status, news, now);
    }
  }

  /** What a planned projection writes, relative to the copies it read. */
  ghost predicate Writes(loaded: Loaded, c: ProjectionCommit) {
    && loaded.round.Some? && loaded.task.Some?
    && c.expectedRound == loaded.round.value.version && loaded.round.value.Before(c.round)
    && c.expectedTask == loaded.task.value.version && loaded.task.value.Runs(c.task)
    && (c.intent.Some? <==> loaded.intent.Some?)
    && (c.intent.Some? ==>
          c.expectedIntent == loaded.intent.value.version && loaded.intent.value.Before(c.intent.value))
    && (c.inbox.None? ==> c.round.lastSequence == loaded.round.value.lastSequence)
    && (c.inbox.Some? ==> Extends(loaded.round.value, c.round, c.inbox.value))
  }

  /** The row is the next one of the round's execution, and the cursor now stands on it. */
  predicate Extends(before: Round, after: Round, row: InboxRow) {
    && row.roundID == before.id && row.executionID == before.executionID
    && row.Sequence() == before.lastSequence + 1 == after.lastSequence
  }

  lemma PlanWrites(loaded: Loaded, dispatched: bool, update: Update, now: Time)
    requires Plan(loaded, dispatched, update, now).Ok?
    ensures Writes(loaded, Plan(loaded, dispatched, update, now).value)
  {
    var round, task := loaded.round.value, loaded.task.value;
    AdvanceMovesByOne(round, loaded.intent, loaded.seen, update, now);
    var advanced := Advance(round, loaded.intent, loaded.seen, update, now).value;
    ConductKeeps(advanced, task, loaded.interaction, update.status, now);
  }

  lemma PlanFailureWrites(loaded: Loaded, dispatched: bool, code: string, message: string, now: Time)
    requires PlanFailure(loaded, dispatched, code, message, now).Ok?
    ensures Writes(loaded, PlanFailure(loaded, dispatched, code, message, now).value)
  {
  }
}
