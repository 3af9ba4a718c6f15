/** The Manager's store: pkg/store/a2a_memory.go and the task and worker tables of pkg/store/memory.go.
    Db is the content of all tables, the functions are the locked methods, and MemoryStore is the
    object whose methods are proved to compute them. */
module ManagerStore {
  import opened Wrappers
  import opened Domain
  import opened Events

  /** The payload hash of an inbox row is taken as the event itself. */
  datatype InboxRow = InboxRow(roundID: ID, executionID: ID, event: Event, projectedAt: Time) {
    function Sequence(): int {
      event.sequence
    }
  }

  type InboxKey = (ID, ID)

  datatype Db = Db(
    tasks: map<ID, Task>, workers: map<ID, Worker>, rounds: map<ID, Round>, intents: map<ID, Intent>,
    inbox: map<InboxKey, InboxRow>, interactions: map<ID, Interaction>, logs: seq<Log>, messages: seq<Message>)

  const EMPTY := Db(map[], map[], map[], map[], map[], map[], [], [])

  function Find<T>(table: map<ID, T>, id: ID): Option<T> {
    if id in table then Some(table[id]) else None
  }

  function Get<T>(table: map<ID, T>, id: ID): Result<T> {
    if id in table then Ok(table[id]) else Err(NotFound)
  }

  // ---------------------------------------------------------------- validation

  predicate TaskFresh(db: Db, task: Option<Task>, expected: nat) {
    task.Some? && expected > 0 ==> task.value.id in db.tasks && db.tasks[task.value.id].version == expected
  }

  predicate WorkerFresh(db: Db, worker: Option<Worker>, expected: nat) {
    worker.Some? && expected > 0 ==> worker.value.id in db.workers && db.workers[worker.value.id].version == expected
  }

  /** Another round of the same worker already holds this remote task. */
  predicate RemoteTaken(rounds: map<ID, Round>, round: Round) {
    exists id :: id in rounds && rounds[id].id != round.id && rounds[id].workerID == round.workerID
                 && rounds[id].a2aTaskID == round.a2aTaskID
  }

  function CheckRound(db: Db, round: Option<Round>, expected: nat): Result<()> {
    if round.None? then Ok(()) else
      var _ :- Require(round.value.id in db.rounds, NotFound);
      var _ :- Require(db.rounds[round.value.id].version == expected, ConcurrentModification);
      Require(round.value.a2aTaskID != "" ==> !RemoteTaken(db.rounds, round.value), Conflict)
  }

  function CheckIntent(db: Db, intent: Option<Intent>, expected: nat): Result<()> {
    if intent.None? then Ok(()) else
      var _ :- Require(intent.value.id in db.intents, NotFound);
      Require(db.intents[intent.value.id].version == expected, ConcurrentModification)
  }

  /** validateA2AOCCLocked. */
  function CheckVersions(db: Db, task: Option<Task>, expectedTask: nat, worker: Option<Worker>, expectedWorker: nat,
                         round: Option<Round>, expectedRound: nat,
                         intent: Option<Intent>, expectedIntent: nat): Result<()>
  {
    var _ :- Require(TaskFresh(db, task, expectedTask), ConcurrentModification);
    var _ :- Require(WorkerFresh(db, worker, expectedWorker), ConcurrentModification);
    var _ :- CheckRound(db, round, expectedRound);
    CheckIntent(db, intent, expectedIntent)
  }

  /** validateTaskInteractionOwnerLocked. */
  predicate OwnerKept(db: Db, interaction: Option<Interaction>) {
    interaction.Some? && interaction.value.id in db.interactions ==>
      db.interactions[interaction.value.id].taskID == interaction.value.taskID
  }

  predicate LogIDsFree(existing: seq<Log>, added: seq<Log>) {
    && (forall i, j :: 0 <= i < |existing| && 0 <= j < |added| ==> existing[i].id != added[j].id)
    && (forall i, j :: 0 <= i < j < |added| ==> added[i].id != added[j].id)
  }

  predicate MessageIDsFree(existing: seq<Message>, added: seq<Message>) {
    && (forall i, j :: 0 <= i < |existing| && 0 <= j < |added| ==> existing[i].id != added[j].id)
    && (forall i, j :: 0 <= i < j < |added| ==> added[i].id != added[j].id)
  }

  // ---------------------------------------------------------------- writing

  function Canceled(item: Interaction, now: Time): Interaction {
    item.(status := WITHDRAWN, decision := DECISION_CANCEL, updatedAt := now)
  }

  /** Cancel every pending interaction of a task. */
  function CancelPending(interactions: map<ID, Interaction>, taskID: ID, now: Time): map<ID, Interaction> {
    map id | id in interactions ::
      if interactions[id].taskID == taskID && interactions[id].status.ASKED? then Canceled(interactions[id], now)
      else interactions[id]
  }

  function PutTask(db: Db, task: Option<Task>): Db {
    if task.Some? then db.(tasks := db.tasks[task.value.id := task.value]) else db
  }

  function PutWorker(db: Db, worker: Option<Worker>): Db {
    if worker.Some? then db.(workers := db.workers[worker.value.id := worker.value]) else db
  }

  function PutRound(db: Db, round: Option<Round>): Db {
    if round.Some? then db.(rounds := db.rounds[round.value.id := round.value]) else db
  }

  function PutIntent(db: Db, intent: Option<Intent>): Db {
    if intent.Some? then db.(intents := db.intents[intent.value.id := intent.value]) else db
  }

  function PutInteraction(interactions: map<ID, Interaction>, interaction: Option<Interaction>): map<ID, Interaction> {
    if interaction.Some? then interactions[interaction.value.id := interaction.value] else interactions
  }

  /** applyA2ACommonLocked, without the event and outbox tables. */
  function Common(db: Db, task: Option<Task>, worker: Option<Worker>, interaction: Option<Interaction>,
                  messages: seq<Message>, logs: seq<Log>, cancelPending: bool): Db
  {
    var put := PutInteraction(db.interactions, interaction);
    Db(if task.Some? then db.tasks[task.value.id := task.value] else db.tasks,
       if worker.Some? then db.workers[worker.value.id := worker.value] else db.workers,
       db.rounds, db.intents, db.inbox,
       if cancelPending && task.Some? then CancelPending(put, task.value.id, task.value.updatedAt) else put,
       db.logs + logs, db.messages + messages)
  }

  // ---------------------------------------------------------------- CommitA2AProjection

  datatype ProjectionCommit = ProjectionCommit(
    inbox: Option<InboxRow>, task: Task, expectedTask: nat, worker: Option<Worker>, expectedWorker: nat,
    round: Round, expectedRound: nat, intent: Option<Intent>, expectedIntent: nat,
    interaction: Option<Interaction>, logs: seq<Log>, messages: seq<Message>, cancelPending: bool)

  datatype Disposition = APPLIED | DUPLICATE

  predicate SequenceTaken(inbox: map<InboxKey, InboxRow>, row: InboxRow) {
    exists k :: k in inbox && inbox[k].executionID == row.executionID && inbox[k].Sequence() == row.Sequence()
                && (inbox[k].roundID != row.roundID || inbox[k].event.id != row.event.id)
  }

  /** The idempotence gate on the event inbox. */
  function CheckInbox(db: Db, c: ProjectionCommit): Result<Disposition> {
    if c.inbox.None? then Ok(APPLIED) else
      var row := c.inbox.value;
      var key := (row.roundID, row.event.id);
      if key in db.inbox then
        if db.inbox[key].event != row.event then Err(Conflict)
        else if c.intent.Some? then Err(ConcurrentModification)
        else Ok(DUPLICATE)
      else
        var _ :- Require(row.executionID != "" && row.executionID == c.round.executionID, Conflict);
        var _ :- Require(!SequenceTaken(db.inbox, row), Conflict);
        Ok(APPLIED)
  }

  /** The tables after an applied projection. */
  function Projected(db: Db, c: ProjectionCommit): Db {
    var common := Common(db, Some(c.task), c.worker, c.interaction, c.messages, c.logs, c.cancelPending);
    var written := PutIntent(PutRound(common, Some(c.round)), c.intent);
    if c.inbox.Some? then written.(inbox := db.inbox[(c.inbox.value.roundID, c.inbox.value.event.id) := c.inbox.value])
    else written
  }

  function CommitProjection(db: Db, c: ProjectionCommit): Result<(Db, Disposition)> {
    var gate :- CheckInbox(db, c);
    if gate.DUPLICATE? then Ok((db, DUPLICATE)) else
      var _ :- CheckVersions(db, Some(c.task), c.expectedTask, c.worker, c.expectedWorker,
                             Some(c.round), c.expectedRound, c.intent, c.expectedIntent);
      var _ :- Require(OwnerKept(db, c.interaction), Conflict);
      var _ :- Require(MessageIDsFree(db.messages, c.messages) && LogIDsFree(db.logs, c.logs), Conflict);
      Ok((Projected(db, c), APPLIED))
  }

  // ---------------------------------------------------------------- CommitA2ACommand

  datatype CommandCommit = CommandCommit(
    task: Task, expectedTask: nat, worker: Option<Worker>, expectedWorker: nat, round: Round, createRound: bool,
    intent: Intent, interaction: Option<Interaction>, messages: seq<Message>, cancelPending: bool)

  predicate TurnTaken(rounds: map<ID, Round>, round: Round) {
    exists id :: id in rounds && rounds[id].taskID == round.taskID && rounds[id].attempt == round.attempt
                 && rounds[id].turn == round.turn
  }

  predicate CommandTaken(intents: map<ID, Intent>, commandID: ID) {
    exists id :: id in intents && intents[id].commandID == commandID
  }

  /** validateA2ACommitLocked after the version checks. */
  function CheckCommand(db: Db, c: CommandCommit): Result<()> {
    var _ :- Require(c.intent.roundID == c.round.id && c.intent.taskID == c.round.taskID
                     && (c.intent.operation.CreatesRound() ==> c.intent.commandID == c.round.commandID), Conflict);
    var _ :- Require(c.createRound ==> c.round.id !in db.rounds && !TurnTaken(db.rounds, c.round), Conflict);
    var _ :- Require(!c.createRound ==> c.round.id in db.rounds && db.rounds[c.round.id].taskID == c.round.taskID
                                        && db.rounds[c.round.id].executionID == c.round.executionID, Conflict);
    Require(c.intent.id !in db.intents && !CommandTaken(db.intents, c.intent.commandID), Conflict)
  }

  function Commanded(db: Db, c: CommandCommit): Db {
    var common := Common(db, Some(c.task), c.worker, c.interaction, c.messages, [], c.cancelPending);
    PutIntent(PutRound(common, if c.createRound then Some(c.round) else None), Some(c.intent))
  }

  function CommitCommand(db: Db, c: CommandCommit): Result<Db> {
    var _ :- CheckVersions(db, Some(c.task), c.expectedTask, c.worker, c.expectedWorker, None, 0, None, 0);
    var _ :- CheckCommand(db, c);
    var _ :- Require(OwnerKept(db, c.interaction), Conflict);
    Ok(Commanded(db, c))
  }

  // ---------------------------------------------------------------- the remaining versioned writes

  function UpdateRound(db: Db, round: Round, expected: nat): Result<Db> {
    var _ :- Require(round.id in db.rounds, NotFound);
    var _ :- Require(db.rounds[round.id].version == expected, ConcurrentModification);
    Ok(PutRound(db, Some(round)))
  }

  function UpdateIntent(db: Db, intent: Intent, expected: nat): Result<Db> {
    var _ :- CheckIntent(db, Some(intent), expected);
    Ok(PutIntent(db, Some(intent)))
  }

  function CommitDispatchResult(db: Db, round: Round, expectedRound: nat, intent: Intent,
                                expectedIntent: nat): Result<Db> {
    var _ :- CheckVersions(db, None, 0, None, 0, Some(round), expectedRound, Some(intent), expectedIntent);
    Ok(PutIntent(PutRound(db, Some(round)), Some(intent)))
  }

  predicate HasRound(rounds: map<ID, Round>, taskID: ID) {
    exists id :: id in rounds && rounds[id].taskID == taskID
  }

  /** CommitA2AMigrationFailure; false when the task has a round and nothing was written. */
  function CommitMigration(db: Db, task: Task, expectedTask: nat, worker: Option<Worker>,
                           expectedWorker: nat): Result<(Db, bool)> {
    var _ :- Require(worker.Some? ==> task.workerID == worker.value.id, Conflict);
    if HasRound(db.rounds, task.id) then Ok((db, false)) else
      var _ :- CheckVersions(db, Some(task), expectedTask, worker, expectedWorker, None, 0, None, 0);
      Ok((Common(db, Some(task), worker, None, [], [], true), true))
  }

  // ---------------------------------------------------------------- DeleteTask

  function LogsWithout(logs: seq<Log>, taskID: ID): seq<Log> {
    if logs == [] then [] else
      (if logs[0].taskID == taskID then [] else [logs[0]]) + LogsWithout(logs[1..], taskID)
  }

  function MessagesWithout(messages: seq<Message>, taskID: ID): seq<Message> {
    if messages == [] then [] else
      (if messages[0].taskID == taskID then [] else [messages[0]]) + MessagesWithout(messages[1..], taskID)
  }

  /** The row goes with its round, and with its execution. */
  predicate RowDeleted(rounds: map<ID, Round>, taskID: ID, row: InboxRow) {
    exists id :: id in rounds && rounds[id].taskID == taskID
                 && (id == row.roundID || rounds[id].executionID == row.executionID)
  }

  function DeleteTask(db: Db, id: ID): Result<Db> {
    var _ :- Require(id in db.tasks, NotFound);
    Ok(Db(
      db.tasks - {id},
      db.workers,
      map r | r in db.rounds && db.rounds[r].taskID != id :: db.rounds[r],
      map i | i in db.intents && db.intents[i].taskID != id :: db.intents[i],
      map k | k in db.inbox && !RowDeleted(db.rounds, id, db.inbox[k]) :: db.inbox[k],
      map i | i in db.interactions && db.interactions[i].taskID != id :: db.interactions[i],
      LogsWithout(db.logs, id),
      MessagesWithout(db.messages, id)))
  }

  // ---------------------------------------------------------------- queries

  /** The order of sortA2ARounds on one task's rounds; attempt and turn decide. */
  predicate Later(a: Round, b: Round) {
    a.attempt > b.attempt || (a.attempt == b.attempt && a.turn > b.turn)
  }
}
