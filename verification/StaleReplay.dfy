/** One live round is not kept by every remote update: replaying the terminal event of an earlier turn ends a
    task whose next turn is running. */
module StaleReplay {
  import opened Wrappers
  import opened Domain
  import opened Events
  import opened ManagerStore
  import opened Projection
  import opened Service
  import opened ManagerRuns
  import opened TaskInvariants
  import opened ManagerInvariants

  /** The update that hands an already recorded terminal event to its round again. */
  function Replay(round: Round, row: InboxRow): Update {
    Update(round.a2aTaskID, round.contextID, round.remoteStatus, row.Sequence(), Some(row.event))
  }

  function ReplayFlight(db: Db, id: ID, row: InboxRow): Flight
    requires Placed(db, id) && db.rounds[id].workerID in db.workers
  {
    var round := db.rounds[id];
    Flight(Remote(id, None, Replay(round, row)),
           Copies(Loaded(Some(round), None, Some(row), Some(db.tasks[round.taskID]), Some(db.workers[round.workerID]),
                         Find(db.interactions, InteractionID(row.event))), None, []))
  }

  /** The round is over, its terminal event is recorded, and its task is active again in a later round. */
  ghost predicate Superseded(db: Db, id: ID, row: InboxRow) {
    && Placed(db, id) && db.rounds[id].workerID in db.workers
    && var round := db.rounds[id];
    && round.Bound() && !Blank(round.a2aTaskID) && !Blank(round.contextID) && round.remoteStatus.Terminal()
    && !RemoteTaken(db.rounds, round)
    && (id, row.event.id) in db.inbox && db.inbox[(id, row.event.id)] == row
    && row.event.Valid() && TerminalStatus(Some(row.event)) == round.remoteStatus
    && db.tasks[round.taskID].status.Active() && !db.tasks[round.taskID].status.INTERRUPTING? && !Top(db.rounds, id)
  }

  lemma ReplayAdvances(round: Round, row: InboxRow, now: Time)
    requires round.Bound() && !Blank(round.a2aTaskID) && !Blank(round.contextID) && round.remoteStatus.Terminal()
    requires row.event.Valid() && TerminalStatus(Some(row.event)) == round.remoteStatus
    ensures Advance(round, None, Some(row), Replay(round, row), now).Ok?
    ensures var a := Advance(round, None, Some(row), Replay(round, row), now).value;
            && a.admission == Admission(round.lastSequence, None, None)
            && a.round.id == round.id && a.round.workerID == round.workerID && a.round.a2aTaskID == round.a2aTaskID
  {
  }

  lemma ReplayEnds(task: Task, round: Round, status: RemoteStatus, now: Time)
    requires status.Terminal() && task.status.Active() && !task.status.INTERRUPTING?
    ensures var b := Conduct(Advanced(round, Admission(round.lastSequence, None, None)), task, None, status, now);
            && b.Ok? && b.value.task.id == task.id && b.value.task.status.Ended()
            && b.value.round == round && b.value.interaction.None? && b.value.logs == [] && b.value.messages == []
  {
  }

  lemma ConductIgnoresInteraction(advanced: Advanced, task: Task, interaction: Option<Interaction>,
                                  status: RemoteStatus, now: Time)
    requires advanced.admission.news.None?
    ensures Conduct(advanced, task, interaction, status, now) == Conduct(advanced, task, None, status, now)
  {
  }

  lemma ReplayIsPlanned(db: Db, id: ID, row: InboxRow, now: Time)
    requires Superseded(db, id, row)
    ensures var round := db.rounds[id];
            var plan := Plan(ReplayFlight(db, id, row).copies.loaded, false, Replay(round, row), now);
            && plan.Ok? && plan.value.inbox.None? && plan.value.intent.None? && plan.value.interaction.None?
            && plan.value.logs == [] && plan.value.messages == []
            && plan.value.task.id == db.tasks[round.taskID].id
            && plan.value.expectedTask == db.tasks[round.taskID].version
            && plan.value.worker.Some? && plan.value.worker.value.id == db.workers[round.workerID].id
            && plan.value.expectedWorker == db.workers[round.workerID].version
            && plan.value.round.id == round.id && plan.value.expectedRound == round.version
            && plan.value.round.workerID == round.workerID && plan.value.round.a2aTaskID == round.a2aTaskID
  {
    var round := db.rounds[id];
    ReplayAdvances(round, row, now);
    var advanced := Advance(round, None, Some(row), Replay(round, row), now).value;
    ConductIgnoresInteraction(advanced, db.tasks[round.taskID], Find(db.interactions, InteractionID(row.event)),
                              round.remoteStatus, now);
    assert advanced.admission == Admission(advanced.round.lastSequence, None, None) by {
      AdvanceMovesByOne(round, None, Some(row), Replay(round, row), now);
    }
    ReplayEnds(db.tasks[round.taskID], advanced.round, round.remoteStatus, now);
  }

  lemma ReplayCommits(db: Db, c: ProjectionCommit)
    requires c.inbox.None? && c.intent.None? && c.interaction.None? && c.logs == [] && c.messages == []
    requires c.task.id in db.tasks && c.expectedTask == db.tasks[c.task.id].version
    requires c.worker.Some? && c.worker.value.id in db.workers
             && c.expectedWorker == db.workers[c.worker.value.id].version
    requires c.round.id in db.rounds && c.expectedRound == db.rounds[c.round.id].version
             && !RemoteTaken(db.rounds, c.round)
    ensures CommitProjection(db, c).Ok?
  {
  }

  /** Every such replay is accepted, and it ends the task under its open round. */
  lemma ReplayBreaksOneLive(db: Db, legacy: set<ID>, id: ID, row: InboxRow, ids: Drawn, now: Time)
    requires InOrder(db, legacy) && Superseded(db, id, row)
    ensures ReadNow(db, ReplayFlight(db, id, row)) && Perform(db, ReplayFlight(db, id, row), ids, now).Ok?
    ensures !InOrder(Perform(db, ReplayFlight(db, id, row), ids, now).value, legacy)
  {
    var flight, round := ReplayFlight(db, id, row), db.rounds[id];
    ReplayIsPlanned(db, id, row, now);
    var c := Plan(flight.copies.loaded, false, Replay(round, row), now).value;
    assert !RemoteTaken(db.rounds, c.round);
    assert LiveOK(db.tasks, db.rounds, id);
    ReplayCommits(db, c);
    RemoteUpdateKeepsInvIff(db, Perform(db, flight, ids, now).value, legacy, flight, ids, now);
  }
}
