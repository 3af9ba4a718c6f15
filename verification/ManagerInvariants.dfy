/** Runs whose calls are atomic: one live round per task, conserved leases, no orphan questions, and exactly
    which remote updates keep them. */
module ManagerInvariants {
  import opened Wrappers
  import opened Domain
  import opened Events
  import opened ManagerStore
  import opened Projection
  import opened Service
  import opened Retries
  import opened ManagerRuns
  import opened TaskInvariants

  // ---------------------------------------------------------------- what an update does to task and round

  lemma ApplyStatusOutcome(task: Task, round: Round, observed: RemoteStatus, event: Option<Event>, now: Time)
    requires ApplyStatus(task, round, observed, event, now).Ok?
    requires !observed.Terminal() ==> event.None? || !event.value.kind.EXECUTION_TERMINAL?
    ensures var after := ApplyStatus(task, round, observed, event, now).value;
            && (!task.status.Active() ==> after == task)
            && (task.status.Active() && observed.Terminal() ==> after.status.Ended())
            && (task.status.Active() && !observed.Terminal() ==> after.status.Active())
  {
  }

  lemma ProjectEventAsks(task: Task, round: Round, event: Event, existing: Option<Interaction>, now: Time)
    requires ProjectEvent(task, round, event, existing, now).Ok?
    ensures var b := ProjectEvent(task, round, event, existing, now).value;
            b.interaction.Some? ==>
              b.interaction.value.taskID == task.id && task.status.Active() && !event.kind.EXECUTION_TERMINAL?
  {
  }

  /** Ended by a terminal status, active otherwise; a question only while active. */
  ghost predicate Outcome(task: Task, status: RemoteStatus, b: Business) {
    && task.Runs(b.task)
    && (!task.status.Active() ==> b.task.status == task.status)
    && (task.status.Active() ==> if status.Terminal() then b.task.status.Ended() else b.task.status.Active())
    && (b.interaction.Some? ==> b.interaction.value.taskID == task.id && task.status.Active() && !status.Terminal())
  }

  lemma ConductOutcome(advanced: Advanced, task: Task, interaction: Option<Interaction>, status: RemoteStatus,
                       now: Time)
    requires Conduct(advanced, task, interaction, status, now).Ok?
    requires advanced.admission.news.Some? ==>
               (advanced.admission.news.value.kind.EXECUTION_TERMINAL? <==> status.Terminal())
    ensures Outcome(task, status, Conduct(advanced, task, interaction, status, now).value)
  {
    ConductKeeps(advanced, task, interaction, status, now);
    var news := advanced.admission.news;
    if news.Some? {
      ProjectEventKeeps(task, advanced.round, news.value, interaction, now);
      ProjectEventAsks(task, advanced.round, news.value, interaction, now);
      var b := ProjectEvent(task, advanced.round, news.value, interaction, now).value;
      ApplyStatusOutcome(b.task, b.round, status, news, now);
    } else {
      ApplyStatusOutcome(task, advanced.round, status, news, now);
    }
  }

  /** The round closes with a terminal status and is otherwise as open as before. */
  ghost predicate Closes(before: Round, after: Round, status: RemoteStatus) {
    && before.SameIdentity(after)
    && (before.Consistent() ==> after.Consistent())
    && (after.remoteStatus.Terminal() <==> before.remoteStatus.Terminal() || status.Terminal())
  }

  lemma AdvanceCloses(round: Round, intent: Option<Intent>, seen: Option<InboxRow>, update: Update, now: Time)
    requires Advance(round, intent, seen, update, now).Ok?
    ensures var a := Advance(round, intent, seen, update, now).value;
            && Closes(round, a.round, update.status)
            && (a.admission.news.Some? ==>
                  (a.admission.news.value.kind.EXECUTION_TERMINAL? <==> update.status.Terminal()))
  {
    BindKeeps(round, intent, update, now);
    AdvanceMovesByOne(round, intent, seen, update, now);
  }

  /** A planned update, as far as the invariants can see it. */
  ghost predicate Planned(loaded: Loaded, update: Update, now: Time, c: ProjectionCommit) {
    && loaded.round.Some? && loaded.task.Some?
    && Closes(loaded.round.value, c.round, update.status)
    && Outcome(loaded.task.value, update.status, Business(c.task, c.round, c.interaction, c.logs, c.messages))
    && c.cancelPending == c.task.status.Ended()
    && (if c.task.status.Ended() then loaded.worker.Some?
        && c.worker == Some(loaded.worker.value.ReleaseTask(loaded.task.value.id, now))
        else c.worker.None?)
  }

  lemma PlanIsPlanned(loaded: Loaded, dispatched: bool, update: Update, now: Time)
    requires Plan(loaded, dispatched, update, now).Ok?
    ensures Planned(loaded, update, now, Plan(loaded, dispatched, update, now).value)
  {
    AdvanceCloses(loaded.round.value, loaded.intent, loaded.seen, update, now);
    var advanced := Advance(loaded.round.value, loaded.intent, loaded.seen, update, now).value;
    ConductKeeps(advanced, loaded.task.value, loaded.interaction, update.status, now);
    ConductOutcome(advanced, loaded.task.value, loaded.interaction, update.status, now);
  }

  // ---------------------------------------------------------------- one projection

  ghost predicate InOrder(db: Db, legacy: set<ID>) {
    OneLive(db.tasks, db.rounds, legacy) && Leases(db.tasks, db.workers)
  }

  /** The pending interactions, whatever the rounds look like. */
  ghost predicate Asked(db: Db) {
    (forall id :: id in db.tasks ==> db.tasks[id].id == id) && Questions(db.tasks, db.interactions)
  }

  /** The reads of applyA2ARemoteUpdate and failA2ARoundWithIntent, all in the current store. */
  ghost predicate RoundRead(db: Db, loaded: Loaded, roundID: ID) {
    && loaded.round == Find(db.rounds, roundID)
    && (loaded.round.Some? ==> loaded.task == Find(db.tasks, loaded.round.value.taskID)
                               && loaded.worker == Find(db.workers, loaded.round.value.workerID))
  }

  /** The task of the call is the stored one. */
  ghost predicate TaskHeld(db: Db, loaded: Loaded) {
    && loaded.task.Some? && loaded.task.value.id in db.tasks && db.tasks[loaded.task.value.id] == loaded.task.value
  }

  /** So are the round and its task. */
  ghost predicate Held(db: Db, loaded: Loaded) {
    && loaded.round.Some? && loaded.round.value.id in db.rounds
    && db.rounds[loaded.round.value.id] == loaded.round.value
    && TaskHeld(db, loaded) && loaded.task.value.id == loaded.round.value.taskID
  }

  /** So is the round's worker. */
  ghost predicate Employed(db: Db, loaded: Loaded) {
    && loaded.round.Some? && loaded.worker.Some? && loaded.worker.value.id == loaded.round.value.workerID
    && loaded.worker.value.id in db.workers && db.workers[loaded.worker.value.id] == loaded.worker.value
  }

  lemma ReadIsHeld(db: Db, legacy: set<ID>, loaded: Loaded, roundID: ID)
    requires InOrder(db, legacy) && RoundRead(db, loaded, roundID) && loaded.round.Some?
    ensures Held(db, loaded) && (loaded.worker.Some? ==> Employed(db, loaded))
  {
    assert LiveOK(db.tasks, db.rounds, roundID);
  }

  /** The tables a projection leaves. */
  ghost predicate Wrote(db: Db, db': Db, c: ProjectionCommit) {
    && db'.tasks == db.tasks[c.task.id := c.task]
    && db'.rounds == db.rounds[c.round.id := c.round]
    && db'.workers == (if c.worker.Some? then db.workers[c.worker.value.id := c.worker.value] else db.workers)
    && db'.interactions == (var put := PutInteraction(db.interactions, c.interaction);
                            if c.cancelPending then CancelPending(put, c.task.id, c.task.updatedAt) else put)
  }

  lemma AppliedWrote(db: Db, c: ProjectionCommit)
    requires CommitProjection(db, c).Ok? && CommitProjection(db, c).value.1.APPLIED?
    ensures Wrote(db, CommitProjection(db, c).value.0, c)
  {
  }

  /** The guard under which a remote update keeps one live round: the round is its task's last, the status is not
      terminal, or the task is not active anyway. */
  ghost predicate Addressed(db: Db, round: Round, status: RemoteStatus)
    requires round.id in db.rounds && round.taskID in db.tasks
  {
    Top(db.rounds, round.id) || !status.Terminal() || !db.tasks[round.taskID].status.Active()
  }

  lemma UpdateKeepsOneLive(db: Db, db': Db, legacy: set<ID>, loaded: Loaded, update: Update, now: Time,
                           c: ProjectionCommit)
    requires OneLive(db.tasks, db.rounds, legacy) && Held(db, loaded) && Planned(loaded, update, now, c)
             && Wrote(db, db', c)
    requires Addressed(db, loaded.round.value, update.status)
    ensures OneLive(db'.tasks, db'.rounds, legacy)
  {
    var round, task := loaded.round.value, loaded.task.value;
    assert LiveOK(db.tasks, db.rounds, round.id);
    if task.status.Active() && update.status.Terminal() {
      TopIsLive(db.tasks, db.rounds, legacy, round.id);
      FinishKeepsOneLive(db.tasks, db.rounds, legacy, c.task, c.round);
    } else {
      assert round.Live() ==> task.status.Active();
      RoundKeepsOneLive(db.tasks, db.rounds, legacy, c.round);
      TaskKeepsOneLive(db.tasks, db'.rounds, legacy, c.task);
    }
  }

  lemma UpdateBreaksOneLive(db: Db, db': Db, legacy: set<ID>, loaded: Loaded, update: Update, now: Time,
                            c: ProjectionCommit)
    requires OneLive(db.tasks, db.rounds, legacy) && Held(db, loaded) && Planned(loaded, update, now, c)
             && Wrote(db, db', c)
    requires !Addressed(db, loaded.round.value, update.status)
    ensures !OneLive(db'.tasks, db'.rounds, legacy)
  {
    OrphanBreaksOneLive(db.tasks, db.rounds, legacy, c.task, c.round);
  }

  /** Releasing a task that the worker does not hold changes nothing. */
  lemma ReleaseNothing(db: Db, worker: Worker, taskID: ID, now: Time)
    requires Leases(db.tasks, db.workers) && worker.id in db.workers && db.workers[worker.id] == worker
    requires taskID in db.tasks && !db.tasks[taskID].status.Active()
    ensures worker.ReleaseTask(taskID, now) == worker
  {
    assert LeaseOK(db.tasks, worker);
    assert !Holds(db.tasks, taskID, worker.id);
  }

  lemma UpdateKeepsLeases(db: Db, db': Db, legacy: set<ID>, loaded: Loaded, update: Update, now: Time,
                          c: ProjectionCommit)
    requires InOrder(db, legacy) && Held(db, loaded) && (c.worker.Some? ==> Employed(db, loaded))
             && Planned(loaded, update, now, c) && Wrote(db, db', c)
    requires Addressed(db, loaded.round.value, update.status)
    ensures Leases(db'.tasks, db'.workers)
  {
    var round, task := loaded.round.value, loaded.task.value;
    assert LiveOK(db.tasks, db.rounds, round.id);
    if task.status.Active() && update.status.Terminal() {
      TopIsLive(db.tasks, db.rounds, legacy, round.id);
      assert LeaseOK(db.tasks, loaded.worker.value);
      FinishKeepsLeases(db.tasks, db.workers, c.task, c.worker.value);
    } else {
      TaskKeepsLeases(db.tasks, db.workers, c.task);
      if c.task.status.Ended() {
        ReleaseNothing(db, loaded.worker.value, task.id, now);
        assert db'.workers == db.workers;
      }
    }
  }

  /** Whichever round it addresses, an update leaves no pending interaction on a task that is not active. */
  lemma UpdateKeepsQuestions(db: Db, db': Db, loaded: Loaded, update: Update, now: Time, c: ProjectionCommit)
    requires Asked(db) && TaskHeld(db, loaded) && Planned(loaded, update, now, c) && Wrote(db, db', c)
    ensures Asked(db')
  {
    if c.cancelPending {
      CancelKeepsQuestions(db.tasks, db.interactions, c.task, c.interaction, c.task.updatedAt);
    } else {
      TaskKeepsQuestions(db.tasks, db.interactions, c.task, c.interaction);
    }
  }

  // ---------------------------------------------------------------- failA2ARoundWithIntent

  ghost predicate PlannedFailure(loaded: Loaded, now: Time, c: ProjectionCommit) {
    && loaded.round.Some? && loaded.task.Some? && loaded.worker.Some?
    && loaded.round.value.SameIdentity(c.round) && c.round.Consistent() && !c.round.Live()
    && loaded.task.value.Runs(c.task) && c.task.status.Ended()
    && (loaded.task.value.status.Ended() ==> c.task == loaded.task.value)
    && (!loaded.task.value.status.Ended() ==> loaded.task.value.status.Active())
    && c.worker == Some(loaded.worker.value.ReleaseTask(loaded.task.value.id, now))
    && c.interaction.None? && c.cancelPending
  }

  lemma FailureIsPlanned(loaded: Loaded, dispatched: bool, code: string, message: string, now: Time)
    requires PlanFailure(loaded, dispatched, code, message, now).Ok?
    ensures PlannedFailure(loaded, now, PlanFailure(loaded, dispatched, code, message, now).value)
  {
  }

  ghost predicate Owns(db: Db, round: Round)
    requires round.id in db.rounds && round.taskID in db.tasks
  {
    Top(db.rounds, round.id) || !db.tasks[round.taskID].status.Active()
  }

  lemma FailureKeepsOneLive(db: Db, db': Db, legacy: set<ID>, loaded: Loaded, now: Time, c: ProjectionCommit)
    requires OneLive(db.tasks, db.rounds, legacy) && Held(db, loaded) && PlannedFailure(loaded, now, c)
             && Wrote(db, db', c)
    requires Owns(db, loaded.round.value)
    ensures OneLive(db'.tasks, db'.rounds, legacy)
  {
    var round, task := loaded.round.value, loaded.task.value;
    assert LiveOK(db.tasks, db.rounds, round.id);
    if task.status.Active() {
      TopIsLive(db.tasks, db.rounds, legacy, round.id);
      FinishKeepsOneLive(db.tasks, db.rounds, legacy, c.task, c.round);
    } else {
      assert db'.tasks == db.tasks;
      RoundKeepsOneLive(db.tasks, db.rounds, legacy, c.round);
    }
  }

  lemma FailureKeepsLeases(db: Db, db': Db, legacy: set<ID>, loaded: Loaded, now: Time, c: ProjectionCommit)
    requires InOrder(db, legacy) && Held(db, loaded) && Employed(db, loaded) && PlannedFailure(loaded, now, c)
             && Wrote(db, db', c)
    requires Owns(db, loaded.round.value)
    ensures Leases(db'.tasks, db'.workers)
  {
    var round, task := loaded.round.value, loaded.task.value;
    if task.status.Active() {
      TopIsLive(db.tasks, db.rounds, legacy, round.id);
      assert LeaseOK(db.tasks, loaded.worker.value);
      FinishKeepsLeases(db.tasks, db.workers, c.task, c.worker.value);
    } else {
      ReleaseNothing(db, loaded.worker.value, task.id, now);
      assert db'.workers == db.workers && db'.tasks == db.tasks;
    }
  }

  lemma FailureBreaksOneLive(db: Db, db': Db, legacy: set<ID>, loaded: Loaded, now: Time, c: ProjectionCommit)
    requires OneLive(db.tasks, db.rounds, legacy) && Held(db, loaded) && PlannedFailure(loaded, now, c)
             && Wrote(db, db', c)
    requires !Owns(db, loaded.round.value)
    ensures !OneLive(db'.tasks, db'.rounds, legacy)
  {
    OrphanBreaksOneLive(db.tasks, db.rounds, legacy, c.task, c.round);
  }

  lemma FailureKeepsQuestions(db: Db, db': Db, loaded: Loaded, now: Time, c: ProjectionCommit)
    requires Asked(db) && PlannedFailure(loaded, now, c) && Wrote(db, db', c)
    ensures Asked(db')
  {
    CancelKeepsQuestions(db.tasks, db.interactions, c.task, None, c.task.updatedAt);
  }

  // ---------------------------------------------------------------- commands

  ghost predicate WorkerRead(db: Db, worker: Option<Worker>) {
    worker.Some? ==> worker.value.id in db.workers && db.workers[worker.value.id] == worker.value
  }

  ghost predicate TaskRead(db: Db, copies: Copies, taskID: ID) {
    && copies.loaded.task == Find(db.tasks, taskID) && Listing(db.rounds, taskID, copies.list)
    && WorkerRead(db, copies.loaded.worker) && WorkerRead(db, copies.candidate)
  }

  ghost predicate CommandWrote(db: Db, db': Db, c: CommandCommit) {
    && db'.tasks == db.tasks[c.task.id := c.task]
    && db'.rounds == (if c.createRound then db.rounds[c.round.id := c.round] else db.rounds)
    && db'.workers == (if c.worker.Some? then db.workers[c.worker.value.id := c.worker.value] else db.workers)
    && db'.interactions == (var put := PutInteraction(db.interactions, c.interaction);
                            if c.cancelPending then CancelPending(put, c.task.id, c.task.updatedAt) else put)
    && (c.createRound ==> c.round.id !in db.rounds)
  }

  lemma AcceptedWrote(db: Db, c: CommandCommit)
    requires CommitCommand(db, c).Ok?
    ensures CommandWrote(db, CommitCommand(db, c).value, c)
  {
  }

  /** An inactive task starts on the worker that now leases it. */
  ghost predicate Leased(copies: Copies, c: CommandCommit) {
    && copies.loaded.task.Some? && copies.loaded.worker.Some?
    && c.task.id == copies.loaded.task.value.id && !copies.loaded.task.value.status.Active() && c.task.status.Active()
    && c.worker.Some? && c.worker.value.id == copies.loaded.worker.value.id == c.task.workerID
    && (c.worker == copies.loaded.worker || copies.loaded.worker.value.version < c.worker.value.version)
    && (NoDuplicates(copies.loaded.worker.value.currentTaskIDs) ==> NoDuplicates(c.worker.value.currentTaskIDs))
    && (forall t :: t in c.worker.value.currentTaskIDs <==>
                      t in copies.loaded.worker.value.currentTaskIDs || t == c.task.id)
  }

  /** A command that opens a round: the new round comes after every listed one. */
  ghost predicate Launches(copies: Copies, c: CommandCommit) {
    && Leased(copies, c)
    && c.createRound && c.round.Live() && c.round.Consistent() && c.round.taskID == c.task.id
    && c.round.workerID == c.task.workerID
    && (forall i :: 0 <= i < |copies.list| ==> Later(c.round, copies.list[i]))
    && c.interaction.None? && !c.cancelPending
  }

  lemma StartLeases(copies: Copies, buildable: bool, ids: Drawn, now: Time)
    requires PlanStart(copies.loaded.task, copies.candidate, copies.loaded.worker, copies.list, buildable, ids, now).Ok?
    ensures Leased(copies, PlanStart(copies.loaded.task, copies.candidate, copies.loaded.worker, copies.list,
                                     buildable, ids, now).value)
  {
  }

  lemma StartLaunches(copies: Copies, buildable: bool, ids: Drawn, now: Time)
    requires PlanStart(copies.loaded.task, copies.candidate, copies.loaded.worker, copies.list, buildable, ids, now).Ok?
    ensures Launches(copies, PlanStart(copies.loaded.task, copies.candidate, copies.loaded.worker, copies.list,
                                       buildable, ids, now).value)
  {
    StartLeases(copies, buildable, ids, now);
    var c := PlanStart(copies.loaded.task, copies.candidate, copies.loaded.worker, copies.list, buildable, ids,
                       now).value;
    assert c.round.attempt == MaxAttempt(copies.list) + 1;
  }

  lemma ContinueLaunches(copies: Copies, text: string, buildable: bool, ids: Drawn, now: Time)
    requires PlanContinue(copies.loaded.task, copies.list, copies.loaded.worker, text, buildable, ids, now).Ok?
    requires forall i, j :: 0 <= i < j < |copies.list| ==> !Later(copies.list[i], copies.list[j])
    ensures Launches(copies, PlanContinue(copies.loaded.task, copies.list, copies.loaded.worker, text,
                                          buildable, ids, now).value)
  {
    var c := PlanContinue(copies.loaded.task, copies.list, copies.loaded.worker, text, buildable, ids, now).value;
    var last := |copies.list| - 1;
    forall i | 0 <= i < |copies.list| ensures Later(c.round, copies.list[i]) {
      assert i < last ==> !Later(copies.list[i], copies.list[last]);
    }
  }

  lemma LaunchKeepsInv(db: Db, db': Db, legacy: set<ID>, copies: Copies, taskID: ID, c: CommandCommit)
    requires InOrder(db, legacy) && TaskRead(db, copies, taskID) && Launches(copies, c) && CommandWrote(db, db', c)
    ensures InOrder(db', legacy)
  {
    assert LeaseOK(db.tasks, copies.loaded.worker.value);
    forall o | o in db.rounds && db.rounds[o].taskID == c.task.id ensures Later(c.round, db.rounds[o]) {
      assert db.rounds[o] in copies.list;
    }
    LaunchKeepsOneLive(db.tasks, db.rounds, legacy, c.task, c.round);
    LaunchKeepsLeases(db.tasks, db.workers, c.task, c.worker.value);
  }

  /** A command on a running task: it stays active on its worker, and no question is asked. */
  ghost predicate Steers(copies: Copies, c: CommandCommit) {
    && copies.loaded.task.Some? && copies.loaded.task.value.Runs(c.task)
    && copies.loaded.task.value.status.Active() && c.task.status.Active()
    && c.worker.None? && !c.createRound
    && (c.interaction.Some? ==> !c.interaction.value.status.ASKED?)
  }

  lemma InterruptSteers(copies: Copies, ids: Drawn, now: Time)
    requires PlanInterrupt(copies.loaded.task, copies.list, ids, now).Ok?
    requires PlanInterrupt(copies.loaded.task, copies.list, ids, now).value.Some?
    ensures Steers(copies, PlanInterrupt(copies.loaded.task, copies.list, ids, now).value.value)
  {
  }

  lemma RespondSteers(copies: Copies, response: Response, buildable: bool, ids: Drawn, now: Time)
    requires var p := PlanRespond(copies.loaded.interaction, copies.loaded.task, copies.loaded.worker, copies.list,
                                  response, buildable, ids, now);
             p.Ok? && p.value.Some?
    ensures Steers(copies, PlanRespond(copies.loaded.interaction, copies.loaded.task, copies.loaded.worker, copies.list,
                                       response, buildable, ids, now).value.value)
  {
  }

  lemma SteerKeepsInv(db: Db, db': Db, legacy: set<ID>, copies: Copies, taskID: ID, c: CommandCommit)
    requires InOrder(db, legacy) && copies.loaded.task == Find(db.tasks, taskID) && Steers(copies, c)
             && CommandWrote(db, db', c)
    ensures InOrder(db', legacy)
  {
    TaskKeepsOneLive(db.tasks, db.rounds, legacy, c.task);
    TaskKeepsLeases(db.tasks, db.workers, c.task);
  }

  /** A command leaves an active task behind and asks nothing. */
  lemma CommandKeepsQuestions(db: Db, db': Db, copies: Copies, taskID: ID, c: CommandCommit)
    requires Asked(db) && copies.loaded.task == Find(db.tasks, taskID) && CommandWrote(db, db', c)
    requires Launches(copies, c) || Steers(copies, c)
    ensures Asked(db')
  {
    if c.cancelPending {
      CancelKeepsQuestions(db.tasks, db.interactions, c.task, c.interaction, c.task.updatedAt);
    } else {
      TaskKeepsQuestions(db.tasks, db.interactions, c.task, c.interaction);
    }
  }

  // ---------------------------------------------------------------- reconciler and migration

  lemma MarkKeepsInv(db: Db, db': Db, legacy: set<ID>, round: Round, now: Time)
    requires InOrder(db, legacy) && round.id in db.rounds && db.rounds[round.id] == round
    requires db'.rounds == db.rounds[round.id := round.MarkUnreachable(now)]
    requires db'.tasks == db.tasks && db'.workers == db.workers
    ensures InOrder(db', legacy)
  {
    assert LiveOK(db.tasks, db.rounds, round.id);
    RoundKeepsOneLive(db.tasks, db.rounds, legacy, round.MarkUnreachable(now));
  }

  lemma VerdictMarks(db: Db, db': Db, loaded: Loaded, acknowledged: bool, now: Time, verdict: Verdict)
    requires loaded.round.Some? && OnNetworkFailure(loaded.round.value, loaded.intent, acknowledged, now) == Ok(verdict)
    requires PerformVerdict(db, loaded, verdict) == Ok(db')
    ensures db'.tasks == db.tasks && db'.workers == db.workers
    ensures db'.rounds == if verdict.GiveUp? then db.rounds
                          else db.rounds[loaded.round.value.id := loaded.round.value.MarkUnreachable(now)]
  {
  }

  lemma VerdictKeepsInv(db: Db, db': Db, legacy: set<ID>, loaded: Loaded, acknowledged: bool, now: Time,
                        verdict: Verdict)
    requires InOrder(db, legacy) && loaded.round.Some? && loaded.round == Find(db.rounds, loaded.round.value.id)
    requires OnNetworkFailure(loaded.round.value, loaded.intent, acknowledged, now) == Ok(verdict)
    requires PerformVerdict(db, loaded, verdict) == Ok(db')
    ensures InOrder(db', legacy)
  {
    VerdictMarks(db, db', loaded, acknowledged, now, verdict);
    if !verdict.GiveUp? {
      MarkKeepsInv(db, db', legacy, loaded.round.value, now);
    }
  }

  /** The reads of one step of MigrateLegacyA2ATasks. */
  ghost predicate MigrationRead(db: Db, copies: Copies, taskID: ID) {
    && copies.loaded.task == Find(db.tasks, taskID) && Listing(db.rounds, taskID, copies.list)
    && (copies.loaded.task.Some? ==> copies.loaded.worker == Find(db.workers, copies.loaded.task.value.workerID))
  }

  lemma MigrationWrote(db: Db, task: Task, expectedTask: nat, worker: Option<Worker>, expectedWorker: nat)
    requires CommitMigration(db, task, expectedTask, worker, expectedWorker).Ok?
             && CommitMigration(db, task, expectedTask, worker, expectedWorker).value.1
    ensures var db' := CommitMigration(db, task, expectedTask, worker, expectedWorker).value.0;
            && !HasRound(db.rounds, task.id) && db'.rounds == db.rounds && db'.tasks == db.tasks[task.id := task]
            && db'.workers == (if worker.Some? then db.workers[worker.value.id := worker.value] else db.workers)
            && db'.interactions == CancelPending(db.interactions, task.id, task.updatedAt)
  {
  }

  lemma MigrationKeepsInv(db: Db, db': Db, legacy: set<ID>, copies: Copies, taskID: ID, now: Time, applied: bool)
    requires InOrder(db, legacy) && MigrationRead(db, copies, taskID)
    requires PlanMigration(copies.loaded.task, copies.list, copies.loaded.worker, now).Ok?
    requires var plan := PlanMigration(copies.loaded.task, copies.list, copies.loaded.worker, now).value;
             plan.Some? && CommitMigration(db, plan.value.0, copies.loaded.task.value.version, plan.value.1,
                                           if copies.loaded.worker.Some? then copies.loaded.worker.value.version else 0)
             == Ok((db', applied))
    ensures InOrder(db', legacy)
  {
    var plan := PlanMigration(copies.loaded.task, copies.list, copies.loaded.worker, now).value.value;
    var task := copies.loaded.task.value;
    if applied {
      MigrationWrote(db, plan.0, task.version, plan.1,
                     if copies.loaded.worker.Some? then copies.loaded.worker.value.version else 0);
      RetireKeepsOneLive(db.tasks, db.rounds, legacy, plan.0);
      MigratedLeases(db, db', task, plan.0, plan.1, now);
    }
  }

  lemma MigratedLeases(db: Db, db': Db, task: Task, failed: Task, worker: Option<Worker>, now: Time)
    requires Leases(db.tasks, db.workers) && task.id in db.tasks && db.tasks[task.id] == task && task.status.Active()
    requires task.Runs(failed) && failed.id == task.id && !failed.status.Active()
    requires worker == if task.workerID != ""
             && task.workerID in db.workers then Some(db.workers[task.workerID].ReleaseTask(task.id, now)) else None
    requires db'.tasks == db.tasks[failed.id := failed]
    requires db'.workers == if worker.Some? then db.workers[worker.value.id := worker.value] else db.workers
    ensures Leases(db'.tasks, db'.workers)
  {
    assert LeaseOK(db.tasks, db.workers[task.workerID]);
    FinishKeepsLeases(db.tasks, db.workers, failed, worker.value);
  }

  lemma MigrationKeepsQuestions(db: Db, task: Task, expectedTask: nat, worker: Option<Worker>, expectedWorker: nat,
                                db': Db, applied: bool)
    requires Asked(db) && CommitMigration(db, task, expectedTask, worker, expectedWorker) == Ok((db', applied))
    ensures Asked(db')
  {
    if applied {
      MigrationWrote(db, task, expectedTask, worker, expectedWorker);
      CancelKeepsQuestions(db.tasks, db.interactions, task, None, task.updatedAt);
    }
  }

  // ---------------------------------------------------------------- direct calls

  /** A direct call on an inactive task that stays inactive. */
  ghost predicate Rests(db: Db, db': Db, task: Task) {
    && task.id in db.tasks && !db.tasks[task.id].status.Active() && !task.status.Active()
    && db'.tasks == db.tasks[task.id := task] && db'.rounds == db.rounds && db'.workers == db.workers
    && db'.interactions == db.interactions
  }

  lemma RestKeepsInv(db: Db, db': Db, legacy: set<ID>, task: Task)
    requires InOrder(db, legacy) && Rests(db, db', task)
    ensures InOrder(db', legacy)
  {
    TaskKeepsOneLive(db.tasks, db.rounds, legacy, task);
    TaskKeepsLeases(db.tasks, db.workers, task);
  }

  lemma RestKeepsQuestions(db: Db, db': Db, task: Task)
    requires Asked(db) && Rests(db, db', task)
    ensures Asked(db')
  {
    TaskKeepsQuestions(db.tasks, db.interactions, task, None);
  }

  lemma AssignRests(db: Db, taskID: ID, workerID: ID, agent: Option<Agent>, now: Time) returns (task: Task)
    requires (forall id :: id in db.tasks ==> db.tasks[id].id == id) && Assign(db, taskID, workerID, agent, now).Ok?
    ensures Rests(db, Assign(db, taskID, workerID, agent, now).value, task)
  {
    task := Assign(db, taskID, workerID, agent, now).value.tasks[taskID];
  }

  lemma EditRests(db: Db, taskID: ID, projectID: ID, agent: Agent, now: Time) returns (task: Task)
    requires (forall id :: id in db.tasks ==> db.tasks[id].id == id) && Edit(db, taskID, projectID, agent, now).Ok?
    ensures Rests(db, Edit(db, taskID, projectID, agent, now).value, task)
  {
    task := Edit(db, taskID, projectID, agent, now).value.tasks[taskID];
  }

  lemma ArchiveRests(db: Db, taskID: ID, now: Time) returns (task: Task)
    requires (forall id :: id in db.tasks ==> db.tasks[id].id == id) && Archive(db, taskID, now).Ok?
    ensures Rests(db, Archive(db, taskID, now).value, task)
  {
    task := Archive(db, taskID, now).value.tasks[taskID];
  }

  /** A retry finds nothing to release: the task was not active. */
  lemma RetryRests(db: Db, taskID: ID, now: Time) returns (task: Task)
    requires (forall id :: id in db.tasks ==> db.tasks[id].id == id) && Leases(db.tasks, db.workers)
             && Retry(db, taskID, now).Ok?
    ensures Rests(db, Retry(db, taskID, now).value, task)
  {
    var old' := db.tasks[taskID];
    task := Retry(db, taskID, now).value.tasks[taskID];
    if old'.workerID in db.workers {
      assert LeaseOK(db.tasks, db.workers[old'.workerID]);
      assert !Holds(db.tasks, taskID, old'.workerID);
    }
  }

  lemma CreatedIsIdle(db: Db, id: ID, title: string, projectID: ID, agent: Agent, workerID: ID, now: Time)
    returns (task: Task)
    requires Create(db, id, title, projectID, agent, workerID, now).Ok?
    ensures task.id == id && !task.status.Active()
    ensures Create(db, id, title, projectID, agent, workerID, now).value == PutTask(db, Some(task))
  {
    task := Create(db, id, title, projectID, agent, workerID, now).value.tasks[id];
  }

  lemma CreateKeepsAll(db: Db, legacy: set<ID>, id: ID, title: string, projectID: ID, agent: Agent, workerID: ID,
                       now: Time)
    requires id !in db.tasks && Create(db, id, title, projectID, agent, workerID, now).Ok?
    ensures InOrder(db, legacy) ==> InOrder(Create(db, id, title, projectID, agent, workerID, now).value, legacy)
    ensures Asked(db) ==> Asked(Create(db, id, title, projectID, agent, workerID, now).value)
  {
    var task := CreatedIsIdle(db, id, title, projectID, agent, workerID, now);
    IdleTaskKeepsAll(db, legacy, task);
  }

  lemma IdleTaskKeepsAll(db: Db, legacy: set<ID>, task: Task)
    requires task.id !in db.tasks && !task.status.Active()
    ensures InOrder(db, legacy) ==> InOrder(PutTask(db, Some(task)), legacy)
    ensures Asked(db) ==> Asked(PutTask(db, Some(task)))
  {
    if InOrder(db, legacy) {
      CreateKeepsOneLive(db.tasks, db.rounds, legacy, task);
      TaskKeepsLeases(db.tasks, db.workers, task);
    }
    if Asked(db) {
      TaskKeepsQuestions(db.tasks, db.interactions, task, None);
    }
  }

  lemma DeleteKeepsAll(db: Db, legacy: set<ID>, taskID: ID)
    requires Delete(db, taskID).Ok?
    ensures InOrder(db, legacy) ==> InOrder(Delete(db, taskID).value, legacy)
    ensures Asked(db) ==> Asked(Delete(db, taskID).value)
  {
    var db' := Delete(db, taskID).value;
    if InOrder(db, legacy) {
      DeleteKeepsOneLive(db.tasks, db.rounds, legacy, taskID, db'.rounds);
      DeleteKeepsLeases(db.tasks, db.workers, taskID);
    }
    if Asked(db) {
      DeleteKeepsQuestions(db.tasks, db.interactions, taskID);
    }
  }

  lemma WorkerCallKeepsInv(db: Db, legacy: set<ID>, op: Direct, now: Time)
    requires InOrder(db, legacy) && (op.DoRegister? || op.DoReconfigure? || op.DoDeleteWorker?)
             && PerformDirect(db, op, now).Ok?
    ensures InOrder(PerformDirect(db, op, now).value, legacy)
  {
    var db' := PerformDirect(db, op, now).value;
    if op.DoDeleteWorker? {
      DropWorkerKeepsLeases(db.tasks, db.workers, op.id);
    } else {
      WorkerKeepsLeases(db.tasks, db.workers, db'.workers[op.id]);
    }
  }

  lemma DirectKeepsInv(db: Db, db': Db, legacy: set<ID>, op: Direct, now: Time)
    requires InOrder(db, legacy) && PerformDirect(db, op, now) == Ok(db') && (op.DoCreate? ==> op.id !in db.tasks)
    ensures InOrder(db', legacy)
  {
    match op
    case DoAssign(taskID, workerID, agent) =>
      var task := AssignRests(db, taskID, workerID, agent, now);
      RestKeepsInv(db, db', legacy, task);
    case DoCreate(id, title, projectID, agent,
                  workerID) => CreateKeepsAll(db, legacy, id, title, projectID, agent, workerID, now);
    case DoEdit(taskID, projectID, agent) =>
      var task := EditRests(db, taskID, projectID, agent, now);
      RestKeepsInv(db, db', legacy, task);
    case DoArchive(taskID) =>
      var task := ArchiveRests(db, taskID, now);
      RestKeepsInv(db, db', legacy, task);
    case DoRetry(taskID) =>
      var task := RetryRests(db, taskID, now);
      RestKeepsInv(db, db', legacy, task);
    case DoDelete(taskID) => DeleteKeepsAll(db, legacy, taskID);
    case _ => WorkerCallKeepsInv(db, legacy, op, now);
  }

  lemma DirectKeepsQuestions(db: Db, db': Db, op: Direct, now: Time)
    requires Asked(db) && PerformDirect(db, op, now) == Ok(db') && (op.DoCreate? ==> op.id !in db.tasks)
    ensures Asked(db')
  {
    match op
    case DoAssign(taskID, workerID, agent) =>
      var task := AssignRests(db, taskID, workerID, agent, now);
      RestKeepsQuestions(db, db', task);
    case DoCreate(id, title, projectID, agent,
                  workerID) => CreateKeepsAll(db, {}, id, title, projectID, agent, workerID, now);
    case DoEdit(taskID, projectID, agent) =>
      var task := EditRests(db, taskID, projectID, agent, now);
      RestKeepsQuestions(db, db', task);
    case DoArchive(taskID) =>
      var task := ArchiveRests(db, taskID, now);
      RestKeepsQuestions(db, db', task);
    case DoRetry(taskID) => TaskKeepsQuestions(db.tasks, db.interactions, db'.tasks[taskID], None);
    case DoDelete(taskID) => DeleteKeepsAll(db, {}, taskID);
    case _ => assert db'.tasks == db.tasks && db'.interactions == db.interactions;
  }

  // ---------------------------------------------------------------- atomic calls

  /** Every copy of the call is what the store holds now. */
  ghost predicate ReadNow(db: Db, flight: Flight) {
    var copies := flight.copies;
    var loaded := copies.loaded;
    match flight.call
    case Remote(roundID, intentID, update) =>
      && RoundRead(db, loaded, roundID)
      && loaded.intent == (if intentID.Some? then Find(db.intents, intentID.value) else None)
      && (update.event.Some? ==> loaded.interaction == Find(db.interactions, InteractionID(update.event.value)))
      && (update.event.Some? && loaded.round.Some? ==>
            var key := (loaded.round.value.id, update.event.value.id);
            loaded.seen == if key in db.inbox then Some(db.inbox[key]) else None)
    case FailRound(roundID, intentID, _, _) =>
      RoundRead(db, loaded, roundID)
      && loaded.intent == (if intentID.Some? then Find(db.intents, intentID.value) else None)
    case NetworkFailureCall(roundID, intentID, _) =>
      RoundRead(db, loaded, roundID)
      && loaded.intent == (if intentID.Some? then Find(db.intents, intentID.value) else None)
    case StartCall(taskID, _) => TaskRead(db, copies, taskID)
    case ContinueCall(taskID, _, _) => TaskRead(db, copies, taskID)
    case InterruptCall(taskID) => TaskRead(db, copies, taskID)
    case RespondCall(interactionID, _, _) =>
      && loaded.interaction == Find(db.interactions, interactionID)
      && (if loaded.interaction.Some? then TaskRead(db, copies, loaded.interaction.value.taskID) else loaded.task.None?)
    case ClaimCall(claimed) => loaded.intent == Find(db.intents, claimed)
    case MigrateCall(taskID) => MigrationRead(db, copies, taskID)
  }

  /** In one atomic call an event is either seen by the first read or new to the commit. */
  lemma NeverDuplicate(db: Db, flight: Flight, now: Time, c: ProjectionCommit)
    requires flight.call.Remote? && ReadNow(db, flight)
    requires Plan(flight.copies.loaded, flight.call.intentID.Some?, flight.call.update, now) == Ok(c)
             && CommitProjection(db, c).Ok?
    ensures CommitProjection(db, c).value.1.APPLIED?
  {
    var loaded := flight.copies.loaded;
    AdvanceMovesByOne(loaded.round.value, loaded.intent, loaded.seen, flight.call.update, now);
  }

  lemma FailureApplied(db: Db, loaded: Loaded, dispatched: bool, code: string, message: string, now: Time)
    requires PlanFailure(loaded, dispatched, code, message, now).Ok?
    requires CommitProjection(db, PlanFailure(loaded, dispatched, code, message, now).value).Ok?
    ensures CommitProjection(db, PlanFailure(loaded, dispatched, code, message, now).value).value.1.APPLIED?
  {
  }

  /** Exactly which remote updates keep one live round per task and the leases. */
  lemma RemoteUpdateKeepsInvIff(db: Db, db': Db, legacy: set<ID>, flight: Flight, ids: Drawn, now: Time)
    requires InOrder(db, legacy) && flight.call.Remote? && ReadNow(db, flight)
             && Perform(db, flight, ids, now) == Ok(db')
    ensures var id := flight.call.roundID;
            && id in db.rounds && db.rounds[id].id == id && db.rounds[id].taskID in db.tasks
            && (InOrder(db', legacy) <==> Addressed(db, db.rounds[id], flight.call.update.status))
  {
    var loaded, update, roundID := flight.copies.loaded, flight.call.update, flight.call.roundID;
    var c := Plan(loaded, flight.call.intentID.Some?, update, now).value;
    NeverDuplicate(db, flight, now, c);
    AppliedWrote(db, c);
    PlanIsPlanned(loaded, flight.call.intentID.Some?, update, now);
    ReadIsHeld(db, legacy, loaded, roundID);
    if Addressed(db, loaded.round.value, update.status) {
      UpdateKeepsOneLive(db, db', legacy, loaded, update, now, c);
      UpdateKeepsLeases(db, db', legacy, loaded, update, now, c);
    } else {
      UpdateBreaksOneLive(db, db', legacy, loaded, update, now, c);
    }
  }

  /** Exactly which failed rounds do: the last of the task, any of an inactive task, and one that already failed so. */
  lemma FailRoundKeepsInvIff(db: Db, db': Db, legacy: set<ID>, flight: Flight, ids: Drawn, now: Time)
    requires InOrder(db, legacy) && flight.call.FailRound? && ReadNow(db, flight)
             && Perform(db, flight, ids, now) == Ok(db')
    ensures var id := flight.call.roundID;
            && id in db.rounds && db.rounds[id].id == id && db.rounds[id].taskID in db.tasks
            && (InOrder(db', legacy) <==> AlreadyFailed(db.rounds[id], flight.call.code) || Owns(db, db.rounds[id]))
  {
    var loaded, roundID := flight.copies.loaded, flight.call.roundID;
    ReadIsHeld(db, legacy, loaded, roundID);
    if !AlreadyFailed(loaded.round.value, flight.call.code) {
      var c := PlanFailure(loaded, flight.call.intentID.Some?, flight.call.code, flight.call.message, now).value;
      FailureApplied(db, loaded, flight.call.intentID.Some?, flight.call.code, flight.call.message, now);
      AppliedWrote(db, c);
      FailureIsPlanned(loaded, flight.call.intentID.Some?, flight.call.code, flight.call.message, now);
      if Owns(db, loaded.round.value) {
        FailureKeepsOneLive(db, db', legacy, loaded, now, c);
        FailureKeepsLeases(db, db', legacy, loaded, now, c);
      } else {
        FailureBreaksOneLive(db, db', legacy, loaded, now, c);
      }
    }
  }

  // ---------------------------------------------------------------- runs of atomic calls

  datatype Move = Whole(flight: Flight, ids: Drawn, now: Time) | Simple(op: Direct, now: Time)

  /** A call that fails leaves the store alone. */
  ghost predicate Takes(db: Db, db': Db, move: Move) {
    match move
    case Whole(flight, ids, now) =>
      ReadNow(db, flight) &&
      var done := Perform(db, flight, ids, now);
      db' == if done.Ok? then done.value else db
    case Simple(op, now) =>
      (op.DoCreate? ==> op.id !in db.tasks) &&
      var done := PerformDirect(db, op, now);
      db' == if done.Ok? then done.value else db
  }

  predicate Placed(db: Db, id: ID) {
    id in db.rounds && db.rounds[id].id == id && db.rounds[id].taskID in db.tasks
  }

  /** Remote updates and failures go to the task's last round, or do not end an active task. */
  ghost predicate WellAddressed(db: Db, move: Move) {
    move.Whole? ==>
      match move.flight.call
      case Remote(id, _, update) => Placed(db, id) ==> Addressed(db, db.rounds[id], update.status)
      case FailRound(id, _, code, _) => Placed(db, id) ==> AlreadyFailed(db.rounds[id], code) || Owns(db, db.rounds[id])
      case _ => true
  }

  lemma LaunchCallKeepsInv(db: Db, db': Db, legacy: set<ID>, flight: Flight, ids: Drawn, now: Time)
    requires InOrder(db, legacy) && ReadNow(db, flight) && Perform(db, flight, ids, now) == Ok(db')
    requires flight.call.StartCall? || flight.call.ContinueCall?
    ensures InOrder(db', legacy)
  {
    var copies, loaded := flight.copies, flight.copies.loaded;
    match flight.call
    case StartCall(taskID, buildable) =>
      var c := PlanStart(loaded.task, copies.candidate, loaded.worker, copies.list, buildable, ids, now).value;
      StartLaunches(copies, buildable, ids, now);
      AcceptedWrote(db, c);
      LaunchKeepsInv(db, db', legacy, copies, taskID, c);
    case ContinueCall(taskID, text, buildable) =>
      var c := PlanContinue(loaded.task, copies.list, loaded.worker, text, buildable, ids, now).value;
      ContinueLaunches(copies, text, buildable, ids, now);
      AcceptedWrote(db, c);
      LaunchKeepsInv(db, db', legacy, copies, taskID, c);
  }

  lemma SteerCallKeepsInv(db: Db, db': Db, legacy: set<ID>, flight: Flight, ids: Drawn, now: Time)
    requires InOrder(db, legacy) && ReadNow(db, flight) && Perform(db, flight, ids, now) == Ok(db')
    requires flight.call.InterruptCall? || flight.call.RespondCall?
    ensures InOrder(db', legacy)
  {
    var copies, loaded := flight.copies, flight.copies.loaded;
    match flight.call
    case InterruptCall(taskID) =>
      var plan := PlanInterrupt(loaded.task, copies.list, ids, now).value;
      if plan.Some? {
        InterruptSteers(copies, ids, now);
        AcceptedWrote(db, plan.value);
        SteerKeepsInv(db, db', legacy, copies, taskID, plan.value);
      }
    case RespondCall(_, response, buildable) =>
      var plan := PlanRespond(loaded.interaction, loaded.task, loaded.worker, copies.list, response, buildable, ids,
                              now).value;
      if plan.Some? {
        RespondSteers(copies, response, buildable, ids, now);
        AcceptedWrote(db, plan.value);
        SteerKeepsInv(db, db', legacy, copies, loaded.interaction.value.taskID, plan.value);
      }
  }

  lemma ReconcilerCallKeepsInv(db: Db, db': Db, legacy: set<ID>, flight: Flight, ids: Drawn, now: Time)
    requires InOrder(db, legacy) && ReadNow(db, flight) && Perform(db, flight, ids, now) == Ok(db')
    requires flight.call.ClaimCall? || flight.call.NetworkFailureCall? || flight.call.MigrateCall?
    ensures InOrder(db', legacy)
  {
    var copies, loaded := flight.copies, flight.copies.loaded;
    match flight.call
    case ClaimCall(_) => assert db'.tasks == db.tasks && db'.rounds == db.rounds && db'.workers == db.workers;
    case NetworkFailureCall(roundID, _, acknowledged) =>
      assert LiveOK(db.tasks, db.rounds, roundID);
      VerdictKeepsInv(db, db', legacy, loaded, acknowledged, now,
                      OnNetworkFailure(loaded.round.value, loaded.intent, acknowledged, now).value);
    case MigrateCall(taskID) =>
      var plan := PlanMigration(loaded.task, copies.list, loaded.worker, now).value;
      if plan.Some? {
        var expected := if loaded.worker.Some? then loaded.worker.value.version else 0;
        MigrationKeepsInv(db, db', legacy, copies, taskID, now,
                          CommitMigration(db, plan.value.0, loaded.task.value.version, plan.value.1, expected).value.1);
      }
  }

  lemma MoveKeepsInv(db: Db, db': Db, legacy: set<ID>, move: Move)
    requires InOrder(db, legacy) && Takes(db, db', move) && WellAddressed(db, move)
    ensures InOrder(db', legacy)
  {
    match move
    case Whole(flight, ids, now) =>
      if Perform(db, flight, ids, now).Ok? {
        match flight.call
        case Remote(_, _, _) => RemoteUpdateKeepsInvIff(db, db', legacy, flight, ids, now);
        case FailRound(_, _, _, _) => FailRoundKeepsInvIff(db, db', legacy, flight, ids, now);
        case ClaimCall(_) => ReconcilerCallKeepsInv(db, db', legacy, flight, ids, now);
        case NetworkFailureCall(_, _, _) => ReconcilerCallKeepsInv(db, db', legacy, flight, ids, now);
        case MigrateCall(_) => ReconcilerCallKeepsInv(db, db', legacy, flight, ids, now);
        case StartCall(_, _) => LaunchCallKeepsInv(db, db', legacy, flight, ids, now);
        case ContinueCall(_, _, _) => LaunchCallKeepsInv(db, db', legacy, flight, ids, now);
        case _ => SteerCallKeepsInv(db, db', legacy, flight, ids, now);
      }
    case Simple(op, now) =>
      if PerformDirect(db, op, now).Ok? {
        DirectKeepsInv(db, db', legacy, op, now);
      }
  }

  ghost predicate IsAtomicRun(run: seq<Db>, moves: seq<Move>) {
    |run| == |moves| + 1 && forall i :: 0 <= i < |moves| ==> Takes(run[i], run[i + 1], moves[i])
  }

  /** Before the first A2A call: no rounds, leases in order; legacy are the tasks already active. */
  ghost predicate Before(db: Db, legacy: set<ID>) {
    && db.rounds == map[] && (forall id :: id in db.tasks ==> db.tasks[id].id == id)
    && (forall id :: id in db.tasks && db.tasks[id].status.Active() ==> id in legacy)
    && Leases(db.tasks, db.workers)
  }

  lemma {:induction false} RunKeepsInvariants(run: seq<Db>, moves: seq<Move>, legacy: set<ID>, i: nat)
    requires IsAtomicRun(run, moves) && Before(run[0], legacy) && i < |run|
    requires forall j :: 0 <= j < i ==> WellAddressed(run[j], moves[j])
    ensures InOrder(run[i], legacy)
  {
    if i > 0 {
      RunKeepsInvariants(run, moves, legacy, i - 1);
      MoveKeepsInv(run[i - 1], run[i], legacy, moves[i - 1]);
    }
  }

  /** One live round. In every run whose updates are well addressed, an active task has exactly one open round, it comes
      after all its others and runs on the task's worker; a task that is not active has no open round. */
  lemma OneLiveRound(run: seq<Db>, moves: seq<Move>, legacy: set<ID>, i: nat, t: ID)
    requires IsAtomicRun(run, moves) && Before(run[0], legacy) && i < |run| && t in run[i].tasks
    requires forall j :: 0 <= j < i ==> WellAddressed(run[j], moves[j])
    ensures var rounds := run[i].rounds;
            run[i].tasks[t].status.Active() && (t !in legacy || HasRound(rounds, t)) ==>
              exists id :: id in rounds && rounds[id].taskID == t && rounds[id].Live()
                           && rounds[id].workerID == run[i].tasks[t].workerID
                           && (forall o :: o in rounds && o != id && rounds[o].taskID == t ==>
                                             Later(rounds[id], rounds[o]) && !rounds[o].Live())
    ensures !run[i].tasks[t].status.Active() ==> forall o :: o in run[i].rounds && run[i].rounds[o].taskID == t ==>
                                                               !run[i].rounds[o].Live()
  {
    RunKeepsInvariants(run, moves, legacy, i);
    OneLiveMeans(run[i].tasks, run[i].rounds, legacy, t);
  }

  /** Lease conservation. In the same runs, a worker's list names a task, and names it once, exactly when the task is
      active and assigned to that worker; and the worker of an active task exists. */
  lemma LeaseConservation(run: seq<Db>, moves: seq<Move>, legacy: set<ID>, i: nat)
    requires IsAtomicRun(run, moves) && Before(run[0], legacy) && i < |run|
    requires forall j :: 0 <= j < i ==> WellAddressed(run[j], moves[j])
    ensures forall w, t :: w in run[i].workers ==>
                             (t in run[i].workers[w].currentTaskIDs <==> Holds(run[i].tasks, t, w))
    ensures forall w :: w in run[i].workers ==> NoDuplicates(run[i].workers[w].currentTaskIDs)
    ensures forall t :: t in run[i].tasks && run[i].tasks[t].status.Active() ==>
                          run[i].tasks[t].workerID in run[i].workers
  {
    RunKeepsInvariants(run, moves, legacy, i);
    forall w | w in run[i].workers
      ensures NoDuplicates(run[i].workers[w].currentTaskIDs)
      ensures forall t :: t in run[i].workers[w].currentTaskIDs <==> Holds(run[i].tasks, t, w)
    {
      assert LeaseOK(run[i].tasks, run[i].workers[w]);
    }
  }

  // ---------------------------------------------------------------- questions, in all runs

  lemma ProjectionCallKeepsQuestions(db: Db, db': Db, flight: Flight, ids: Drawn, now: Time)
    requires Asked(db) && ReadNow(db, flight) && Perform(db, flight, ids, now) == Ok(db')
    requires flight.call.Remote? || flight.call.FailRound?
    ensures Asked(db')
  {
    var loaded := flight.copies.loaded;
    match flight.call
    case Remote(roundID, intentID, update) =>
      var c := Plan(loaded, intentID.Some?, update, now).value;
      NeverDuplicate(db, flight, now, c);
      AppliedWrote(db, c);
      PlanIsPlanned(loaded, intentID.Some?, update, now);
      UpdateKeepsQuestions(db, db', loaded, update, now, c);
    case FailRound(roundID, intentID, code, message) =>
      if !(loaded.round.Some? && AlreadyFailed(loaded.round.value, code)) {
        var c := PlanFailure(loaded, intentID.Some?, code, message, now).value;
        FailureApplied(db, loaded, intentID.Some?, code, message, now);
        AppliedWrote(db, c);
        FailureIsPlanned(loaded, intentID.Some?, code, message, now);
        FailureKeepsQuestions(db, db', loaded, now, c);
      }
  }

  lemma CommandCallKeepsQuestions(db: Db, db': Db, flight: Flight, ids: Drawn, now: Time)
    requires Asked(db) && ReadNow(db, flight) && Perform(db, flight, ids, now) == Ok(db')
    requires flight.call.StartCall? || flight.call.ContinueCall?
             || flight.call.InterruptCall? || flight.call.RespondCall?
    ensures Asked(db')
  {
    var copies, loaded := flight.copies, flight.copies.loaded;
    match flight.call
    case StartCall(taskID, buildable) =>
      var c := PlanStart(loaded.task, copies.candidate, loaded.worker, copies.list, buildable, ids, now).value;
      StartLaunches(copies, buildable, ids, now);
      AcceptedWrote(db, c);
      CommandKeepsQuestions(db, db', copies, taskID, c);
    case ContinueCall(taskID, text, buildable) =>
      var c := PlanContinue(loaded.task, copies.list, loaded.worker, text, buildable, ids, now).value;
      ContinueLaunches(copies, text, buildable, ids, now);
      AcceptedWrote(db, c);
      CommandKeepsQuestions(db, db', copies, taskID, c);
    case InterruptCall(taskID) =>
      var plan := PlanInterrupt(loaded.task, copies.list, ids, now).value;
      if plan.Some? {
        InterruptSteers(copies, ids, now);
        AcceptedWrote(db, plan.value);
        CommandKeepsQuestions(db, db', copies, taskID, plan.value);
      }
    case RespondCall(_, response, buildable) =>
      var plan := PlanRespond(loaded.interaction, loaded.task, loaded.worker, copies.list, response, buildable, ids,
                              now).value;
      if plan.Some? {
        RespondSteers(copies, response, buildable, ids, now);
        AcceptedWrote(db, plan.value);
        CommandKeepsQuestions(db, db', copies, loaded.interaction.value.taskID, plan.value);
      }
  }

  lemma VerdictKeepsTables(db: Db, loaded: Loaded, verdict: Verdict)
    requires PerformVerdict(db, loaded, verdict).Ok?
    ensures var db' := PerformVerdict(db, loaded, verdict).value;
            db'.tasks == db.tasks && db'.interactions == db.interactions
  {
  }

  lemma ReconcilerCallKeepsQuestions(db: Db, db': Db, flight: Flight, ids: Drawn, now: Time)
    requires Asked(db) && ReadNow(db, flight) && Perform(db, flight, ids, now) == Ok(db')
    requires flight.call.ClaimCall? || flight.call.NetworkFailureCall? || flight.call.MigrateCall?
    ensures Asked(db')
  {
    var copies, loaded := flight.copies, flight.copies.loaded;
    match flight.call
    case ClaimCall(_) => assert db'.tasks == db.tasks && db'.interactions == db.interactions;
    case NetworkFailureCall(_, _, acknowledged) =>
      VerdictKeepsTables(db, loaded, OnNetworkFailure(loaded.round.value, loaded.intent, acknowledged, now).value);
    case MigrateCall(taskID) =>
      var plan := PlanMigration(loaded.task, copies.list, loaded.worker, now).value;
      if plan.Some? {
        var expected := if loaded.worker.Some? then loaded.worker.value.version else 0;
        MigrationKeepsQuestions(db, plan.value.0, loaded.task.value.version, plan.value.1, expected, db',
                                CommitMigration(db, plan.value.0, loaded.task.value.version, plan.value.1,
                                                expected).value.1);
      }
  }

  lemma MoveKeepsQuestions(db: Db, db': Db, move: Move)
    requires Asked(db) && Takes(db, db', move)
    ensures Asked(db')
  {
    match move
    case Whole(flight, ids, now) =>
      if Perform(db, flight, ids, now).Ok? {
        match flight.call
        case Remote(_, _, _) => ProjectionCallKeepsQuestions(db, db', flight, ids, now);
        case FailRound(_, _, _, _) => ProjectionCallKeepsQuestions(db, db', flight, ids, now);
        case ClaimCall(_) => ReconcilerCallKeepsQuestions(db, db', flight, ids, now);
        case NetworkFailureCall(_, _, _) => ReconcilerCallKeepsQuestions(db, db', flight, ids, now);
        case MigrateCall(_) => ReconcilerCallKeepsQuestions(db, db', flight, ids, now);
        case _ => CommandCallKeepsQuestions(db, db', flight, ids, now);
      }
    case Simple(op, now) =>
      if PerformDirect(db, op, now).Ok? {
        DirectKeepsQuestions(db, db', op, now);
      }
  }

  /** No orphan questions: in every run, well addressed or not, a pending interaction belongs to an active task. */
  lemma {:induction false} NoOrphanQuestions(run: seq<Db>, moves: seq<Move>, i: nat)
    requires IsAtomicRun(run, moves) && Asked(run[0]) && i < |run|
    ensures Asked(run[i])
    ensures forall q :: q in run[i].interactions && run[i].interactions[q].status.ASKED? ==>
                          run[i].interactions[q].taskID in run[i].tasks
                          && run[i].tasks[run[i].interactions[q].taskID].status.Active()
  {
    if i > 0 {
      NoOrphanQuestions(run, moves, i - 1);
      MoveKeepsQuestions(run[i - 1], run[i], moves[i - 1]);
    }
  }
}
