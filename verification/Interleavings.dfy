/** The invariants of ManagerInvariants in the machine of ManagerRuns: calls of every kind in flight, each with its own
    and perhaps old copies. A condition on a call is taken at its commit. */
module Interleavings {
  import opened Wrappers
  import opened Domain
  import opened Events
  import opened ManagerStore
  import opened Projection
  import opened Service
  import opened Retries
  import opened ManagerRuns
  import opened TaskInvariants
  import opened ManagerInvariants
  import opened DeliveryRuns

  // ---------------------------------------------------------------- what a call holds

  ghost predicate Sorted(list: seq<Round>) {
    forall i, j :: 0 <= i < j < |list| ==> !Later(list[i], list[j])
  }

  /** The copies are old versions of stored records, belong together, and the list is in order. */
  ghost predicate Ready(s: State, flight: Flight) {
    CopiesOK(s.db, s.issued, flight.copies) && Linked(flight) && Sorted(flight.copies.list)
  }

  ghost predicate AllReady(s: State) {
    Sound(s.db, s.issued) && forall f :: f in s.flights ==> Ready(s, s.flights[f])
  }

  lemma NextKeepsReady(s: State, s': State, f: nat, action: Action)
    requires AllReady(s) && Next(s, s', f, action)
    ensures AllReady(s')
  {
    NextKeepsInv(s, s', f, action);
    forall g | g in s'.flights ensures Linked(s'.flights[g]) && Sorted(s'.flights[g].copies.list) {
      if action.Fetch? && g == f {
        LoadsLink(s.db, s.issued, s.flights[f], action.load, action.copies);
      } else if !(action.Begin? && g == f) {
        assert s'.flights[g] == s.flights[g];
      }
    }
  }

  lemma {:induction false} RunIsReady(run: seq<State>, moves: seq<(nat, Action)>, i: nat)
    requires IsRun(run, moves) && i < |run|
    ensures AllReady(run[i])
  {
    if i > 0 {
      RunIsReady(run, moves, i - 1);
      NextKeepsReady(run[i - 1], run[i], moves[i - 1].0, moves[i - 1].1);
    }
  }

  // ---------------------------------------------------------------- what a commit amounts to

  /** What a commit did. */
  datatype Deed =
    | Silent
    | Updated(update: Update, projection: ProjectionCommit)
    | Failed(projection: ProjectionCommit)
    | Launched(command: CommandCommit)
    | Steered(command: CommandCommit)
    | Marked
    | Retired(failed: Task, worker: Option<Worker>)

  /** A worker is written over the version of it that was read. */
  ghost predicate Vouched(db: Db, loaded: Loaded, worker: Option<Worker>) {
    worker.Some? ==>
      && loaded.worker.Some? && worker.value.id == loaded.worker.value.id
      && (loaded.worker.value.version > 0 ==>
            worker.value.id in db.workers && db.workers[worker.value.id].version == loaded.worker.value.version)
  }

  ghost predicate SameTables(db: Db, db': Db) {
    && db'.tasks == db.tasks && db'.rounds == db.rounds && db'.workers == db.workers
    && db'.interactions == db.interactions
  }

  ghost predicate Marks(db: Db, loaded: Loaded, now: Time, db': Db) {
    && loaded.round.Some? && loaded.round.value.id in db.rounds
    && db.rounds[loaded.round.value.id] == loaded.round.value
    && db'.rounds == db.rounds[loaded.round.value.id := loaded.round.value.MarkUnreachable(now)]
    && db'.tasks == db.tasks && db'.workers == db.workers && db'.interactions == db.interactions
  }

  /** A legacy task is ended, and released by its worker when that was read. */
  ghost predicate Retires(db: Db, loaded: Loaded, now: Time, db': Db, failed: Task, worker: Option<Worker>) {
    && TaskHeld(db, loaded) && loaded.task.value.status.Active() && loaded.task.value.Runs(failed)
    && !failed.status.Active() && !HasRound(db.rounds, failed.id)
    && worker == (if failed.workerID != "" && loaded.worker.Some?
                  then Some(loaded.worker.value.ReleaseTask(failed.id, now)) else None)
    && (worker.Some? ==> worker.value.id == failed.workerID) && Vouched(db, loaded, worker)
    && db'.rounds == db.rounds && db'.tasks == db.tasks[failed.id := failed]
    && db'.workers == (if worker.Some? then db.workers[worker.value.id := worker.value] else db.workers)
    && db'.interactions == CancelPending(db.interactions, failed.id, failed.updatedAt)
  }

  /** The deed was computed from the records that the store holds. */
  ghost predicate Did(db: Db, copies: Copies, now: Time, db': Db, deed: Deed) {
    var loaded := copies.loaded;
    match deed
    case Silent => SameTables(db, db')
    case Updated(update, c) =>
      Held(db, loaded) && Planned(loaded, update, now, c) && Wrote(db, db', c) && Vouched(db, loaded, c.worker)
    case Failed(c) =>
      Held(db, loaded) && PlannedFailure(loaded, now, c) && Wrote(db, db', c) && Vouched(db, loaded, c.worker)
    case Launched(c) =>
      && TaskHeld(db, loaded) && Launches(copies, c) && CommandWrote(db, db', c) && Vouched(db, loaded, c.worker)
      && !TurnTaken(db.rounds, c.round) && (copies.list == [] ==> c.round.attempt == 1 && c.round.turn == 1)
    case Steered(c) => TaskHeld(db, loaded) && Steers(copies, c) && CommandWrote(db, db', c)
    case Marked => Marks(db, loaded, now, db')
    case Retired(failed, worker) => Retires(db, loaded, now, db', failed, worker)
  }

  /** The deeds a call can do. */
  predicate Fitting(call: Call, deed: Deed) {
    match deed
    case Silent => true
    case Updated(update, _) => call.Remote? && call.update == update
    case Failed(_) => call.FailRound?
    case Launched(_) => call.StartCall? || call.ContinueCall?
    case Steered(_) => call.InterruptCall? || call.RespondCall?
    case Marked => call.NetworkFailureCall?
    case Retired(_, _) => call.MigrateCall?
  }

  lemma PlanVouches(db: Db, loaded: Loaded, dispatched: bool, update: Update, now: Time, c: ProjectionCommit)
    requires Plan(loaded, dispatched, update, now) == Ok(c) && CommitProjection(db, c).Ok?
             && CommitProjection(db, c).value.1.APPLIED?
    ensures Vouched(db, loaded, c.worker)
  {
    PlanIsPlanned(loaded, dispatched, update, now);
  }

  lemma CurrentIsHeld(db: Db, flight: Flight, c: ProjectionCommit)
    requires Linked(flight) && Current(db, flight.copies.loaded, c) && Writes(flight.copies.loaded, c)
    ensures Held(db, flight.copies.loaded)
  {
  }

  lemma RemoteDid(s: State, flight: Flight, ids: Drawn, now: Time, db': Db) returns (deed: Deed)
    requires Ready(s, flight) && flight.call.Remote? && Perform(s.db, flight, ids, now) == Ok(db')
    ensures Did(s.db, flight.copies, now, db', deed) && Fitting(flight.call, deed)
  {
    var c, d := RemoteIsCurrent(s.db, s.issued, flight, ids, now, db');
    if d.APPLIED? {
      deed := UpdateDid(s.db, flight, now, c, db');
    } else {
      deed := Silent;
    }
  }

  lemma UpdateDid(db: Db, flight: Flight, now: Time, c: ProjectionCommit, db': Db) returns (deed: Deed)
    requires Linked(flight) && flight.call.Remote? && Current(db, flight.copies.loaded, c)
    requires Plan(flight.copies.loaded, flight.call.intentID.Some?, flight.call.update, now) == Ok(c)
    requires CommitProjection(db, c) == Ok((db', APPLIED))
    ensures Did(db, flight.copies, now, db', deed) && Fitting(flight.call, deed)
  {
    var loaded, dispatched, update := flight.copies.loaded, flight.call.intentID.Some?, flight.call.update;
    PlanWrites(loaded, dispatched, update, now);
    PlanIsPlanned(loaded, dispatched, update, now);
    PlanVouches(db, loaded, dispatched, update, now, c);
    CurrentIsHeld(db, flight, c);
    AppliedWrote(db, c);
    deed := Updated(update, c);
  }

  /** The round of the call already failed so. */
  predicate Repeats(flight: Flight) {
    flight.call.FailRound? && flight.copies.loaded.round.Some?
    && AlreadyFailed(flight.copies.loaded.round.value, flight.call.code)
  }

  lemma FailRoundDid(s: State, flight: Flight, ids: Drawn, now: Time, db': Db) returns (deed: Deed)
    requires Ready(s, flight) && flight.call.FailRound? && Perform(s.db, flight, ids, now) == Ok(db')
    ensures Did(s.db, flight.copies, now, db', deed) && Fitting(flight.call, deed)
    ensures Repeats(flight) ==> deed.Silent?
  {
    var loaded := flight.copies.loaded;
    if Repeats(flight) {
      deed := Silent;
    } else {
      var c := FailureCurrent(s.db, s.issued, flight, ids, now, db');
      deed := FailureDid(s.db, flight, now, c, db');
    }
  }

  lemma FailureDid(db: Db, flight: Flight, now: Time, c: ProjectionCommit, db': Db) returns (deed: Deed)
    requires Linked(flight) && flight.call.FailRound? && Current(db, flight.copies.loaded, c)
    requires PlanFailure(flight.copies.loaded, flight.call.intentID.Some?, flight.call.code, flight.call.message, now)
             == Ok(c)
    requires CommitProjection(db, c) == Ok((db', APPLIED))
    ensures Did(db, flight.copies, now, db', deed) && Fitting(flight.call, deed)
  {
    var loaded, dispatched := flight.copies.loaded, flight.call.intentID.Some?;
    PlanFailureWrites(loaded, dispatched, flight.call.code, flight.call.message, now);
    FailureIsPlanned(loaded, dispatched, flight.call.code, flight.call.message, now);
    CurrentIsHeld(db, flight, c);
    AppliedWrote(db, c);
    deed := Failed(c);
  }

  predicate ExpectsRead(copies: Copies, c: CommandCommit) {
    && c.worker.Some? && copies.loaded.worker.Some? && c.worker.value.id == copies.loaded.worker.value.id
    && c.expectedWorker == copies.loaded.worker.value.version
  }

  lemma CommandHeld(db: Db, issued: set<ID>, copies: Copies, ids: Drawn, c: CommandCommit, db': Db)
    requires CopiesOK(db, issued, copies) && Orders(copies, ids, c) && CommitCommand(db, c) == Ok(db')
    ensures TaskHeld(db, copies.loaded) && CommandWrote(db, db', c)
            && (c.createRound ==> !TurnTaken(db.rounds, c.round))
    ensures ExpectsRead(copies, c) ==> Vouched(db, copies.loaded, c.worker)
  {
    AcceptedIsCurrent(db, issued, copies, ids, c);
    AcceptedWrote(db, c);
  }

  lemma StartBegins(copies: Copies, buildable: bool, ids: Drawn, now: Time, c: CommandCommit)
    requires PlanStart(copies.loaded.task, copies.candidate, copies.loaded.worker, copies.list, buildable, ids, now)
             == Ok(c)
    ensures copies.list == [] ==> c.round.attempt == 1 && c.round.turn == 1
    ensures copies.loaded.worker.Some? && c.expectedWorker == copies.loaded.worker.value.version
  {
  }

  lemma StartDid(s: State, flight: Flight, ids: Drawn, now: Time, db': Db) returns (deed: Deed)
    requires Ready(s, flight) && flight.call.StartCall? && Perform(s.db, flight, ids, now) == Ok(db')
    ensures Did(s.db, flight.copies, now, db', deed) && Fitting(flight.call, deed)
  {
    var c := StartCommits(s.db, flight, ids, now, db');
    StartOrders(flight.copies, flight.call.buildable, ids, now);
    StartLaunches(flight.copies, flight.call.buildable, ids, now);
    StartBegins(flight.copies, flight.call.buildable, ids, now, c);
    CommandHeld(s.db, s.issued, flight.copies, ids, c, db');
    deed := Launched(c);
  }

  lemma ContinueBegins(copies: Copies, text: string, buildable: bool, ids: Drawn, now: Time, c: CommandCommit)
    requires PlanContinue(copies.loaded.task, copies.list, copies.loaded.worker, text, buildable, ids, now) == Ok(c)
    ensures copies.list != [] && copies.loaded.worker.Some? && c.expectedWorker == copies.loaded.worker.value.version
  {
  }

  lemma ContinueDid(s: State, flight: Flight, ids: Drawn, now: Time, db': Db) returns (deed: Deed)
    requires Ready(s, flight) && flight.call.ContinueCall? && Perform(s.db, flight, ids, now) == Ok(db')
    ensures Did(s.db, flight.copies, now, db', deed) && Fitting(flight.call, deed)
  {
    var text, buildable := flight.call.text, flight.call.buildable;
    var c := ContinueCommits(s.db, flight, ids, now, db');
    ContinueOrders(flight.copies, text, buildable, ids, now);
    ContinueLaunches(flight.copies, text, buildable, ids, now);
    ContinueBegins(flight.copies, text, buildable, ids, now, c);
    CommandHeld(s.db, s.issued, flight.copies, ids, c, db');
    deed := Launched(c);
  }

  lemma InterruptDid(s: State, flight: Flight, ids: Drawn, now: Time, db': Db) returns (deed: Deed)
    requires Ready(s, flight) && flight.call.InterruptCall? && Perform(s.db, flight, ids, now) == Ok(db')
    ensures Did(s.db, flight.copies, now, db', deed) && Fitting(flight.call, deed)
  {
    var plan := PlanInterrupt(flight.copies.loaded.task, flight.copies.list, ids, now).value;
    if plan.Some? {
      InterruptOrders(flight.copies, ids, now);
      InterruptSteers(flight.copies, ids, now);
      CommandHeld(s.db, s.issued, flight.copies, ids, plan.value, db');
      deed := Steered(plan.value);
    } else {
      deed := Silent;
    }
  }

  lemma RespondDid(s: State, flight: Flight, ids: Drawn, now: Time, db': Db) returns (deed: Deed)
    requires Ready(s, flight) && flight.call.RespondCall? && Perform(s.db, flight, ids, now) == Ok(db')
    ensures Did(s.db, flight.copies, now, db', deed) && Fitting(flight.call, deed)
  {
    var plan := RespondCommits(s.db, flight, ids, now, db');
    if plan.Some? {
      RespondOrders(flight.copies, flight.call.response, flight.call.buildable, ids, now);
      RespondSteers(flight.copies, flight.call.response, flight.call.buildable, ids, now);
      CommandHeld(s.db, s.issued, flight.copies, ids, plan.value, db');
      deed := Steered(plan.value);
    } else {
      deed := Silent;
    }
  }

  lemma ClaimDid(s: State, flight: Flight, ids: Drawn, now: Time, db': Db) returns (deed: Deed)
    requires Ready(s, flight) && flight.call.ClaimCall? && Perform(s.db, flight, ids, now) == Ok(db')
    ensures Did(s.db, flight.copies, now, db', deed) && Fitting(flight.call, deed)
  {
    deed := Silent;
  }

  lemma VerdictDid(db: Db, issued: set<ID>, copies: Copies, acknowledged: bool, now: Time, verdict: Verdict, db': Db)
    requires CopiesOK(db, issued, copies) && copies.loaded.round.Some?
    requires OnNetworkFailure(copies.loaded.round.value, copies.loaded.intent, acknowledged, now) == Ok(verdict)
    requires PerformVerdict(db, copies.loaded, verdict) == Ok(db')
    ensures if verdict.GiveUp? then SameTables(db, db') else Marks(db, copies.loaded, now, db')
  {
    VerdictMarks(db, db', copies.loaded, acknowledged, now, verdict);
    VerdictKeepsTables(db, copies.loaded, verdict);
  }

  lemma NetworkFailureDid(s: State, flight: Flight, ids: Drawn, now: Time, db': Db) returns (deed: Deed)
    requires Ready(s, flight) && flight.call.NetworkFailureCall? && Perform(s.db, flight, ids, now) == Ok(db')
    ensures Did(s.db, flight.copies, now, db', deed) && Fitting(flight.call, deed)
  {
    var verdict := FailureCommits(s.db, flight, ids, now, db');
    VerdictDid(s.db, s.issued, flight.copies, flight.call.acknowledged, now, verdict, db');
    deed := if verdict.GiveUp? then Silent else Marked;
  }

  lemma MigrateCommits(db: Db, flight: Flight, ids: Drawn, now: Time, db': Db)
    returns (plan: Option<(Task, Option<Worker>)>, applied: bool)
    requires flight.call.MigrateCall? && Perform(db, flight, ids, now) == Ok(db')
    ensures var loaded := flight.copies.loaded;
            && PlanMigration(loaded.task, flight.copies.list, loaded.worker, now) == Ok(plan)
            && if plan.None? then db' == db else
                 CommitMigration(db, plan.value.0, loaded.task.value.version, plan.value.1,
                                 if loaded.worker.Some? then loaded.worker.value.version else 0) == Ok((db', applied))
  {
    var loaded := flight.copies.loaded;
    plan := PlanMigration(loaded.task, flight.copies.list, loaded.worker, now).value;
    applied := false;
    if plan.Some? {
      applied := CommitMigration(db, plan.value.0, loaded.task.value.version, plan.value.1,
                                 if loaded.worker.Some? then loaded.worker.value.version else 0).value.1;
    }
  }

  lemma MigrationDid(db: Db, issued: set<ID>, copies: Copies, now: Time, plan: (Task, Option<Worker>), db': Db)
    requires CopiesOK(db, issued, copies)
    requires PlanMigration(copies.loaded.task, copies.list, copies.loaded.worker, now) == Ok(Some(plan))
    requires CommitMigration(db, plan.0, copies.loaded.task.value.version, plan.1,
                             if copies.loaded.worker.Some? then copies.loaded.worker.value.version else 0)
             == Ok((db', true))
    ensures Retires(db, copies.loaded, now, db', plan.0, plan.1)
  {
    MigrationWrote(db, plan.0, copies.loaded.task.value.version, plan.1,
                   if copies.loaded.worker.Some? then copies.loaded.worker.value.version else 0);
  }

  lemma MigrateDid(s: State, flight: Flight, ids: Drawn, now: Time, db': Db) returns (deed: Deed)
    requires Ready(s, flight) && flight.call.MigrateCall? && Perform(s.db, flight, ids, now) == Ok(db')
    ensures Did(s.db, flight.copies, now, db', deed) && Fitting(flight.call, deed)
  {
    var plan, applied := MigrateCommits(s.db, flight, ids, now, db');
    deed := Silent;
    if plan.Some? && applied {
      MigrationDid(s.db, s.issued, flight.copies, now, plan.value, db');
      deed := Retired(plan.value.0, plan.value.1);
    }
  }

  /** Every commit is one of the deeds, on the stored records. */
  lemma CommitDid(s: State, flight: Flight, ids: Drawn, now: Time, db': Db) returns (deed: Deed)
    requires Ready(s, flight) && Perform(s.db, flight, ids, now) == Ok(db')
    ensures Did(s.db, flight.copies, now, db', deed) && Fitting(flight.call, deed)
    ensures Repeats(flight) ==> deed.Silent?
  {
    match flight.call
    case Remote(_, _, _) => deed := RemoteDid(s, flight, ids, now, db');
    case FailRound(_, _, _, _) => deed := FailRoundDid(s, flight, ids, now, db');
    case StartCall(_, _) => deed := StartDid(s, flight, ids, now, db');
    case ContinueCall(_, _, _) => deed := ContinueDid(s, flight, ids, now, db');
    case InterruptCall(_) => deed := InterruptDid(s, flight, ids, now, db');
    case RespondCall(_, _, _) => deed := RespondDid(s, flight, ids, now, db');
    case ClaimCall(_) => deed := ClaimDid(s, flight, ids, now, db');
    case NetworkFailureCall(_, _, _) => deed := NetworkFailureDid(s, flight, ids, now, db');
    case MigrateCall(_) => deed := MigrateDid(s, flight, ids, now, db');
  }

  // ---------------------------------------------------------------- no orphan questions

  lemma DeedKeepsQuestions(db: Db, copies: Copies, now: Time, db': Db, deed: Deed)
    requires Asked(db) && Did(db, copies, now, db', deed)
    ensures Asked(db')
  {
    match deed
    case Updated(update, c) => UpdateKeepsQuestions(db, db', copies.loaded, update, now, c);
    case Failed(c) => FailureKeepsQuestions(db, db', copies.loaded, now, c);
    case Launched(c) => CommandKeepsQuestions(db, db', copies, c.task.id, c);
    case Steered(c) => CommandKeepsQuestions(db, db', copies, c.task.id, c);
    case Retired(failed, _) =>
      CancelKeepsQuestions(db.tasks, db.interactions, failed, None, failed.updatedAt);
    case _ =>
  }

  lemma NextKeepsQuestions(s: State, s': State, f: nat, action: Action)
    requires AllReady(s) && Asked(s.db) && Next(s, s', f, action)
    ensures Asked(s'.db)
  {
    match action
    case Commit(ids, now) =>
      if Perform(s.db, s.flights[f], ids, now).Ok? {
        var deed := CommitDid(s, s.flights[f], ids, now, s'.db);
        DeedKeepsQuestions(s.db, s.flights[f].copies, now, s'.db, deed);
      }
    case Do(op, now) =>
      if PerformDirect(s.db, op, now).Ok? {
        DirectKeepsQuestions(s.db, s'.db, op, now);
      }
    case _ =>
  }

  /** No orphan questions: in every interleaving a pending interaction belongs to an active task. */
  lemma {:induction false} NoOrphanQuestions(run: seq<State>, moves: seq<(nat, Action)>, i: nat)
    requires IsRun(run, moves) && Asked(run[0].db) && i < |run|
    ensures Asked(run[i].db)
    ensures var db := run[i].db;
            forall q :: q in db.interactions && db.interactions[q].status.ASKED? ==>
                          db.interactions[q].taskID in db.tasks && db.tasks[db.interactions[q].taskID].status.Active()
  {
    if i > 0 {
      NoOrphanQuestions(run, moves, i - 1);
      RunIsReady(run, moves, i - 1);
      NextKeepsQuestions(run[i - 1], run[i], moves[i - 1].0, moves[i - 1].1);
    }
  }

  // ---------------------------------------------------------------- lists are whole while their task is unchanged

  predicate Listed(list: seq<Round>, id: ID) {
    exists i :: 0 <= i < |list| && list[i].id == id
  }

  /** While the task is as it was read, a list that was read has every round of it. */
  ghost predicate Complete(db: Db, copies: Copies) {
    copies.list != [] && TaskHeld(db, copies.loaded) ==>
      forall id :: id in db.rounds && db.rounds[id].taskID == copies.loaded.task.value.id ==> Listed(copies.list, id)
  }

  predicate HasFirst(rounds: map<ID, Round>, taskID: ID) {
    exists id :: id in rounds && rounds[id].taskID == taskID && rounds[id].attempt == 1 && rounds[id].turn == 1
  }

  /** A task with rounds has a first one. */
  ghost predicate FirstTurns(rounds: map<ID, Round>) {
    forall id :: id in rounds ==> HasFirst(rounds, rounds[id].taskID)
  }

  /** A new round changes its task, and is its first one unless there is another. */
  ghost predicate Born(db: Db, db': Db, round: Round) {
    && round.taskID in db.tasks && round.taskID in db'.tasks && db'.tasks[round.taskID] != db.tasks[round.taskID]
    && ((round.attempt == 1 && round.turn == 1) || HasRound(db.rounds, round.taskID))
  }

  ghost predicate Births(db: Db, db': Db) {
    forall id :: id in db'.rounds && id !in db.rounds ==> Born(db, db', db'.rounds[id])
  }

  lemma WholeStays(db: Db, db': Db, issued: set<ID>, copies: Copies)
    requires Forward(db, db', issued) && CopiesOK(db, issued, copies) && Births(db, db') && Complete(db, copies)
    ensures Complete(db', copies)
  {
    if copies.list != [] && TaskHeld(db', copies.loaded) {
      var t := copies.loaded.task.value;
      assert TaskHeld(db, copies.loaded);
      forall id | id in db'.rounds && db'.rounds[id].taskID == t.id ensures Listed(copies.list, id) {
        assert id !in db.rounds ==> Born(db, db', db'.rounds[id]);
      }
    }
  }

  lemma FirstTurnsStay(db: Db, db': Db, issued: set<ID>)
    requires Forward(db, db', issued) && Births(db, db') && FirstTurns(db.rounds)
    requires forall id :: id in db'.rounds ==> db'.rounds[id].taskID in db'.tasks
    ensures FirstTurns(db'.rounds)
  {
    forall id | id in db'.rounds ensures HasFirst(db'.rounds, db'.rounds[id].taskID) {
      var r := db'.rounds[id];
      if id !in db.rounds && r.attempt == 1 && r.turn == 1 {
        assert HasFirst(db'.rounds, r.taskID);
      } else {
        assert id !in db.rounds ==> Born(db, db', r);
        assert HasRound(db.rounds, r.taskID);
        assert HasFirst(db.rounds, r.taskID);
        var first :| first in db.rounds && db.rounds[first].taskID == r.taskID && db.rounds[first].attempt == 1
                     && db.rounds[first].turn == 1;
        assert first in db'.rounds;
      }
    }
  }

  lemma LoadsWhole(db: Db, issued: set<ID>, flight: Flight, load: Load, copies: Copies)
    requires RoundsSound(db.rounds, issued) && Complete(db, flight.copies) && Loads(db, flight, load, copies)
    ensures Complete(db, copies)
  {
    if load.LoadList? && copies.list != [] {
      forall id | id in db.rounds && db.rounds[id].taskID == copies.loaded.task.value.id
        ensures Listed(copies.list, id)
      {
        assert db.rounds[id] in copies.list;
      }
    }
  }

  // ---------------------------------------------------------------- one live round

  ghost predicate Aligned(s: State, legacy: set<ID>) {
    && AllReady(s) && OneLive(s.db.tasks, s.db.rounds, legacy) && FirstTurns(s.db.rounds)
    && forall f :: f in s.flights ==> Complete(s.db, s.flights[f].copies)
  }

  /** The new round comes after every stored round of its task. */
  lemma LaunchIsLast(db: Db, issued: set<ID>, copies: Copies, c: CommandCommit, o: ID)
    requires CopiesOK(db, issued, copies) && Complete(db, copies) && FirstTurns(db.rounds)
             && RoundsSound(db.rounds, issued)
    requires TaskHeld(db, copies.loaded) && Launches(copies, c) && !TurnTaken(db.rounds, c.round)
    requires copies.list == [] ==> c.round.attempt == 1 && c.round.turn == 1
    requires o in db.rounds && db.rounds[o].taskID == c.task.id
    ensures Later(c.round, db.rounds[o])
  {
    assert HasFirst(db.rounds, c.task.id);
    var first :| first in db.rounds && db.rounds[first].taskID == c.task.id && db.rounds[first].attempt == 1
                 && db.rounds[first].turn == 1;
    assert copies.list == [] ==> TurnTaken(db.rounds, c.round);
    if copies.list != [] {
      assert Listed(copies.list, o);
      var i :| 0 <= i < |copies.list| && copies.list[i].id == o;
      assert ListCopy(db, issued, copies.loaded.task.value, copies.list[i]);
    }
  }

  lemma LaunchedKeepsOneLive(s: State, legacy: set<ID>, copies: Copies, now: Time, db': Db, c: CommandCommit)
    requires OneLive(s.db.tasks, s.db.rounds, legacy) && FirstTurns(s.db.rounds) && Sound(s.db, s.issued)
    requires CopiesOK(s.db, s.issued, copies) && Complete(s.db, copies) && Did(s.db, copies, now, db', Launched(c))
    ensures OneLive(db'.tasks, db'.rounds, legacy) && Births(s.db, db')
  {
    forall o | o in s.db.rounds && s.db.rounds[o].taskID == c.task.id ensures Later(c.round, s.db.rounds[o]) {
      LaunchIsLast(s.db, s.issued, copies, c, o);
    }
    LaunchKeepsOneLive(s.db.tasks, s.db.rounds, legacy, c.task, c.round);
    if copies.list != [] {
      assert ListCopy(s.db, s.issued, copies.loaded.task.value, copies.list[0]);
      assert HasRound(s.db.rounds, c.task.id);
    }
  }

  /** An update or a failure that ends an active task goes to its last round. */
  ghost predicate Aimed(db: Db, copies: Copies, deed: Deed)
    requires deed.Updated? || deed.Failed? ==> Held(db, copies.loaded)
  {
    match deed
    case Updated(update, _) => Addressed(db, copies.loaded.round.value, update.status)
    case Failed(_) => Owns(db, copies.loaded.round.value)
    case _ => true
  }

  lemma ProjectedKeepsOneLive(db: Db, legacy: set<ID>, copies: Copies, now: Time, db': Db, deed: Deed)
    requires OneLive(db.tasks, db.rounds, legacy) && Did(db, copies, now, db', deed)
    requires (deed.Updated? || deed.Failed?) && Aimed(db, copies, deed)
    ensures OneLive(db'.tasks, db'.rounds, legacy) && Births(db, db')
  {
    match deed
    case Updated(update, c) => UpdateKeepsOneLive(db, db', legacy, copies.loaded, update, now, c);
    case Failed(c) => FailureKeepsOneLive(db, db', legacy, copies.loaded, now, c);
  }

  lemma MarkedKeepsOneLive(db: Db, legacy: set<ID>, copies: Copies, now: Time, db': Db)
    requires OneLive(db.tasks, db.rounds, legacy) && Marks(db, copies.loaded, now, db')
    ensures OneLive(db'.tasks, db'.rounds, legacy) && Births(db, db')
  {
    assert LiveOK(db.tasks, db.rounds, copies.loaded.round.value.id);
    RoundKeepsOneLive(db.tasks, db.rounds, legacy, copies.loaded.round.value.MarkUnreachable(now));
  }

  lemma DeedKeepsOneLive(s: State, legacy: set<ID>, copies: Copies, now: Time, db': Db, deed: Deed)
    requires OneLive(s.db.tasks, s.db.rounds, legacy) && FirstTurns(s.db.rounds) && Sound(s.db, s.issued)
    requires CopiesOK(s.db, s.issued, copies) && Complete(s.db, copies) && Did(s.db, copies, now, db', deed)
    requires Aimed(s.db, copies, deed)
    ensures OneLive(db'.tasks, db'.rounds, legacy) && Births(s.db, db')
  {
    match deed
    case Silent => assert db'.rounds == s.db.rounds;
    case Updated(_, _) => ProjectedKeepsOneLive(s.db, legacy, copies, now, db', deed);
    case Failed(_) => ProjectedKeepsOneLive(s.db, legacy, copies, now, db', deed);
    case Launched(c) => LaunchedKeepsOneLive(s, legacy, copies, now, db', c);
    case Steered(c) => TaskKeepsOneLive(s.db.tasks, s.db.rounds, legacy, c.task);
    case Marked => MarkedKeepsOneLive(s.db, legacy, copies, now, db');
    case Retired(failed, _) => RetireKeepsOneLive(s.db.tasks, s.db.rounds, legacy, failed);
  }

  lemma DirectKeepsOneLive(db: Db, db': Db, legacy: set<ID>, op: Direct, now: Time)
    requires OneLive(db.tasks, db.rounds, legacy) && PerformDirect(db, op, now) == Ok(db')
             && (op.DoCreate? ==> op.id !in db.tasks)
    ensures OneLive(db'.tasks, db'.rounds, legacy) && Births(db, db')
  {
    match op
    case DoAssign(taskID, workerID, agent) =>
      var task := AssignRests(db, taskID, workerID, agent, now);
      TaskKeepsOneLive(db.tasks, db.rounds, legacy, task);
    case DoCreate(id, title, projectID, agent, workerID) =>
      var task := CreatedIsIdle(db, id, title, projectID, agent, workerID, now);
      CreateKeepsOneLive(db.tasks, db.rounds, legacy, task);
    case DoEdit(taskID, projectID, agent) =>
      var task := EditRests(db, taskID, projectID, agent, now);
      TaskKeepsOneLive(db.tasks, db.rounds, legacy, task);
    case DoArchive(taskID) =>
      var task := ArchiveRests(db, taskID, now);
      TaskKeepsOneLive(db.tasks, db.rounds, legacy, task);
    case DoRetry(taskID) => TaskKeepsOneLive(db.tasks, db.rounds, legacy, db'.tasks[taskID]);
    case DoDelete(taskID) => DeleteKeepsOneLive(db.tasks, db.rounds, legacy, taskID, db'.rounds);
    case _ =>
  }

  /** The condition of WellAddressed, at the commit. */
  ghost predicate AimedAt(s: State, f: nat, action: Action) {
    action.Commit? && f in s.flights ==>
      WellAddressed(s.db, Whole(s.flights[f], action.ids, action.now))
  }

  /** Only the two kinds of projection have something to aim at. */
  lemma CommitIsAimed(s: State, flight: Flight, ids: Drawn, now: Time, db': Db, deed: Deed)
    requires Ready(s, flight) && Sound(s.db, s.issued) && Did(s.db, flight.copies, now, db', deed)
    requires Fitting(flight.call, deed) && (Repeats(flight) ==> deed.Silent?)
    ensures deed.Updated? || deed.Failed? ==>
              (WellAddressed(s.db, Whole(flight, ids, now)) <==> Aimed(s.db, flight.copies, deed))
    ensures !(deed.Updated? || deed.Failed?) ==> Aimed(s.db, flight.copies, deed)
  {
  }

  lemma CommitKeepsAligned(s: State, legacy: set<ID>, flight: Flight, ids: Drawn, now: Time, db': Db)
    requires OneLive(s.db.tasks, s.db.rounds, legacy) && FirstTurns(s.db.rounds) && Sound(s.db, s.issued)
    requires Ready(s, flight) && Complete(s.db, flight.copies) && Perform(s.db, flight, ids, now) == Ok(db')
    requires WellAddressed(s.db, Whole(flight, ids, now))
    ensures OneLive(db'.tasks, db'.rounds, legacy) && Births(s.db, db')
  {
    var deed := CommitDid(s, flight, ids, now, db');
    CommitIsAimed(s, flight, ids, now, db', deed);
    DeedKeepsOneLive(s, legacy, flight.copies, now, db', deed);
  }

  lemma NextKeepsOneLive(s: State, s': State, legacy: set<ID>, f: nat, action: Action)
    requires Aligned(s, legacy) && Next(s, s', f, action) && AimedAt(s, f, action)
    ensures OneLive(s'.db.tasks, s'.db.rounds, legacy) && Births(s.db, s'.db)
  {
    match action
    case Commit(ids, now) =>
      if Perform(s.db, s.flights[f], ids, now).Ok? {
        CommitKeepsAligned(s, legacy, s.flights[f], ids, now, s'.db);
      }
    case Do(op, now) =>
      if PerformDirect(s.db, op, now).Ok? {
        DirectKeepsOneLive(s.db, s'.db, legacy, op, now);
      }
    case _ =>
  }

  lemma NextKeepsWhole(s: State, s': State, f: nat, action: Action, g: nat)
    requires AllReady(s) && Next(s, s', f, action) && Births(s.db, s'.db) && Forward(s.db, s'.db, s.issued)
    requires g in s'.flights && (g in s.flights ==> Complete(s.db, s.flights[g].copies))
    ensures Complete(s'.db, s'.flights[g].copies)
  {
    if action.Fetch? && g == f {
      LoadsWhole(s.db, s.issued, s.flights[f], action.load, action.copies);
    } else if !(action.Begin? && g == f) {
      WholeStays(s.db, s'.db, s.issued, s.flights[g].copies);
    }
  }

  lemma NextKeepsAligned(s: State, s': State, legacy: set<ID>, f: nat, action: Action)
    requires Aligned(s, legacy) && Next(s, s', f, action) && AimedAt(s, f, action)
    ensures Aligned(s', legacy)
  {
    NextKeepsReady(s, s', f, action);
    NextMoves(s, s', f, action);
    NextKeepsOneLive(s, s', legacy, f, action);
    assert forall id :: id in s'.db.rounds ==> LiveOK(s'.db.tasks, s'.db.rounds, id);
    FirstTurnsStay(s.db, s'.db, s.issued);
    forall g | g in s'.flights ensures Complete(s'.db, s'.flights[g].copies) {
      NextKeepsWhole(s, s', f, action, g);
    }
  }

  lemma {:induction false} RunIsAligned(run: seq<State>, moves: seq<(nat, Action)>, legacy: set<ID>, i: nat)
    requires IsRun(run, moves) && i < |run| && Before(run[0].db, legacy)
    requires forall j :: 0 <= j < i ==> AimedAt(run[j], moves[j].0, moves[j].1)
    ensures Aligned(run[i], legacy)
  {
    if i > 0 {
      RunIsAligned(run, moves, legacy, i - 1);
      NextKeepsAligned(run[i - 1], run[i], legacy, moves[i - 1].0, moves[i - 1].1);
    }
  }

  /** One live round. In every interleaving whose updates and failures are well addressed when they commit, an active
      task has exactly one open round, it comes after all its others and runs on the task's worker; a task that is not
      active has no open round. */
  lemma OneLiveRound(run: seq<State>, moves: seq<(nat, Action)>, legacy: set<ID>, i: nat, t: ID)
    requires IsRun(run, moves) && i < |run| && Before(run[0].db, legacy) && t in run[i].db.tasks
    requires forall j :: 0 <= j < i ==> AimedAt(run[j], moves[j].0, moves[j].1)
    ensures var tasks, rounds := run[i].db.tasks, run[i].db.rounds;
            tasks[t].status.Active() && (t !in legacy || HasRound(rounds, t)) ==>
              exists id :: id in rounds && rounds[id].taskID == t && rounds[id].Live()
                           && rounds[id].workerID == tasks[t].workerID
                           && (forall o :: o in rounds && o != id && rounds[o].taskID == t ==>
                                             Later(rounds[id], rounds[o]) && !rounds[o].Live())
    ensures var tasks, rounds := run[i].db.tasks, run[i].db.rounds;
            !tasks[t].status.Active() ==> forall o :: o in rounds && rounds[o].taskID == t ==> !rounds[o].Live()
  {
    RunIsAligned(run, moves, legacy, i);
    OneLiveMeans(run[i].db.tasks, run[i].db.rounds, legacy, t);
  }

  lemma DeedBreaksOneLive(db: Db, legacy: set<ID>, copies: Copies, now: Time, db': Db, deed: Deed)
    requires OneLive(db.tasks, db.rounds, legacy) && Did(db, copies, now, db', deed) && !Aimed(db, copies, deed)
    ensures !OneLive(db'.tasks, db'.rounds, legacy)
  {
    match deed
    case Updated(update, c) => UpdateBreaksOneLive(db, db', legacy, copies.loaded, update, now, c);
    case Failed(c) => FailureBreaksOneLive(db, db', legacy, copies.loaded, now, c);
    case _ =>
  }

  lemma DeedKeepsOneLiveIff(db: Db, legacy: set<ID>, copies: Copies, now: Time, db': Db, deed: Deed)
    requires OneLive(db.tasks, db.rounds, legacy) && Did(db, copies, now, db', deed)
    requires deed.Updated? || deed.Failed?
    ensures OneLive(db'.tasks, db'.rounds, legacy) <==> Aimed(db, copies, deed)
  {
    if Aimed(db, copies, deed) {
      ProjectedKeepsOneLive(db, legacy, copies, now, db', deed);
    } else {
      DeedBreaksOneLive(db, legacy, copies, now, db', deed);
    }
  }

  lemma PerformKeepsOneLiveIff(s: State, legacy: set<ID>, flight: Flight, ids: Drawn, now: Time, db': Db)
    requires OneLive(s.db.tasks, s.db.rounds, legacy) && Sound(s.db, s.issued) && Ready(s, flight)
    requires flight.call.Remote? || flight.call.FailRound?
    requires Perform(s.db, flight, ids, now) == Ok(db') && db'.rounds != s.db.rounds
    ensures OneLive(db'.tasks, db'.rounds, legacy) <==> WellAddressed(s.db, Whole(flight, ids, now))
  {
    var deed := CommitDid(s, flight, ids, now, db');
    CommitIsAimed(s, flight, ids, now, db', deed);
    DeedKeepsOneLiveIff(s.db, legacy, flight.copies, now, db', deed);
  }

  /** Exactly which updates and failures keep one live round, however old the other copies in flight are. */
  lemma CommitKeepsOneLiveIff(s: State, s': State, legacy: set<ID>, f: nat, ids: Drawn, now: Time)
    requires Aligned(s, legacy) && Next(s, s', f, Commit(ids, now)) && s'.db.rounds != s.db.rounds
    requires s.flights[f].call.Remote? || s.flights[f].call.FailRound?
    ensures OneLive(s'.db.tasks, s'.db.rounds, legacy) <==> AimedAt(s, f, Commit(ids, now))
  {
    PerformKeepsOneLiveIff(s, legacy, s.flights[f], ids, now, s'.db);
  }

  // ---------------------------------------------------------------- leases

  predicate WorkerSince(a: Worker, b: Worker) {
    a == b || a.version < b.version
  }

  /** The worker of the call has a version, names no task twice, and is the round's. */
  ghost predicate Clean(loaded: Loaded) {
    loaded.worker.Some? ==>
      && loaded.worker.value.version > 0 && NoDuplicates(loaded.worker.value.currentTaskIDs)
      && (loaded.round.Some? ==> loaded.worker.value.id == loaded.round.value.workerID)
  }

  /** known are the worker ids that were ever stored. */
  ghost predicate WorkerCopy(db: Db, known: set<ID>, w: Worker) {
    w.id in known && (w.id in db.workers ==> WorkerSince(w, db.workers[w.id]))
  }

  /** The worker of the call is an old version of a stored one. */
  ghost predicate Staffed(db: Db, known: set<ID>, copies: Copies) {
    Clean(copies.loaded) && (copies.loaded.worker.Some? ==> WorkerCopy(db, known, copies.loaded.worker.value))
  }

  ghost predicate WorkersSound(workers: map<ID, Worker>, known: set<ID>) {
    forall w :: w in workers ==>
                  workers[w].id == w && w in known && workers[w].version > 0 && NoDuplicates(workers[w].currentTaskIDs)
  }

  ghost predicate WorkersForward(a: map<ID, Worker>, b: map<ID, Worker>, known: set<ID>) {
    forall w :: w in b ==> if w in a then WorkerSince(a[w], b[w]) else w !in known && b[w].version > 0
  }

  lemma StaffedStays(db: Db, db': Db, known: set<ID>, known': set<ID>, copies: Copies)
    requires Staffed(db, known, copies) && WorkersForward(db.workers, db'.workers, known) && known <= known'
    ensures Staffed(db', known', copies)
  {
  }

  lemma LoadsStaffed(db: Db, known: set<ID>, flight: Flight, load: Load, copies: Copies)
    requires WorkersSound(db.workers, known) && Staffed(db, known, flight.copies) && Loads(db, flight, load, copies)
    ensures Staffed(db, known, copies)
  {
  }

  /** A migration holds the worker of its task when there is one: it reads it after the task. */
  ghost predicate Informed(db: Db, copies: Copies, deed: Deed) {
    deed.Retired? && deed.failed.workerID in db.workers ==> copies.loaded.worker.Some?
  }

  // ---------------------------------------------------------------- which written workers keep the leases

  /** Apart from the task itself, the worker that was read and the stored one have the same tasks. */
  ghost predicate Agrees(db: Db, loaded: Loaded) {
    loaded.task.Some? && loaded.worker.Some? && loaded.worker.value.id in db.workers ==>
      forall u :: u != loaded.task.value.id ==>
                    (u in loaded.worker.value.currentTaskIDs <==>
                     u in db.workers[loaded.worker.value.id].currentTaskIDs)
  }

  /** One task and one worker are written, and the worker is right about that task. */
  lemma WrittenLeasesIff(tasks: Tasks, workers: Workers, tasks': Tasks, t: ID, worker: Worker)
    requires Leases(tasks, workers) && worker.id in workers && NoDuplicates(worker.currentTaskIDs)
    requires forall u, w :: u != t || w != worker.id ==> (Holds(tasks', u, w) <==> Holds(tasks, u, w))
    requires t in worker.currentTaskIDs <==> Holds(tasks', t, worker.id)
    requires forall u :: u in tasks' && tasks'[u].status.Active() ==> tasks'[u].workerID in workers
    ensures Leases(tasks', workers[worker.id := worker]) <==>
            forall u :: u != t ==> (u in worker.currentTaskIDs <==> u in workers[worker.id].currentTaskIDs)
  {
    assert LeaseOK(tasks, workers[worker.id]);
    var workers' := workers[worker.id := worker];
    if forall u :: u != t ==> (u in worker.currentTaskIDs <==> u in workers[worker.id].currentTaskIDs) {
      forall w | w in workers' ensures LeaseOK(tasks', workers'[w]) {
        assert LeaseOK(tasks, workers[w]);
      }
    } else {
      var u :| u != t && !(u in worker.currentTaskIDs <==> u in workers[worker.id].currentTaskIDs);
      assert !LeaseOK(tasks', workers'[worker.id]);
    }
  }

  /** The task ends, or was not active anyway, and is taken off the list of its worker. */
  lemma EndedKeepsLeasesIff(db: Db, loaded: Loaded, now: Time, db': Db, task: Task)
    requires Leases(db.tasks, db.workers) && TaskHeld(db, loaded) && Clean(loaded)
    requires loaded.worker.Some? && loaded.worker.value.id in db.workers
    requires task.id == loaded.task.value.id && !task.status.Active()
    requires loaded.task.value.status.Active() ==> loaded.task.value.workerID == loaded.worker.value.id
    requires db'.tasks == db.tasks[task.id := task]
    requires db'.workers == db.workers[loaded.worker.value.id := loaded.worker.value.ReleaseTask(task.id, now)]
    ensures Leases(db'.tasks, db'.workers) <==> Agrees(db, loaded)
  {
    WrittenLeasesIff(db.tasks, db.workers, db'.tasks, task.id, loaded.worker.value.ReleaseTask(task.id, now));
  }

  lemma LaunchedKeepsLeasesIff(db: Db, legacy: set<ID>, copies: Copies, now: Time, db': Db, c: CommandCommit)
    requires InOrder(db, legacy) && Clean(copies.loaded) && Did(db, copies, now, db', Launched(c))
    ensures Leases(db'.tasks, db'.workers) <==> Agrees(db, copies.loaded)
  {
    WrittenLeasesIff(db.tasks, db.workers, db'.tasks, c.task.id, c.worker.value);
  }

  lemma UpdatedKeepsLeasesIff(db: Db, legacy: set<ID>, copies: Copies, now: Time, db': Db, update: Update,
                              c: ProjectionCommit)
    requires InOrder(db, legacy) && Clean(copies.loaded) && Did(db, copies, now, db', Updated(update, c))
    requires Aimed(db, copies, Updated(update, c))
    ensures Leases(db'.tasks, db'.workers) <==> (c.worker.Some? ==> Agrees(db, copies.loaded))
  {
    var round, task := copies.loaded.round.value, copies.loaded.task.value;
    if c.worker.Some? {
      if task.status.Active() {
        TopIsLive(db.tasks, db.rounds, legacy, round.id);
      }
      EndedKeepsLeasesIff(db, copies.loaded, now, db', c.task);
    } else {
      TaskKeepsLeases(db.tasks, db.workers, c.task);
    }
  }

  lemma FailedKeepsLeasesIff(db: Db, legacy: set<ID>, copies: Copies, now: Time, db': Db, c: ProjectionCommit)
    requires InOrder(db, legacy) && Clean(copies.loaded) && Did(db, copies, now, db', Failed(c))
    requires Aimed(db, copies, Failed(c))
    ensures Leases(db'.tasks, db'.workers) <==> Agrees(db, copies.loaded)
  {
    var round, task := copies.loaded.round.value, copies.loaded.task.value;
    if task.status.Active() {
      TopIsLive(db.tasks, db.rounds, legacy, round.id);
    }
    EndedKeepsLeasesIff(db, copies.loaded, now, db', c.task);
  }

  lemma RetiredKeepsLeasesIff(db: Db, copies: Copies, now: Time, db': Db, failed: Task, worker: Option<Worker>)
    requires Leases(db.tasks, db.workers) && Clean(copies.loaded)
    requires Retires(db, copies.loaded, now, db', failed, worker) && Informed(db, copies, Retired(failed, worker))
    ensures Leases(db'.tasks, db'.workers) <==> Agrees(db, copies.loaded)
  {
    EndedKeepsLeasesIff(db, copies.loaded, now, db', failed);
  }

  predicate WritesWorker(deed: Deed) {
    match deed
    case Updated(_, c) => c.worker.Some?
    case Failed(_) => true
    case Launched(_) => true
    case Retired(_, _) => true
    case _ => false
  }

  lemma DeedKeepsLeasesIff(db: Db, legacy: set<ID>, copies: Copies, now: Time, db': Db, deed: Deed)
    requires InOrder(db, legacy) && Clean(copies.loaded) && Did(db, copies, now, db', deed)
    requires Aimed(db, copies, deed) && Informed(db, copies, deed)
    ensures Leases(db'.tasks, db'.workers) <==> (WritesWorker(deed) ==> Agrees(db, copies.loaded))
  {
    match deed
    case Updated(update, c) => UpdatedKeepsLeasesIff(db, legacy, copies, now, db', update, c);
    case Failed(c) => FailedKeepsLeasesIff(db, legacy, copies, now, db', c);
    case Launched(c) => LaunchedKeepsLeasesIff(db, legacy, copies, now, db', c);
    case Steered(c) => TaskKeepsLeases(db.tasks, db.workers, c.task);
    case Retired(failed, worker) => RetiredKeepsLeasesIff(db, copies, now, db', failed, worker);
    case _ =>
  }

  /** Exactly which well addressed commits on a worker keep the leases: those whose copy has the stored tasks. */
  lemma CommitKeepsLeasesIff(s: State, legacy: set<ID>, f: nat, ids: Drawn, now: Time, db': Db)
    requires f in s.flights && Ready(s, s.flights[f]) && Sound(s.db, s.issued) && InOrder(s.db, legacy)
    requires Clean(s.flights[f].copies.loaded) && Perform(s.db, s.flights[f], ids, now) == Ok(db')
    requires AimedAt(s, f, Commit(ids, now)) && InformedAt(s, f, Commit(ids, now))
    requires db'.workers != s.db.workers
    ensures Leases(db'.tasks, db'.workers) <==> Agrees(s.db, s.flights[f].copies.loaded)
  {
    var flight := s.flights[f];
    var deed := CommitDid(s, flight, ids, now, db');
    CommitIsAimed(s, flight, ids, now, db', deed);
    DeedKeepsLeasesIff(s.db, legacy, flight.copies, now, db', deed);
  }

  // ---------------------------------------------------------------- when no worker id is used again

  /** A worker that is written was read as it is stored. */
  lemma WrittenIsStored(db: Db, known: set<ID>, copies: Copies, now: Time, db': Db, deed: Deed)
    requires Staffed(db, known, copies) && Did(db, copies, now, db', deed) && Informed(db, copies, deed)
    requires Leases(db.tasks, db.workers)
    ensures WritesWorker(deed) ==> Agrees(db, copies.loaded)
    ensures WorkersForward(db.workers, db'.workers, known)
  {
  }

  lemma RetryKeepsWorkers(db: Db, taskID: ID, now: Time, known: set<ID>)
    requires WorkersSound(db.workers, known) && Retry(db, taskID, now).Ok?
    ensures WorkersForward(db.workers, Retry(db, taskID, now).value.workers, known)
  {
  }

  lemma RegisterKeepsWorkers(db: Db, id: ID, agents: seq<Agent>, allProjects: bool, bound: seq<ID>, now: Time,
                             known: set<ID>)
    requires Register(db, id, agents, allProjects, bound, now).Ok? && (id !in db.workers ==> id !in known)
    ensures WorkersForward(db.workers, Register(db, id, agents, allProjects, bound, now).value.workers, known)
  {
  }

  lemma ReconfigureKeepsWorkers(db: Db, op: Direct, now: Time, known: set<ID>)
    requires WorkersSound(db.workers, known) && op.DoReconfigure?
    requires Reconfigure(db, op.id, op.status, op.agents, op.allProjects, op.bound, now).Ok?
    ensures WorkersForward(db.workers, Reconfigure(db, op.id, op.status, op.agents, op.allProjects, op.bound,
                                                   now).value.workers, known)
  {
  }

  lemma DirectKeepsWorkers(db: Db, db': Db, op: Direct, now: Time, known: set<ID>)
    requires WorkersSound(db.workers, known) && PerformDirect(db, op, now) == Ok(db')
    requires op.DoRegister? && op.id !in db.workers ==> op.id !in known
    ensures WorkersForward(db.workers, db'.workers, known)
  {
    match op
    case DoRetry(taskID) => RetryKeepsWorkers(db, taskID, now, known);
    case DoRegister(id, agents, all, bound) => RegisterKeepsWorkers(db, id, agents, all, bound, now, known);
    case DoReconfigure(_, _, _, _, _) => ReconfigureKeepsWorkers(db, op, now, known);
    case _ =>
  }

  ghost predicate Employing(s: State, known: set<ID>) {
    WorkersSound(s.db.workers, known) && forall f :: f in s.flights ==> Staffed(s.db, known, s.flights[f].copies)
  }

  /** The condition of Informed, at the commit. */
  predicate InformedAt(s: State, f: nat, action: Action) {
    action.Commit? && f in s.flights && s.flights[f].call.MigrateCall? && s.flights[f].copies.loaded.task.Some?
    && s.flights[f].copies.loaded.task.value.workerID in s.db.workers ==>
      s.flights[f].copies.loaded.worker.Some?
  }

  /** A new worker takes an id that no worker had. */
  predicate FreshAt(s: State, known: set<ID>, action: Action) {
    action.Do? && action.op.DoRegister? && action.op.id !in s.db.workers ==> action.op.id !in known
  }

  lemma CommitKeepsLeases(s: State, legacy: set<ID>, known: set<ID>, f: nat, ids: Drawn, now: Time, db': Db)
    requires f in s.flights && Ready(s, s.flights[f]) && Sound(s.db, s.issued)
    requires InOrder(s.db, legacy) && Staffed(s.db, known, s.flights[f].copies)
    requires Perform(s.db, s.flights[f], ids, now) == Ok(db')
    requires AimedAt(s, f, Commit(ids, now)) && InformedAt(s, f, Commit(ids, now))
    ensures Leases(db'.tasks, db'.workers) && WorkersForward(s.db.workers, db'.workers, known)
  {
    var flight := s.flights[f];
    var deed := CommitDid(s, flight, ids, now, db');
    CommitIsAimed(s, flight, ids, now, db', deed);
    DeedKeepsLeasesIff(s.db, legacy, flight.copies, now, db', deed);
    WrittenIsStored(s.db, known, flight.copies, now, db', deed);
  }

  lemma NextKeepsLeases(s: State, s': State, legacy: set<ID>, known: set<ID>, f: nat, action: Action)
    requires AllReady(s) && InOrder(s.db, legacy) && Employing(s, known) && Next(s, s', f, action)
    requires AimedAt(s, f, action) && InformedAt(s, f, action) && FreshAt(s, known, action)
    ensures Leases(s'.db.tasks, s'.db.workers) && WorkersForward(s.db.workers, s'.db.workers, known)
  {
    match action
    case Commit(ids, now) =>
      if Perform(s.db, s.flights[f], ids, now).Ok? {
        CommitKeepsLeases(s, legacy, known, f, ids, now, s'.db);
      }
    case Do(op, now) =>
      if PerformDirect(s.db, op, now).Ok? {
        DirectKeepsInv(s.db, s'.db, legacy, op, now);
        DirectKeepsWorkers(s.db, s'.db, op, now, known);
      }
    case _ =>
  }

  lemma WorkersStaySound(tasks: Tasks, workers: Workers, workers': Workers, known: set<ID>)
    requires WorkersSound(workers, known) && WorkersForward(workers, workers', known) && Leases(tasks, workers')
    ensures WorkersSound(workers', known + workers'.Keys)
  {
    forall w | w in workers' ensures NoDuplicates(workers'[w].currentTaskIDs) {
      assert LeaseOK(tasks, workers'[w]);
    }
  }

  lemma NextKeepsEmploying(s: State, s': State, known: set<ID>, f: nat, action: Action)
    requires Employing(s, known) && Next(s, s', f, action) && WorkersForward(s.db.workers, s'.db.workers, known)
    requires Leases(s'.db.tasks, s'.db.workers)
    ensures Employing(s', known + s'.db.workers.Keys)
  {
    var known' := known + s'.db.workers.Keys;
    WorkersStaySound(s'.db.tasks, s.db.workers, s'.db.workers, known);
    forall g | g in s'.flights ensures Staffed(s'.db, known', s'.flights[g].copies) {
      if action.Fetch? && g == f {
        LoadsStaffed(s.db, known, s.flights[f], action.load, action.copies);
        StaffedStays(s.db, s'.db, known, known', action.copies);
      } else if !(action.Begin? && g == f) {
        StaffedStays(s.db, s'.db, known, known', s.flights[g].copies);
      }
    }
  }

  lemma NextKeepsStaff(s: State, s': State, legacy: set<ID>, known: set<ID>, f: nat, action: Action)
    requires AllReady(s) && InOrder(s.db, legacy) && Employing(s, known) && Next(s, s', f, action)
    requires AimedAt(s, f, action) && InformedAt(s, f, action) && FreshAt(s, known, action)
    ensures Leases(s'.db.tasks, s'.db.workers) && Employing(s', known + s'.db.workers.Keys)
  {
    NextKeepsLeases(s, s', legacy, known, f, action);
    NextKeepsEmploying(s, s', known, f, action);
  }

  /** The worker ids that were stored up to the state. */
  ghost function Known(run: seq<State>, i: nat): set<ID>
    requires i < |run|
  {
    run[i].db.workers.Keys + if i == 0 then {} else Known(run, i - 1)
  }

  ghost predicate OrderlyAt(s: State, known: set<ID>, f: nat, action: Action) {
    AimedAt(s, f, action) && InformedAt(s, f, action) && FreshAt(s, known, action)
  }

  /** Updates are well addressed, migrations informed, and no worker id is used again. */
  ghost predicate Orderly(run: seq<State>, moves: seq<(nat, Action)>, i: nat)
    requires i < |run| && i <= |moves|
  {
    forall j :: 0 <= j < i ==> OrderlyAt(run[j], Known(run, j), moves[j].0, moves[j].1)
  }

  lemma KnownAt0(s: State, known: set<ID>, legacy: set<ID>)
    requires Before(s.db, legacy) && s.flights == map[] && known == s.db.workers.Keys
    requires forall w :: w in s.db.workers ==> s.db.workers[w].version > 0
    ensures Employing(s, known)
  {
    LeasesMean(s.db.tasks, s.db.workers);
  }

  lemma {:induction false} RunKeepsLeases(run: seq<State>, moves: seq<(nat, Action)>, legacy: set<ID>, i: nat)
    requires IsRun(run, moves) && i < |run| && Before(run[0].db, legacy) && Orderly(run, moves, i)
    requires forall w :: w in run[0].db.workers ==> run[0].db.workers[w].version > 0
    ensures Leases(run[i].db.tasks, run[i].db.workers) && Employing(run[i], Known(run, i))
  {
    if i == 0 {
      KnownAt0(run[0], Known(run, 0), legacy);
    } else {
      RunKeepsLeases(run, moves, legacy, i - 1);
      RunIsAligned(run, moves, legacy, i - 1);
      assert OrderlyAt(run[i - 1], Known(run, i - 1), moves[i - 1].0, moves[i - 1].1);
      NextKeepsStaff(run[i - 1], run[i], legacy, Known(run, i - 1), moves[i - 1].0, moves[i - 1].1);
      assert Known(run, i - 1) + run[i].db.workers.Keys == Known(run, i);
    }
  }

  /** Lease conservation. In the same interleavings, when migrations are informed and no worker id is used again, a
      worker's list names a task, and names it once, exactly when the task is active and assigned to that worker; and
      the worker of an active task exists. */
  lemma LeaseConservation(run: seq<State>, moves: seq<(nat, Action)>, legacy: set<ID>, i: nat)
    requires IsRun(run, moves) && i < |run| && Before(run[0].db, legacy) && Orderly(run, moves, i)
    requires forall w :: w in run[0].db.workers ==> run[0].db.workers[w].version > 0
    ensures var db := run[i].db;
            && (forall w, t :: w in db.workers ==> (t in db.workers[w].currentTaskIDs <==> Holds(db.tasks, t, w)))
            && (forall w :: w in db.workers ==> NoDuplicates(db.workers[w].currentTaskIDs))
            && (forall t :: t in db.tasks && db.tasks[t].status.Active() ==> db.tasks[t].workerID in db.workers)
  {
    RunKeepsLeases(run, moves, legacy, i);
    LeasesMean(run[i].db.tasks, run[i].db.workers);
  }

  lemma LeasesMean(tasks: Tasks, workers: Workers)
    requires Leases(tasks, workers)
    ensures forall w, t :: w in workers ==> (t in workers[w].currentTaskIDs <==> Holds(tasks, t, w))
    ensures forall w :: w in workers ==> NoDuplicates(workers[w].currentTaskIDs)
  {
    forall w | w in workers
      ensures NoDuplicates(workers[w].currentTaskIDs)
      ensures forall t :: t in workers[w].currentTaskIDs <==> Holds(tasks, t, w)
    {
      assert LeaseOK(tasks, workers[w]);
    }
  }
}
