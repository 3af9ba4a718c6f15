/** The calls of manager/internal/app as methods on the store object: each reads, plans and commits, and is proved to be
    one atomic step of the run models. */
module ServiceObject {
  import opened Wrappers
  import opened Domain
  import opened Events
  import opened ManagerStore
  import opened Projection
  import opened Service
  import opened Retries
  import opened ManagerRuns
  import opened ManagerInvariants
  import opened StoreObject

  const NO_IDS := Drawn("", "", "", "")

  /** The call left exactly the store, and returned exactly the verdict, of its step. */
  ghost predicate Did(before: Db, after: Db, flight: Flight, ids: Drawn, now: Time, r: Result<()>) {
    ReadNow(before, flight) &&
    match Perform(before, flight, ids, now)
    case Ok(db) => after == db && r.Ok?
    case Err(e) => after == before && r == Err(e)
  }

  class Manager {
    const store: MemoryStore

    constructor (store: MemoryStore)
      ensures this.store == store
    {
      this.store := store;
    }

    /** The reads shared by applyA2ARemoteUpdate and failA2ARoundWithIntent. */
    method ReadRound(roundID: ID, intentID: Option<ID>) returns (loaded: Loaded)
      ensures RoundRead(store.View(), loaded, roundID)
      ensures loaded.intent == if intentID.Some? then Find(store.intents, intentID.value) else None
      ensures loaded.seen.None? && loaded.interaction.None?
    {
      var round := Find(store.rounds, roundID);
      var intent := if intentID.Some? then Find(store.intents, intentID.value) else None;
      if round.None? {
        return Loaded(None, intent, None, None, None, None);
      }
      return Loaded(round, intent, None, Find(store.tasks, round.value.taskID),
                    Find(store.workers, round.value.workerID), None);
    }

    /** ApplyA2ARemoteUpdate and, with an intent, ApplyA2ADispatchUpdate. */
    method ApplyRemoteUpdate(roundID: ID, intentID: Option<ID>, update: Update, now: Time)
      returns (r: Result<()>, ghost flight: Flight)
      modifies store
      ensures flight.call == Remote(roundID, intentID, update)
      ensures Did(old(store.View()), store.View(), flight, NO_IDS, now, r)
    {
      var loaded := ReadRound(roundID, intentID);
      if update.event.Some? {
        loaded := loaded.(interaction := Find(store.interactions, InteractionID(update.event.value)));
        if loaded.round.Some? {
          var key := (loaded.round.value.id, update.event.value.id);
          loaded := loaded.(seen := if key in store.inbox then Some(store.inbox[key]) else None);
        }
      }
      flight := Flight(Remote(roundID, intentID, update), Copies(loaded, None, []));
      var plan := Plan(loaded, intentID.Some?, update, now);
      if plan.Err? {
        return Err(plan.error), flight;
      }
      var done := store.CommitProjection(plan.value);
      r := if done.Ok? then Ok(()) else Err(done.error);
    }

    /** failA2ARoundWithIntent. */
    method FailRound(roundID: ID, intentID: Option<ID>, code: string, message: string, now: Time)
      returns (r: Result<()>, ghost flight: Flight)
      modifies store
      ensures flight.call == ManagerRuns.FailRound(roundID, intentID, code, message)
      ensures Did(old(store.View()), store.View(), flight, NO_IDS, now, r)
    {
      var loaded := ReadRound(roundID, intentID);
      flight := Flight(ManagerRuns.FailRound(roundID, intentID, code, message), Copies(loaded, None, []));
      if loaded.round.Some? && AlreadyFailed(loaded.round.value, code) {
        return Ok(()), flight;
      }
      var plan := PlanFailure(loaded, intentID.Some?, code, message, now);
      if plan.Err? {
        return Err(plan.error), flight;
      }
      var done := store.CommitProjection(plan.value);
      r := if done.Ok? then Ok(()) else Err(done.error);
    }

    /** StartTask. */
    method StartTask(taskID: ID, buildable: bool, ids: Drawn, now: Time) returns (r: Result<()>, ghost flight: Flight)
      requires store.Keyed()
      modifies store
      ensures flight.call == StartCall(taskID, buildable)
      ensures Did(old(store.View()), store.View(), flight, ids, now, r)
    {
      var task := Find(store.tasks, taskID);
      var list := store.TaskRounds(taskID);
      var candidate, worker: Option<Worker> := None, None;
      if task.Some? {
        candidate := store.FindCandidate(task.value.agent, task.value.projectID);
        var placed := AutoAssign(task.value, candidate, now);
        if placed.Ok? {
          worker := Find(store.workers, placed.value.workerID);
        }
      }
      flight := Flight(StartCall(taskID, buildable),
                       Copies(Loaded(None, None, None, task, worker, None), candidate, list));
      var plan := PlanStart(task, candidate, worker, list, buildable, ids, now);
      if plan.Err? {
        return Err(plan.error), flight;
      }
      r := store.CommitCommand(plan.value);
    }

    /** ContinueTask. */
    method ContinueTask(taskID: ID, text: string, buildable: bool, ids: Drawn, now: Time)
      returns (r: Result<()>, ghost flight: Flight)
      requires store.Keyed()
      modifies store
      ensures flight.call == ContinueCall(taskID, text, buildable)
      ensures Did(old(store.View()), store.View(), flight, ids, now, r)
    {
      var task := Find(store.tasks, taskID);
      var list := store.TaskRounds(taskID);
      var worker := if task.Some? then Find(store.workers, task.value.workerID) else None;
      flight := Flight(ContinueCall(taskID, text, buildable),
                       Copies(Loaded(None, None, None, task, worker, None), None, list));
      var plan := PlanContinue(task, list, worker, text, buildable, ids, now);
      if plan.Err? {
        return Err(plan.error), flight;
      }
      r := store.CommitCommand(plan.value);
    }

    /** InterruptTask. */
    method InterruptTask(taskID: ID, ids: Drawn, now: Time) returns (r: Result<()>, ghost flight: Flight)
      requires store.Keyed()
      modifies store
      ensures flight.call == InterruptCall(taskID)
      ensures Did(old(store.View()), store.View(), flight, ids, now, r)
    {
      var task := Find(store.tasks, taskID);
      var list := store.TaskRounds(taskID);
      flight := Flight(InterruptCall(taskID), Copies(Loaded(None, None, None, task, None, None), None, list));
      var plan := PlanInterrupt(task, list, ids, now);
      if plan.Err? {
        return Err(plan.error), flight;
      }
      if plan.value.None? {
        return Ok(()), flight;
      }
      r := store.CommitCommand(plan.value.value);
    }

    /** RespondTaskInteraction. */
    method RespondTaskInteraction(interactionID: ID, response: Response, buildable: bool, ids: Drawn,
                                  now: Time) returns (r: Result<()>, ghost flight: Flight)
      requires store.Keyed()
      modifies store
      ensures flight.call == RespondCall(interactionID, response, buildable)
      ensures Did(old(store.View()), store.View(), flight, ids, now, r)
    {
      var interaction := Find(store.interactions, interactionID);
      var task: Option<Task> := None;
      var worker: Option<Worker> := None;
      var list: seq<Round> := [];
      if interaction.Some? {
        task := Find(store.tasks, interaction.value.taskID);
        list := store.TaskRounds(interaction.value.taskID);
        worker := if task.Some? then Find(store.workers, task.value.workerID) else None;
      }
      flight := Flight(RespondCall(interactionID, response, buildable),
                       Copies(Loaded(None, None, None, task, worker, interaction), None, list));
      var plan := PlanRespond(interaction, task, worker, list, response, buildable, ids, now);
      if plan.Err? {
        return Err(plan.error), flight;
      }
      if plan.value.None? {
        return Ok(()), flight;
      }
      r := store.CommitCommand(plan.value.value);
    }

    /** One claim of ReconcileA2A. */
    method Claim(intentID: ID, now: Time) returns (r: Result<()>, ghost flight: Flight)
      modifies store
      ensures flight.call == ClaimCall(intentID)
      ensures Did(old(store.View()), store.View(), flight, NO_IDS, now, r)
    {
      var intent := Find(store.intents, intentID);
      flight := Flight(ClaimCall(intentID), Copies(Loaded(None, intent, None, None, None, None), None, []));
      if intent.None? {
        return Err(NotFound), flight;
      }
      var started := intent.value.StartAttempt(now);
      if started.Err? {
        return Err(started.error), flight;
      }
      r := store.UpdateIntent(started.value, intent.value.version);
    }

    /** handleA2ANetworkFailure up to the point where it gives up. */
    method NetworkFailure(roundID: ID, intentID: Option<ID>, acknowledged: bool, now: Time)
      returns (r: Result<()>, ghost flight: Flight)
      modifies store
      ensures flight.call == NetworkFailureCall(roundID, intentID, acknowledged)
      ensures Did(old(store.View()), store.View(), flight, NO_IDS, now, r)
    {
      var loaded := ReadRound(roundID, intentID);
      flight := Flight(NetworkFailureCall(roundID, intentID, acknowledged), Copies(loaded, None, []));
      if loaded.round.None? || (intentID.Some? && !acknowledged && loaded.intent.None?) {
        return Err(NotFound), flight;
      }
      var verdict := OnNetworkFailure(loaded.round.value, loaded.intent, acknowledged, now);
      if verdict.Err? {
        return Err(verdict.error), flight;
      }
      match verdict.value
      case GiveUp => r := Ok(());
      case RetryLater(round, intent) =>
        r := store.CommitDispatchResult(round, loaded.round.value.version, intent, loaded.intent.value.version);
      case Note(round) => r := store.UpdateRound(round, loaded.round.value.version);
    }

    /** One task of MigrateLegacyA2ATasks. */
    method Migrate(taskID: ID, now: Time) returns (r: Result<()>, ghost flight: Flight)
      requires store.Keyed()
      modifies store
      ensures flight.call == MigrateCall(taskID)
      ensures Did(old(store.View()), store.View(), flight, NO_IDS, now, r)
    {
      var task := Find(store.tasks, taskID);
      var list := store.TaskRounds(taskID);
      var worker := if task.Some? then Find(store.workers, task.value.workerID) else None;
      flight := Flight(MigrateCall(taskID), Copies(Loaded(None, None, None, task, worker, None), None, list));
      var plan := PlanMigration(task, list, worker, now);
      if plan.Err? {
        return Err(plan.error), flight;
      }
      if plan.value.None? {
        return Ok(()), flight;
      }
      var done := store.CommitMigration(plan.value.value.0, task.value.version, plan.value.value.1,
                                        if worker.Some? then worker.value.version else 0);
      r := if done.Ok? then Ok(()) else Err(done.error);
    }
  }
}
