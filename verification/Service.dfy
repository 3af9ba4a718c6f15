/** The user commands of manager/internal/app/service.go and a2a.go, and the reconciler's own writes.
    Like a projection, a command reads copies and then commits; a plan is what lies between. */
module Service {
  import opened Wrappers
  import opened Domain
  import opened ManagerStore
  import opened Projection

  /** The identities a command draws; uuids, hence new. */
  datatype Drawn = Drawn(round: ID, command: ID, execution: ID, message: ID)

  predicate Distinct(list: seq<Round>) {
    forall i, j :: 0 <= i < j < |list| ==> list[i].id != list[j].id
  }

  /** TaskA2ARounds: every round of the task once, sorted by attempt and turn. */
  ghost predicate Listing(rounds: map<ID, Round>, taskID: ID, list: seq<Round>) {
    && (forall i :: 0 <= i < |list| ==>
                      list[i].id in rounds && rounds[list[i].id] == list[i] && list[i].taskID == taskID)
    && (forall id :: id in rounds && rounds[id].taskID == taskID ==> rounds[id] in list)
    && (forall i, j :: 0 <= i < j < |list| ==> !Later(list[i], list[j])) && Distinct(list)
  }

  /** LatestTaskA2ARound. */
  function Latest(list: seq<Round>): Result<Round> {
    if list == [] then Err(NotFound) else Ok(list[|list| - 1])
  }

  /** The greatest attempt, at least zero. */
  function MaxAttempt(list: seq<Round>): (m: int)
    ensures m >= 0 && forall i :: 0 <= i < |list| ==> list[i].attempt <= m
    ensures m == 0 || exists i :: 0 <= i < |list| && list[i].attempt == m
  {
    if list == [] then 0 else
      var rest := MaxAttempt(list[1..]);
      assert forall i :: 0 < i < |list| ==> list[i] == list[1..][i - 1];
      if list[0].attempt > rest then list[0].attempt else rest
  }

  /** nextA2AStartIdentity: an attempt beyond every earlier one. */
  method NextStartIdentity(list: seq<Round>) returns (operation: Operation, attempt: int)
    ensures operation == (if list == [] then START else RETRY)
    ensures attempt == MaxAttempt(list) + 1
    ensures forall i :: 0 <= i < |list| ==> list[i].attempt < attempt
  {
    if list == [] {
      return START, 1;
    }
    attempt := 0;
    for k := 0 to |list|
      invariant attempt >= 0 && forall i :: 0 <= i < k ==> list[i].attempt <= attempt
      invariant attempt == 0 || exists i :: 0 <= i < k && list[i].attempt == attempt
    {
      if list[k].attempt > attempt {
        attempt := list[k].attempt;
      }
    }
    operation, attempt := RETRY, attempt + 1;
  }

  // ---------------------------------------------------------------- StartTask

  /** AssignWorker to the first worker that can take a task nobody was assigned to. */
  function AutoAssign(task: Task, candidate: Option<Worker>, now: Time): Result<Task> {
    if task.workerID == "" && task.status.CREATED? then
      var worker :- if candidate.Some? && candidate.value.CanAccept(task.agent, task.projectID) then Ok(candidate.value)
                    else Err(Conflict);
      task.AssignWorker(worker.id, NO_AGENT, now)
    else Ok(task)
  }

  /** worker was read under the workerID of the assigned task; buildable says that the project exists and
      buildA2ARequest succeeds. */
  function PlanStart(copy: Option<Task>, candidate: Option<Worker>, read: Option<Worker>, list: seq<Round>,
                     buildable: bool, ids: Drawn, now: Time): Result<CommandCommit>
  {
    var task :- Read(copy);
    var _ :- Require(!task.agent.NO_AGENT?, Conflict);
    var placed :- AutoAssign(task, candidate, now);
    var worker :- Read(read);
    var _ :- Require(worker.id == placed.workerID, NotFound);
    var _ :- Require(worker.CanAccept(placed.agent, placed.projectID), Conflict);
    var started :- placed.Start(now);
    var leased :- worker.AssignTask(task.id, now);
    var operation := if list == [] then START else RETRY;
    var round :- NewRound(ids.round, task.id, ids.execution, MaxAttempt(list) + 1, 1, operation, worker.id, ids.command,
                          "", "", 0, now);
    var _ :- Require(buildable, Invalid);
    var intent :- NewIntent(round, operation, ids.command, now);
    Ok(CommandCommit(started, task.version, Some(leased), worker.version, round, true, intent, None, [], false))
  }

  // ---------------------------------------------------------------- ContinueTask

  function PlanContinue(copy: Option<Task>, list: seq<Round>, read: Option<Worker>, text: string,
                        buildable: bool, ids: Drawn, now: Time): Result<CommandCommit>
  {
    var _ :- Require(!Blank(text), Invalid);
    var task :- Read(copy);
    var _ :- Require(task.status.FINISHED?, InvalidTransition);
    var parent :- Latest(list);
    var _ :- Require(parent.Bound() && parent.remoteStatus.Terminal(), Conflict);
    var worker :- Read(read);
    var _ :- Require(worker.id == task.workerID, NotFound);
    var _ :- Require(worker.CanAccept(task.agent, task.projectID), Conflict);
    var said :- task.AppendUserConversation(now);
    var continued :- said.Continue(now);
    var leased :- worker.AssignTask(task.id, now);
    var round :- NewRound(ids.round, task.id, parent.executionID, parent.attempt, parent.turn + 1, CONTINUE, worker.id,
                          ids.command, parent.id, parent.contextID, parent.lastSequence, now);
    var _ :- Require(buildable, Invalid);
    var intent :- NewIntent(round, CONTINUE, ids.command, now);
    Ok(CommandCommit(continued, task.version, Some(leased), worker.version, round, true, intent, None,
                     [Message(OfCommand(ids.message), task.id, "user", text, now)], false))
  }

  // ---------------------------------------------------------------- InterruptTask

  function Interrupt(task: Task, round: Round, interaction: Option<Interaction>, ids: Drawn,
                     now: Time): Result<CommandCommit> {
    var interrupting :- task.RequestInterrupt(now);
    var intent :- NewIntent(round, CANCEL, ids.command, now);
    Ok(CommandCommit(interrupting, task.version, None, 0, round, false, intent, interaction, [], interaction.Some?))
  }

  /** None when the interrupt was already requested. */
  function PlanInterrupt(copy: Option<Task>, list: seq<Round>, ids: Drawn, now: Time): Result<Option<CommandCommit>> {
    var task :- Read(copy);
    var round :- Latest(list);
    var _ :- Require(round.Bound() && !round.remoteStatus.Terminal(), Conflict);
    if task.status.INTERRUPTING? && task.interruptDesired then Ok(None) else
      var commit :- Interrupt(task, round, None, ids, now);
      Ok(Some(commit))
  }

  // ---------------------------------------------------------------- RespondTaskInteraction

  datatype Response = Response(decision: Decision, message: string, payload: string)

  /** validateTaskInteractionResponse. */
  predicate Fits(kind: InteractionKind, response: Response) {
    if kind.USER_INPUT? then
      response.decision.DECISION_CANCEL?
      || (response.decision.NO_DECISION? && !(Blank(response.message) && Blank(response.payload)))
    else !response.decision.NO_DECISION?
  }

  predicate SameResponse(interaction: Interaction, response: Response) {
    response == Response(interaction.decision, interaction.message, interaction.payload)
  }

  function Answered(interaction: Interaction, response: Response, status: InteractionStatus, now: Time): Interaction {
    interaction.(status := status, decision := response.decision, message := response.message,
                 payload := response.payload, updatedAt := now)
  }

  /** None when the same answer was given before. */
  function PlanRespond(asked: Option<Interaction>, copy: Option<Task>, read: Option<Worker>, list: seq<Round>,
                       response: Response, buildable: bool, ids: Drawn, now: Time): Result<Option<CommandCommit>>
  {
    var interaction :- Read(asked);
    var _ :- Require(Fits(interaction.kind, response), Conflict);
    if !interaction.status.ASKED? then
      var _ :- Require(SameResponse(interaction, response), Conflict);
      Ok(None)
    else
      var task :- Read(copy);
      var _ :- Require(task.workerID != "", Conflict);
      var worker :- Read(read);
      var _ :- Require(worker.status.ONLINE?, Conflict);
      var round :- Latest(list);
      var _ :- Require(round.Bound() && !round.remoteStatus.Terminal(), Conflict);
      var recorded :- task.Record(now);
      if response.decision.DECISION_CANCEL? then
        var commit :- Interrupt(recorded, round, Some(Answered(interaction, response, WITHDRAWN, now)), ids, now);
        Ok(Some(commit.(expectedTask := task.version)))
      else
        var _ :- Require(buildable, Invalid);
        var intent :- NewIntent(round, INTERACTION_RESPONSE, ids.command, now);
        Ok(Some(CommandCommit(recorded, task.version, None, 0, round, false, intent,
                              Some(Answered(interaction, response, ANSWERED, now)), [], false)))
  }

  // ---------------------------------------------------------------- calls without a round

  /** Rounds, intents, inbox, interactions and lines are as they were. */
  predicate LeavesRounds(db: Db, db': Db) {
    db' == db.(tasks := db'.tasks, workers := db'.workers)
  }

  /** AssignWorkerWithConfig, without the agent configuration. */
  function Assign(db: Db, taskID: ID, workerID: ID, agent: Option<Agent>, now: Time): (r: Result<Db>)
    ensures r.Ok? ==> LeavesRounds(db, r.value)
  {
    var task :- Get(db.tasks, taskID);
    var worker :- Get(db.workers, workerID);
    var chosen := if agent.Some? then agent.value else task.agent;
    var _ :- Require(!task.agent.NO_AGENT? && !chosen.NO_AGENT? ==> chosen == task.agent, Conflict);
    var _ :- Require(task.agent.NO_AGENT? ==> chosen.Valid(), Conflict);
    var _ :- Require(worker.CanAccept(chosen, task.projectID), Conflict);
    var placed :- task.AssignWorker(workerID, chosen, now);
    Ok(PutTask(db, Some(placed)))
  }

  /** CreateTask with an optional first assignment. */
  function Create(db: Db, id: ID, title: string, projectID: ID, agent: Agent, workerID: ID, now: Time): (r: Result<Db>)
    ensures r.Ok? ==> LeavesRounds(db, r.value)
  {
    var _ :- Require(workerID != "" ==> agent.Valid(), Conflict);
    var task :- NewTask(id, title, projectID, agent, now);
    var placed :-
      if workerID == "" then Ok(task) else
        var worker :- Get(db.workers, workerID);
        var _ :- Require(worker.CanAccept(agent, projectID), Conflict);
        task.AssignWorker(workerID, agent, now);
    Ok(PutTask(db, Some(placed)))
  }

  function Edit(db: Db, taskID: ID, projectID: ID, agent: Agent, now: Time): (r: Result<Db>)
    ensures r.Ok? ==> LeavesRounds(db, r.value)
  {
    var task :- Get(db.tasks, taskID);
    var _ :- if task.workerID == "" then Ok(()) else
               var worker :- Get(db.workers, task.workerID);
               Require(worker.CanAccept(agent, projectID), Conflict);
    var edited :- task.Edit(projectID, agent, now);
    Ok(PutTask(db, Some(edited)))
  }

  function Archive(db: Db, taskID: ID, now: Time): (r: Result<Db>)
    ensures r.Ok? ==> LeavesRounds(db, r.value)
  {
    var task :- Get(db.tasks, taskID);
    var archived :- task.Archive(now);
    Ok(PutTask(db, Some(archived)))
  }

  /** releaseWorkerIDFromTask: a missing worker is not an error. */
  function Release(db: Db, workerID: ID, taskID: ID, now: Time): (r: Db)
    ensures LeavesRounds(db, r) && r.tasks == db.tasks
  {
    if workerID !in db.workers then db
    else if taskID !in db.workers[workerID].currentTaskIDs then db
    else PutWorker(db, Some(db.workers[workerID].ReleaseTask(taskID, now)))
  }

  function Retry(db: Db, taskID: ID, now: Time): (r: Result<Db>)
    ensures r.Ok? ==> LeavesRounds(db, r.value)
  {
    var task :- Get(db.tasks, taskID);
    var retried :- task.Retry(now);
    Ok(PutTask(if task.workerID != "" then Release(db, task.workerID, taskID, now) else db, Some(retried)))
  }

  function Delete(db: Db, taskID: ID): Result<Db> {
    var task :- Get(db.tasks, taskID);
    var _ :- Require(task.status.ARCHIVED?, Conflict);
    DeleteTask(db, taskID)
  }

  /** RegisterWorker for a new id. */
  function Register(db: Db, id: ID, agents: seq<Agent>, allProjects: bool, bound: seq<ID>, now: Time): (r: Result<Db>)
    ensures r.Ok? ==> LeavesRounds(db, r.value)
  {
    var _ :- Require(!Blank(id) && agents != [], Invalid);
    var _ :- Require(id !in db.workers, Conflict);
    Ok(PutWorker(db, Some(Worker(id, REGISTERED, agents, allProjects, bound, [], 1, now))))
  }

  /** UpdateWorker, UpdateWorkerProjectBindings, Enable, Disable, Connect, Heartbeat and MarkOffline: everything
      may change but the id and the leases. */
  function Reconfigure(db: Db, id: ID, status: WorkerStatus, agents: seq<Agent>, allProjects: bool, bound: seq<ID>,
                       now: Time): (r: Result<Db>)
    ensures r.Ok? ==> LeavesRounds(db, r.value)
  {
    var worker :- Get(db.workers, id);
    Ok(PutWorker(db, Some(worker.(status := status, agents := agents, allProjects := allProjects, bound := bound,
                                  version := worker.version + 1, updatedAt := now))))
  }

  function DeleteWorker(db: Db, id: ID): (r: Result<Db>)
    ensures r.Ok? ==> LeavesRounds(db, r.value)
  {
    var worker :- Get(db.workers, id);
    var _ :- Require(worker.currentTaskIDs == [], Conflict);
    Ok(db.(workers := db.workers - {id}))
  }

  // ---------------------------------------------------------------- migration

  const MIGRATION_REASON := "A2A_MIGRATION_RETRY_REQUIRED: retry is required after Manager migrated task control to A2A"

  /** One task of MigrateLegacyA2ATasks: None when the task is not a legacy one; a missing worker is skipped. */
  function PlanMigration(copy: Option<Task>, list: seq<Round>, read: Option<Worker>,
                         now: Time): Result<Option<(Task, Option<Worker>)>> {
    var task :- Read(copy);
    if !task.status.Active() || list != [] then Ok(None) else
      var failed :- task.Fail(MIGRATION_REASON, now);
      Ok(Some((failed, if task.workerID != "" && read.Some? then Some(read.value.ReleaseTask(task.id, now)) else None)))
  }
}
