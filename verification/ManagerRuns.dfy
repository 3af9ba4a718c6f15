/** Interleaved runs of the Manager: any number of calls in flight, each reading copies step by step and then
    committing, against one store whose locked methods are atomic. */
module ManagerRuns {
  import opened Wrappers
  import opened Domain
  import opened Events
  import opened ManagerStore
  import opened Projection
  import opened Service
  import opened Retries

  // ---------------------------------------------------------------- calls

  datatype Call =
    | Remote(roundID: ID, intentID: Option<ID>, update: Update)
    | FailRound(roundID: ID, intentID: Option<ID>, code: string, message: string)
    | StartCall(taskID: ID, buildable: bool)
    | ContinueCall(taskID: ID, text: string, buildable: bool)
    | InterruptCall(taskID: ID)
    | RespondCall(interactionID: ID, response: Response, buildable: bool)
    | ClaimCall(claimed: ID)
    | NetworkFailureCall(roundID: ID, intentID: Option<ID>, acknowledged: bool)
    | MigrateCall(taskID: ID)

  datatype Copies = Copies(loaded: Loaded, candidate: Option<Worker>, list: seq<Round>)

  const NOTHING := Copies(Loaded(None, None, None, None, None, None), None, [])

  datatype Flight = Flight(call: Call, copies: Copies)

  /** The commit of a call on the copies it holds. A network failure that gives up goes on as FailRound. */
  function Perform(db: Db, flight: Flight, ids: Drawn, now: Time): Result<Db> {
    var loaded, list := flight.copies.loaded, flight.copies.list;
    match flight.call
    case Remote(_, intentID, update) =>
      var c :- Plan(loaded, intentID.Some?, update, now);
      var done :- CommitProjection(db, c);
      Ok(done.0)
    case FailRound(_, intentID, code, message) =>
      if loaded.round.Some? && AlreadyFailed(loaded.round.value, code) then Ok(db) else
        var c :- PlanFailure(loaded, intentID.Some?, code, message, now);
        var done :- CommitProjection(db, c);
        Ok(done.0)
    case StartCall(_, buildable) =>
      var c :- PlanStart(loaded.task, flight.copies.candidate, loaded.worker, list, buildable, ids, now);
      CommitCommand(db, c)
    case ContinueCall(_, text, buildable) =>
      var c :- PlanContinue(loaded.task, list, loaded.worker, text, buildable, ids, now);
      CommitCommand(db, c)
    case InterruptCall(_) =>
      var c :- PlanInterrupt(loaded.task, list, ids, now);
      if c.None? then Ok(db) else CommitCommand(db, c.value)
    case RespondCall(_, response, buildable) =>
      var c :- PlanRespond(loaded.interaction, loaded.task, loaded.worker, list, response, buildable, ids, now);
      if c.None? then Ok(db) else CommitCommand(db, c.value)
    case ClaimCall(_) =>
      var intent :- Read(loaded.intent);
      var started :- intent.StartAttempt(now);
      UpdateIntent(db, started, intent.version)
    case NetworkFailureCall(_, intentID, acknowledged) =>
      var round :- Read(loaded.round);
      var _ :- Require(intentID.Some? && !acknowledged ==> loaded.intent.Some?, NotFound);
      var verdict :- OnNetworkFailure(round, loaded.intent, acknowledged, now);
      PerformVerdict(db, loaded, verdict)
    case MigrateCall(_) =>
      var plan :- PlanMigration(loaded.task, list, loaded.worker, now);
      if plan.None? then Ok(db) else
        var done :- CommitMigration(db, plan.value.0, loaded.task.value.version, plan.value.1,
                                    if loaded.worker.Some? then loaded.worker.value.version else 0);
        Ok(done.0)
  }

  function PerformVerdict(db: Db, loaded: Loaded, verdict: Verdict): Result<Db> {
    match verdict
    case GiveUp => Ok(db)
    case RetryLater(r, i) =>
      var round :- Read(loaded.round);
      var intent :- Read(loaded.intent);
      CommitDispatchResult(db, r, round.version, i, intent.version)
    case Note(r) =>
      var round :- Read(loaded.round);
      UpdateRound(db, r, round.version)
  }

  /** A successful remote call is a planned and committed projection. */
  lemma PerformRemote(db: Db, flight: Flight, ids: Drawn, now: Time, db': Db)
    returns (c: ProjectionCommit, d: Disposition)
    requires flight.call.Remote? && Perform(db, flight, ids, now) == Ok(db')
    ensures Plan(flight.copies.loaded, flight.call.intentID.Some?, flight.call.update, now) == Ok(c)
    ensures CommitProjection(db, c) == Ok((db', d))
  {
    c := Plan(flight.copies.loaded, flight.call.intentID.Some?, flight.call.update, now).value;
    d := CommitProjection(db, c).value.1;
  }

  // ---------------------------------------------------------------- reads

  /** One read of a call: the round first, what depends on it after it. Which interaction a call reads, and which
      task and worker a call without a round, is left open. */
  datatype Load = LoadRound | LoadIntent | LoadSeen | LoadTask(taskID: ID) | LoadWorker(workerID: ID)
                | LoadCandidate(candidateID: ID) | LoadInteraction(interactionID: ID) | LoadList(listing: seq<Round>)

  function RoundOf(call: Call): Option<ID> {
    match call
    case Remote(id, _, _) => Some(id)
    case FailRound(id, _, _, _) => Some(id)
    case NetworkFailureCall(id, _, _) => Some(id)
    case _ => None
  }

  function IntentOf(call: Call): Option<ID> {
    match call
    case Remote(_, id, _) => id
    case FailRound(_, id, _, _) => id
    case NetworkFailureCall(_, id, _) => id
    case ClaimCall(id) => Some(id)
    case _ => None
  }

  ghost predicate Loads(db: Db, flight: Flight, load: Load, copies: Copies) {
    var held := flight.copies;
    var loaded := held.loaded;
    match load
    case LoadRound => RoundOf(flight.call).Some?
                      && copies == NOTHING.(
                         loaded := NOTHING.loaded.(round := Find(db.rounds, RoundOf(flight.call).value)))
    case LoadIntent => IntentOf(flight.call).Some?
                       && copies == held.(loaded := loaded.(intent := Find(db.intents, IntentOf(flight.call).value)))
    case LoadSeen =>
      loaded.round.Some? && flight.call.Remote? && flight.call.update.event.Some? &&
      var key := (loaded.round.value.id, flight.call.update.event.value.id);
      copies == held.(loaded := loaded.(seen := if key in db.inbox then Some(db.inbox[key]) else None))
    case LoadTask(taskID) =>
      && (loaded.round.Some? ==> taskID == loaded.round.value.taskID)
      && copies == held.(loaded := loaded.(task := Find(db.tasks, taskID)), list := [])
    case LoadWorker(workerID) =>
      && (loaded.round.Some? ==> workerID == loaded.round.value.workerID)
      && copies == held.(loaded := loaded.(worker := Find(db.workers, workerID)))
    case LoadCandidate(candidateID) => copies == held.(candidate := Find(db.workers, candidateID))
    case LoadInteraction(interactionID) =>
      copies == held.(loaded := loaded.(interaction := Find(db.interactions, interactionID)))
    case LoadList(listing) =>
      loaded.task.Some? && Listing(db.rounds, loaded.task.value.id, listing) && copies == held.(list := listing)
  }

  // ---------------------------------------------------------------- the store only moves forward

  predicate RoundSince(a: Round, b: Round) {
    a == b || a.Before(b)
  }

  predicate IntentSince(a: Intent, b: Intent) {
    a == b || a.Before(b)
  }

  ghost predicate RoundsForward(a: map<ID, Round>, b: map<ID, Round>, issued: set<ID>) {
    forall id :: id in b ==> if id in a then RoundSince(a[id], b[id]) else id !in issued
  }

  ghost predicate IntentsForward(a: map<ID, Intent>, b: map<ID, Intent>, issued: set<ID>) {
    forall id :: id in b ==> if id in a then IntentSince(a[id], b[id]) else id !in issued
  }

  ghost predicate TasksForward(a: map<ID, Task>, b: map<ID, Task>, issued: set<ID>) {
    forall id :: id in b ==> if id in a then a[id].SameOrBefore(b[id]) else id !in issued
  }

  /** Rounds and inbox rows leave only with their task. */
  ghost predicate Kept(db: Db, db': Db) {
    && (forall id :: id in db.rounds && id !in db'.rounds ==> db.rounds[id].taskID !in db'.tasks)
    && (forall k :: k in db.inbox && k.0 in db'.rounds ==> k in db'.inbox && db'.inbox[k] == db.inbox[k])
  }

  ghost predicate Forward(db: Db, db': Db, issued: set<ID>) {
    && RoundsForward(db.rounds, db'.rounds, issued) && IntentsForward(db.intents, db'.intents, issued)
    && TasksForward(db.tasks, db'.tasks, issued) && Kept(db, db')
  }

  ghost predicate RoundsSound(rounds: map<ID, Round>, issued: set<ID>) {
    forall id :: id in rounds ==> rounds[id].id == id && id in issued && rounds[id].executionID in issued
  }

  ghost predicate TasksSound(tasks: map<ID, Task>, issued: set<ID>) {
    forall id :: id in tasks ==> tasks[id].id == id && id in issued && tasks[id].version > 0
  }

  ghost predicate IntentsSound(intents: map<ID, Intent>, issued: set<ID>) {
    forall id :: id in intents ==> intents[id].id == id && id in issued
  }

  ghost predicate InboxSound(inbox: map<InboxKey, InboxRow>, rounds: map<ID, Round>) {
    forall k :: k in inbox ==>
                  && k.0 == inbox[k].roundID && k.1 == inbox[k].event.id
                  && k.0 in rounds && rounds[k.0].executionID == inbox[k].executionID
  }

  /** The rounds of an execution belong to one task. */
  ghost predicate Owned(rounds: map<ID, Round>) {
    forall a, b :: a in rounds && b in rounds && rounds[a].executionID == rounds[b].executionID ==>
                     rounds[a].taskID == rounds[b].taskID
  }

  /** Records stand under their own, issued ids. */
  ghost predicate Sound(db: Db, issued: set<ID>) {
    && RoundsSound(db.rounds, issued) && TasksSound(db.tasks, issued) && IntentsSound(db.intents, issued)
    && InboxSound(db.inbox, db.rounds) && Owned(db.rounds)
  }

  // ---------------------------------------------------------------- copies may be old, never wrong

  ghost predicate RoundCopy(db: Db, issued: set<ID>, r: Round) {
    r.id in issued && (r.id in db.rounds ==> RoundSince(r, db.rounds[r.id]))
  }

  ghost predicate TaskCopy(db: Db, issued: set<ID>, t: Task) {
    t.id in issued && t.version > 0 && (t.id in db.tasks ==> t.SameOrBefore(db.tasks[t.id]))
  }

  ghost predicate IntentCopy(db: Db, issued: set<ID>, i: Intent) {
    i.id in issued && (i.id in db.intents ==> IntentSince(i, db.intents[i.id]))
  }

  /** A row that was seen is still there while its round is. */
  ghost predicate SeenCopy(db: Db, r: Round, row: InboxRow) {
    && row.roundID == r.id
    && (r.id in db.rounds ==> (r.id, row.event.id) in db.inbox && db.inbox[(r.id, row.event.id)] == row)
  }

  /** A listed round is still there while its task is. */
  ghost predicate ListCopy(db: Db, issued: set<ID>, t: Task, r: Round) {
    RoundCopy(db, issued, r) && r.taskID == t.id && (t.id in db.tasks ==> r.id in db.rounds)
  }

  ghost predicate CopiesOK(db: Db, issued: set<ID>, c: Copies) {
    && (c.loaded.round.Some? ==> RoundCopy(db, issued, c.loaded.round.value))
    && (c.loaded.task.Some? ==> TaskCopy(db, issued, c.loaded.task.value))
    && (c.loaded.intent.Some? ==> IntentCopy(db, issued, c.loaded.intent.value))
    && (c.loaded.seen.Some? ==> c.loaded.round.Some? && SeenCopy(db, c.loaded.round.value, c.loaded.seen.value))
    && (c.list != [] ==> c.loaded.task.Some?)
    && (forall i :: 0 <= i < |c.list| ==> ListCopy(db, issued, c.loaded.task.value, c.list[i]))
  }

  lemma ReadsAreCopies(db: Db, issued: set<ID>, flight: Flight, load: Load, copies: Copies)
    requires Sound(db, issued) && CopiesOK(db, issued, flight.copies) && Loads(db, flight, load, copies)
    ensures CopiesOK(db, issued, copies)
  {
    if load.LoadList? {
      forall i | 0 <= i < |copies.list| ensures ListCopy(db, issued, copies.loaded.task.value, copies.list[i]) {
      }
    }
  }

  lemma CopiesStay(db: Db, db': Db, issued: set<ID>, issued': set<ID>, c: Copies)
    requires Forward(db, db', issued) && issued <= issued' && CopiesOK(db, issued, c)
    ensures CopiesOK(db', issued', c)
  {
    forall i | 0 <= i < |c.list| ensures ListCopy(db', issued', c.loaded.task.value, c.list[i]) {
      assert ListCopy(db, issued, c.loaded.task.value, c.list[i]);
    }
  }

  // ---------------------------------------------------------------- no lost update

  /** The copies a projection overwrites are what the store holds. */
  ghost predicate Current(db: Db, loaded: Loaded, c: ProjectionCommit) {
    && loaded.round.Some? && c.round.id in db.rounds && db.rounds[c.round.id] == loaded.round.value
    && loaded.task.Some? && c.task.id in db.tasks && db.tasks[c.task.id] == loaded.task.value
    && (c.intent.Some? ==> loaded.intent.Some? && c.intent.value.id in db.intents
                           && db.intents[c.intent.value.id] == loaded.intent.value)
  }

  lemma AppliedIsCurrent(db: Db, issued: set<ID>, copies: Copies, c: ProjectionCommit)
    requires CopiesOK(db, issued, copies) && Writes(copies.loaded, c)
    requires CommitProjection(db, c).Ok? && CommitProjection(db, c).value.1.APPLIED?
    ensures Current(db, copies.loaded, c)
  {
  }

  lemma ProjectedTables(db: Db, c: ProjectionCommit)
    ensures Projected(db, c).rounds == db.rounds[c.round.id := c.round]
    ensures Projected(db, c).tasks == db.tasks[c.task.id := c.task]
    ensures Projected(db, c).intents ==
            if c.intent.Some? then db.intents[c.intent.value.id := c.intent.value] else db.intents
    ensures Projected(db, c).inbox ==
            if c.inbox.Some? then db.inbox[(c.inbox.value.roundID,
                                            c.inbox.value.event.id) := c.inbox.value] else db.inbox
  {
  }

  lemma AppliedInbox(db: Db, c: ProjectionCommit)
    requires CommitProjection(db, c).Ok? && CommitProjection(db, c).value.1.APPLIED?
    ensures CommitProjection(db, c).value.0 == Projected(db, c)
    ensures c.inbox.Some? ==>
              (c.inbox.value.roundID, c.inbox.value.event.id) !in db.inbox && !SequenceTaken(db.inbox, c.inbox.value)
  {
  }

  lemma InboxForward(db: Db, db': Db, round: Round, row: Option<InboxRow>)
    requires InboxSound(db.inbox, db.rounds) && Owned(db.rounds)
    requires round.id in db.rounds && db.rounds[round.id].SameIdentity(round)
             && db'.rounds == db.rounds[round.id := round]
    requires row.Some? ==>
               row.value.roundID == round.id && row.value.executionID == round.executionID
               && (row.value.roundID, row.value.event.id) !in db.inbox
    requires db'.inbox == if row.Some? then db.inbox[(row.value.roundID, row.value.event.id) := row.value] else db.inbox
    ensures InboxSound(db'.inbox, db'.rounds) && Owned(db'.rounds) && Kept(db, db')
  {
  }

  lemma RoundOverwritten(rounds: map<ID, Round>, issued: set<ID>, round: Round)
    requires RoundsSound(rounds, issued) && round.id in rounds && rounds[round.id].Before(round)
    ensures RoundsForward(rounds, rounds[round.id := round], issued) && RoundsSound(rounds[round.id := round], issued)
  {
  }

  lemma TaskOverwritten(tasks: map<ID, Task>, issued: set<ID>, task: Task)
    requires TasksSound(tasks, issued) && task.id in tasks && tasks[task.id].SameOrBefore(task)
    ensures TasksForward(tasks, tasks[task.id := task], issued) && TasksSound(tasks[task.id := task], issued)
  {
  }

  lemma IntentOverwritten(intents: map<ID, Intent>, issued: set<ID>, intent: Intent)
    requires IntentsSound(intents, issued) && intent.id in intents && intents[intent.id].Before(intent)
    ensures IntentsForward(intents, intents[intent.id := intent], issued)
            && IntentsSound(intents[intent.id := intent], issued)
  {
  }

  /** Overwriting a task, a round and perhaps an intent by successors. */
  lemma OverwriteForward(db: Db, db': Db, issued: set<ID>, task: Task, round: Round, intent: Option<Intent>)
    requires RoundsSound(db.rounds, issued) && TasksSound(db.tasks, issued) && IntentsSound(db.intents, issued)
    requires task.id in db.tasks && db.tasks[task.id].SameOrBefore(task) && db'.tasks == db.tasks[task.id := task]
    requires round.id in db.rounds && db.rounds[round.id].Before(round) && db'.rounds == db.rounds[round.id := round]
    requires intent.Some? ==> intent.value.id in db.intents && db.intents[intent.value.id].Before(intent.value)
    requires db'.intents == if intent.Some? then db.intents[intent.value.id := intent.value] else db.intents
    ensures RoundsForward(db.rounds, db'.rounds, issued) && RoundsSound(db'.rounds, issued)
    ensures TasksForward(db.tasks, db'.tasks, issued) && TasksSound(db'.tasks, issued)
    ensures IntentsForward(db.intents, db'.intents, issued) && IntentsSound(db'.intents, issued)
  {
    RoundOverwritten(db.rounds, issued, round);
    TaskOverwritten(db.tasks, issued, task);
    if intent.Some? {
      IntentOverwritten(db.intents, issued, intent.value);
    }
  }

  lemma ProjectionForward(db: Db, issued: set<ID>, copies: Copies, c: ProjectionCommit, db': Db, d: Disposition)
    requires Sound(db, issued) && CopiesOK(db, issued, copies) && Writes(copies.loaded, c)
             && CommitProjection(db, c) == Ok((db', d))
    ensures Forward(db, db', issued) && Sound(db', issued)
  {
    if d.APPLIED? {
      AppliedIsCurrent(db, issued, copies, c);
      AppliedInbox(db, c);
      ProjectedTables(db, c);
      OverwriteForward(db, db', issued, c.task, c.round, c.intent);
      InboxForward(db, db', c.round, c.inbox);
    } else {
      assert db' == db;
    }
  }

  // ---------------------------------------------------------------- commands

  /** The identities of one command are new. */
  predicate New(ids: Drawn, issued: set<ID>) {
    && ids.round !in issued && ids.execution !in issued && "dispatch_" + ids.command !in issued
  }

  function Issue(ids: Drawn, issued: set<ID>): set<ID> {
    issued + {ids.round, ids.execution, "dispatch_" + ids.command}
  }

  /** A new round either opens a new execution at zero or continues a listed round at its cursor. */
  ghost predicate Opens(list: seq<Round>, ids: Drawn, round: Round) {
    || (round.executionID == ids.execution && round.lastSequence == 0)
    || (exists i :: 0 <= i < |list| && round.executionID == list[i].executionID
                    && round.lastSequence == list[i].lastSequence)
  }

  /** What a planned command writes, relative to the copies it read. */
  ghost predicate Orders(copies: Copies, ids: Drawn, c: CommandCommit) {
    && copies.loaded.task.Some?
    && c.expectedTask == copies.loaded.task.value.version && copies.loaded.task.value.SameOrBefore(c.task)
    && c.intent.id == "dispatch_" + ids.command
    && (c.createRound ==> c.round.id == ids.round && c.round.taskID == c.task.id && Opens(copies.list, ids, c.round))
  }

  lemma StartOrders(copies: Copies, buildable: bool, ids: Drawn, now: Time)
    requires PlanStart(copies.loaded.task, copies.candidate, copies.loaded.worker, copies.list, buildable, ids, now).Ok?
    ensures Orders(copies, ids,
                   PlanStart(copies.loaded.task, copies.candidate, copies.loaded.worker, copies.list, buildable, ids,
                             now).value)
  {
  }

  lemma ContinueOrders(copies: Copies, text: string, buildable: bool, ids: Drawn, now: Time)
    requires PlanContinue(copies.loaded.task, copies.list, copies.loaded.worker, text, buildable, ids, now).Ok?
    ensures Orders(copies, ids,
                   PlanContinue(copies.loaded.task, copies.list, copies.loaded.worker, text, buildable, ids, now).value)
  {
  }

  lemma InterruptOrders(copies: Copies, ids: Drawn, now: Time)
    requires PlanInterrupt(copies.loaded.task, copies.list, ids, now).Ok?
    requires PlanInterrupt(copies.loaded.task, copies.list, ids, now).value.Some?
    ensures Orders(copies, ids, PlanInterrupt(copies.loaded.task, copies.list, ids, now).value.value)
  {
  }

  lemma RespondOrders(copies: Copies, response: Response, buildable: bool, ids: Drawn, now: Time)
    requires var p := PlanRespond(copies.loaded.interaction, copies.loaded.task, copies.loaded.worker, copies.list,
                                  response, buildable, ids, now);
             p.Ok? && p.value.Some?
    ensures Orders(copies, ids,
                   PlanRespond(copies.loaded.interaction, copies.loaded.task, copies.loaded.worker, copies.list,
                                            response, buildable, ids, now).value.value)
  {
  }

  lemma CommandedTables(db: Db, c: CommandCommit)
    ensures Commanded(db, c).rounds == if c.createRound then db.rounds[c.round.id := c.round] else db.rounds
    ensures Commanded(db, c).tasks == db.tasks[c.task.id := c.task]
    ensures Commanded(db, c).intents == db.intents[c.intent.id := c.intent]
    ensures Commanded(db, c).inbox == db.inbox
  {
  }

  /** The new round opens an execution or joins one of its own task. */
  ghost predicate Joins(rounds: map<ID, Round>, round: Round, ids: Drawn) {
    || round.executionID == ids.execution
    || (exists id :: id in rounds && rounds[id].executionID == round.executionID && rounds[id].taskID == round.taskID)
  }

  lemma JoinForward(db: Db, db': Db, issued: set<ID>, ids: Drawn, round: Round)
    requires RoundsSound(db.rounds, issued) && Owned(db.rounds) && InboxSound(db.inbox, db.rounds) && New(ids, issued)
    requires round.id == ids.round && Joins(db.rounds, round, ids)
    requires db'.rounds == db.rounds[round.id := round] && db'.inbox == db.inbox
    ensures RoundsForward(db.rounds, db'.rounds, issued) && RoundsSound(db'.rounds, Issue(ids, issued))
    ensures Owned(db'.rounds) && InboxSound(db'.inbox, db'.rounds)
  {
  }

  lemma TaskIntentForward(db: Db, db': Db, issued: set<ID>, ids: Drawn, task: Task, intent: Intent)
    requires TasksSound(db.tasks, issued) && IntentsSound(db.intents, issued) && New(ids, issued)
    requires task.id in db.tasks && db.tasks[task.id].SameOrBefore(task) && db'.tasks == db.tasks[task.id := task]
    requires intent.id == "dispatch_" + ids.command && db'.intents == db.intents[intent.id := intent]
    ensures TasksForward(db.tasks, db'.tasks, issued) && TasksSound(db'.tasks, Issue(ids, issued))
    ensures IntentsForward(db.intents, db'.intents, issued) && IntentsSound(db'.intents, Issue(ids, issued))
  {
  }

  /** Overwriting a task, adding an intent and perhaps a round. */
  lemma OrderForward(db: Db, db': Db, issued: set<ID>, ids: Drawn, task: Task, round: Option<Round>, intent: Intent)
    requires Sound(db, issued) && New(ids, issued)
    requires task.id in db.tasks && db.tasks[task.id].SameOrBefore(task) && db'.tasks == db.tasks[task.id := task]
    requires intent.id == "dispatch_" + ids.command && db'.intents == db.intents[intent.id := intent]
    requires round.Some? ==> round.value.id == ids.round && Joins(db.rounds, round.value, ids)
    requires db'.rounds == if round.Some? then db.rounds[round.value.id := round.value] else db.rounds
    requires db'.inbox == db.inbox
    ensures Forward(db, db', issued) && Sound(db', Issue(ids, issued))
  {
    TaskIntentForward(db, db', issued, ids, task, intent);
    if round.Some? {
      JoinForward(db, db', issued, ids, round.value);
    }
    assert Kept(db, db');
  }

  lemma AcceptedIsCurrent(db: Db, issued: set<ID>, copies: Copies, ids: Drawn, c: CommandCommit)
    requires CopiesOK(db, issued, copies) && Orders(copies, ids, c) && CommitCommand(db, c).Ok?
    ensures c.task.id in db.tasks && db.tasks[c.task.id] == copies.loaded.task.value
    ensures CommitCommand(db, c).value == Commanded(db, c)
    ensures c.createRound ==> c.round.id !in db.rounds && !TurnTaken(db.rounds, c.round)
  {
  }

  /** The round a command continues is in the store when the command commits. */
  lemma ParentIsStored(db: Db, issued: set<ID>, copies: Copies, ids: Drawn, c: CommandCommit)
    returns (parent: Option<Round>)
    requires CopiesOK(db, issued, copies) && Orders(copies, ids, c) && c.createRound && c.task.id in db.tasks
    ensures parent.None? ==> c.round.executionID == ids.execution && c.round.lastSequence == 0
    ensures parent.Some? ==> parent.value.id in db.rounds && db.rounds[parent.value.id] == parent.value
                             && parent.value.taskID == c.round.taskID && parent.value.executionID == c.round.executionID
                             && c.round.lastSequence <= parent.value.lastSequence
  {
    if c.round.executionID == ids.execution && c.round.lastSequence == 0 {
      parent := None;
    } else {
      var i :| 0 <= i < |copies.list| && c.round.executionID == copies.list[i].executionID
               && c.round.lastSequence == copies.list[i].lastSequence;
      assert ListCopy(db, issued, copies.loaded.task.value, copies.list[i]);
      parent := Some(db.rounds[copies.list[i].id]);
    }
  }

  lemma CommandForward(db: Db, issued: set<ID>, copies: Copies, ids: Drawn, c: CommandCommit, db': Db)
    requires Sound(db, issued) && CopiesOK(db, issued, copies) && New(ids, issued) && Orders(copies, ids, c)
    requires CommitCommand(db, c) == Ok(db')
    ensures Forward(db, db', issued) && Sound(db', Issue(ids, issued))
  {
    AcceptedIsCurrent(db, issued, copies, ids, c);
    CommandedTables(db, c);
    if c.createRound {
      var parent := ParentIsStored(db, issued, copies, ids, c);
      OrderForward(db, db', issued, ids, c.task, Some(c.round), c.intent);
    } else {
      OrderForward(db, db', issued, ids, c.task, None, c.intent);
    }
  }

  // ---------------------------------------------------------------- every call

  /** A record is overwritten only by a call whose copy of it is what the store holds. */
  ghost predicate NothingLost(db: Db, db': Db, loaded: Loaded) {
    && (forall id :: id in db.rounds && id in db'.rounds && db'.rounds[id] != db.rounds[id] ==>
                       loaded.round == Some(db.rounds[id]))
    && (forall id :: id in db.intents && id in db'.intents && db'.intents[id] != db.intents[id] ==>
                       loaded.intent == Some(db.intents[id]))
    && (forall id :: id in db.tasks && id in db'.tasks && db'.tasks[id] != db.tasks[id] ==>
                       loaded.task == Some(db.tasks[id]))
  }

  ghost predicate Good(db: Db, db': Db, issued: set<ID>, ids: Drawn, loaded: Loaded) {
    Forward(db, db', issued) && Sound(db', Issue(ids, issued)) && NothingLost(db, db', loaded)
  }

  lemma SoundLater(db: Db, issued: set<ID>, ids: Drawn)
    requires Sound(db, issued)
    ensures Sound(db, Issue(ids, issued))
  {
  }

  lemma UnchangedIsGood(db: Db, issued: set<ID>, ids: Drawn, loaded: Loaded)
    requires Sound(db, issued)
    ensures Good(db, db, issued, ids, loaded)
  {
  }

  /** Overwriting exactly the records that were read loses nothing. */
  lemma OverwriteLosesNothing(db: Db, db': Db, loaded: Loaded, task: Task, round: Round, intent: Option<Intent>)
    requires task.id in db.tasks && loaded.task == Some(db.tasks[task.id]) && db'.tasks == db.tasks[task.id := task]
    requires round.id in db.rounds && loaded.round == Some(db.rounds[round.id])
             && db'.rounds == db.rounds[round.id := round]
    requires intent.Some? ==> intent.value.id in db.intents && loaded.intent == Some(db.intents[intent.value.id])
    requires db'.intents == if intent.Some? then db.intents[intent.value.id := intent.value] else db.intents
    ensures NothingLost(db, db', loaded)
  {
  }

  lemma AppliedLosesNothing(db: Db, issued: set<ID>, copies: Copies, c: ProjectionCommit, db': Db)
    requires CopiesOK(db, issued, copies) && Writes(copies.loaded, c) && CommitProjection(db, c) == Ok((db', APPLIED))
    ensures NothingLost(db, db', copies.loaded)
  {
    AppliedIsCurrent(db, issued, copies, c);
    AppliedInbox(db, c);
    ProjectedTables(db, c);
    OverwriteLosesNothing(db, db', copies.loaded, c.task, c.round, c.intent);
  }

  lemma ProjectionIsGood(db: Db, issued: set<ID>, copies: Copies, ids: Drawn, c: ProjectionCommit, db': Db,
                         d: Disposition)
    requires Sound(db, issued) && CopiesOK(db, issued, copies) && Writes(copies.loaded, c)
             && CommitProjection(db, c) == Ok((db', d))
    ensures Good(db, db', issued, ids, copies.loaded)
  {
    ProjectionForward(db, issued, copies, c, db', d);
    SoundLater(db', issued, ids);
    if d.APPLIED? {
      AppliedLosesNothing(db, issued, copies, c, db');
    } else {
      assert db' == db;
    }
  }

  lemma CommandIsGood(db: Db, issued: set<ID>, copies: Copies, ids: Drawn, c: CommandCommit, db': Db)
    requires Sound(db, issued) && CopiesOK(db, issued, copies) && New(ids, issued) && Orders(copies, ids, c)
    requires CommitCommand(db, c) == Ok(db')
    ensures Good(db, db', issued, ids, copies.loaded)
  {
    CommandForward(db, issued, copies, ids, c, db');
    AcceptedIsCurrent(db, issued, copies, ids, c);
    CommandedTables(db, c);
  }

  lemma TouchIntentIsGood(db: Db, issued: set<ID>, ids: Drawn, loaded: Loaded, intent: Intent)
    requires Sound(db, issued) && intent.id in db.intents && loaded.intent == Some(db.intents[intent.id])
             && db.intents[intent.id].Before(intent)
    ensures Good(db, PutIntent(db, Some(intent)), issued, ids, loaded)
  {
    IntentOverwritten(db.intents, issued, intent);
    var db' := PutIntent(db, Some(intent));
    assert Sound(db', issued);
    SoundLater(db', issued, ids);
  }

  lemma ClaimIsGood(db: Db, issued: set<ID>, copies: Copies, ids: Drawn, now: Time, db': Db)
    requires Sound(db, issued) && CopiesOK(db, issued, copies)
    requires copies.loaded.intent.Some? && copies.loaded.intent.value.StartAttempt(now).Ok?
    requires UpdateIntent(db, copies.loaded.intent.value.StartAttempt(now).value,
                          copies.loaded.intent.value.version) == Ok(db')
    ensures Good(db, db', issued, ids, copies.loaded)
  {
    TouchIntentIsGood(db, issued, ids, copies.loaded, copies.loaded.intent.value.StartAttempt(now).value);
  }

  lemma TouchRoundIsGood(db: Db, issued: set<ID>, ids: Drawn, loaded: Loaded, round: Round)
    requires Sound(db, issued) && round.id in db.rounds && loaded.round == Some(db.rounds[round.id])
             && db.rounds[round.id].Before(round)
    ensures Good(db, PutRound(db, Some(round)), issued, ids, loaded)
  {
    var db' := PutRound(db, Some(round));
    InboxForward(db, db', round, None);
    assert RoundsForward(db.rounds, db'.rounds, issued) && RoundsSound(db'.rounds, issued);
    SoundLater(db', issued, ids);
  }

  lemma RetryIsGood(db: Db, issued: set<ID>, ids: Drawn, loaded: Loaded, round: Round, intent: Intent)
    requires Sound(db, issued) && round.id in db.rounds && loaded.round == Some(db.rounds[round.id])
             && db.rounds[round.id].Before(round)
    requires intent.id in db.intents && loaded.intent == Some(db.intents[intent.id])
             && db.intents[intent.id].Before(intent)
    ensures Good(db, PutIntent(PutRound(db, Some(round)), Some(intent)), issued, ids, loaded)
  {
    TouchRoundIsGood(db, issued, ids, loaded, round);
  }

  lemma VerdictIsGood(db: Db, issued: set<ID>, copies: Copies, ids: Drawn, acknowledged: bool, now: Time,
                      verdict: Verdict, db': Db)
    requires Sound(db, issued) && CopiesOK(db, issued, copies) && copies.loaded.round.Some?
    requires OnNetworkFailure(copies.loaded.round.value, copies.loaded.intent, acknowledged, now) == Ok(verdict)
    requires PerformVerdict(db, copies.loaded, verdict) == Ok(db')
    ensures Good(db, db', issued, ids, copies.loaded)
  {
    match verdict
    case GiveUp => UnchangedIsGood(db, issued, ids, copies.loaded);
    case RetryLater(r, i) => RetryIsGood(db, issued, ids, copies.loaded, r, i);
    case Note(r) => TouchRoundIsGood(db, issued, ids, copies.loaded, r);
  }

  lemma TouchTaskIsGood(db: Db, issued: set<ID>, ids: Drawn, loaded: Loaded, task: Task, db': Db)
    requires Sound(db, issued) && task.id in db.tasks && loaded.task == Some(db.tasks[task.id])
             && db.tasks[task.id].SameOrBefore(task)
    requires db'.tasks == db.tasks[task.id := task] && db'.rounds == db.rounds && db'.intents == db.intents
             && db'.inbox == db.inbox
    ensures Good(db, db', issued, ids, loaded)
  {
  }

  lemma MigrationIsGood(db: Db, issued: set<ID>, copies: Copies, ids: Drawn, task: Task, worker: Option<Worker>,
                        expected: nat, db': Db, applied: bool)
    requires Sound(db, issued) && CopiesOK(db, issued, copies) && copies.loaded.task.Some?
    requires copies.loaded.task.value.SameOrBefore(task)
    requires CommitMigration(db, task, copies.loaded.task.value.version, worker, expected) == Ok((db', applied))
    ensures Good(db, db', issued, ids, copies.loaded)
  {
    if applied {
      TouchTaskIsGood(db, issued, ids, copies.loaded, task, db');
    } else {
      UnchangedIsGood(db, issued, ids, copies.loaded);
    }
  }

  lemma UpdateCallIsGood(db: Db, issued: set<ID>, flight: Flight, ids: Drawn, now: Time, db': Db)
    requires flight.call.Remote? || flight.call.FailRound?
    requires Sound(db, issued) && CopiesOK(db, issued, flight.copies) && New(ids, issued)
    requires Perform(db, flight, ids, now) == Ok(db')
    ensures Good(db, db', issued, ids, flight.copies.loaded)
  {
    var loaded := flight.copies.loaded;
    match flight.call
    case Remote(_, intentID, update) =>
      var c, d := PerformRemote(db, flight, ids, now, db');
      PlanWrites(loaded, intentID.Some?, update, now);
      ProjectionIsGood(db, issued, flight.copies, ids, c, db', d);
    case FailRound(_, intentID, code, message) =>
      if loaded.round.Some? && AlreadyFailed(loaded.round.value, code) {
        UnchangedIsGood(db, issued, ids, loaded);
      } else {
        PlanFailureWrites(loaded, intentID.Some?, code, message, now);
        var c := PlanFailure(loaded, intentID.Some?, code, message, now).value;
        ProjectionIsGood(db, issued, flight.copies, ids, c, db', CommitProjection(db, c).value.1);
      }
  }

  lemma OpeningCallIsGood(db: Db, issued: set<ID>, flight: Flight, ids: Drawn, now: Time, db': Db)
    requires flight.call.StartCall? || flight.call.ContinueCall?
    requires Sound(db, issued) && CopiesOK(db, issued, flight.copies) && New(ids, issued)
    requires Perform(db, flight, ids, now) == Ok(db')
    ensures Good(db, db', issued, ids, flight.copies.loaded)
  {
    var copies, loaded := flight.copies, flight.copies.loaded;
    match flight.call
    case StartCall(_, buildable) =>
      StartOrders(copies, buildable, ids, now);
      CommandIsGood(db, issued, copies, ids,
                    PlanStart(loaded.task, copies.candidate, loaded.worker, copies.list, buildable, ids,
                              now).value, db');
    case ContinueCall(_, text, buildable) =>
      ContinueOrders(copies, text, buildable, ids, now);
      CommandIsGood(db, issued, copies, ids,
                    PlanContinue(loaded.task, copies.list, loaded.worker, text, buildable, ids, now).value, db');
  }

  lemma SteeringCallIsGood(db: Db, issued: set<ID>, flight: Flight, ids: Drawn, now: Time, db': Db)
    requires flight.call.InterruptCall? || flight.call.RespondCall?
    requires Sound(db, issued) && CopiesOK(db, issued, flight.copies) && New(ids, issued)
    requires Perform(db, flight, ids, now) == Ok(db')
    ensures Good(db, db', issued, ids, flight.copies.loaded)
  {
    var copies, loaded := flight.copies, flight.copies.loaded;
    UnchangedIsGood(db, issued, ids, loaded);
    match flight.call
    case InterruptCall(_) =>
      var plan := PlanInterrupt(loaded.task, copies.list, ids, now).value;
      if plan.Some? {
        InterruptOrders(copies, ids, now);
        CommandIsGood(db, issued, copies, ids, plan.value, db');
      }
    case RespondCall(_, response, buildable) =>
      var plan := PlanRespond(loaded.interaction, loaded.task, loaded.worker, copies.list, response, buildable, ids,
                              now).value;
      if plan.Some? {
        RespondOrders(copies, response, buildable, ids, now);
        CommandIsGood(db, issued, copies, ids, plan.value, db');
      }
  }

  lemma ReconcilerCallIsGood(db: Db, issued: set<ID>, flight: Flight, ids: Drawn, now: Time, db': Db)
    requires flight.call.ClaimCall? || flight.call.NetworkFailureCall? || flight.call.MigrateCall?
    requires Sound(db, issued) && CopiesOK(db, issued, flight.copies) && New(ids, issued)
    requires Perform(db, flight, ids, now) == Ok(db')
    ensures Good(db, db', issued, ids, flight.copies.loaded)
  {
    var copies, loaded := flight.copies, flight.copies.loaded;
    match flight.call
    case ClaimCall(_) => ClaimIsGood(db, issued, copies, ids, now, db');
    case NetworkFailureCall(_, _, acknowledged) =>
      VerdictIsGood(db, issued, copies, ids, acknowledged, now,
                    OnNetworkFailure(loaded.round.value, loaded.intent, acknowledged, now).value, db');
    case MigrateCall(_) =>
      var plan := PlanMigration(loaded.task, copies.list, loaded.worker, now).value;
      if plan.Some? {
        var expected := if loaded.worker.Some? then loaded.worker.value.version else 0;
        MigrationIsGood(db, issued, copies, ids, plan.value.0, plan.value.1, expected, db',
                        CommitMigration(db, plan.value.0, loaded.task.value.version, plan.value.1, expected).value.1);
      } else {
        UnchangedIsGood(db, issued, ids, loaded);
      }
  }

  lemma PerformIsGood(db: Db, issued: set<ID>, flight: Flight, ids: Drawn, now: Time, db': Db)
    requires Sound(db, issued) && CopiesOK(db, issued, flight.copies) && New(ids, issued)
    requires Perform(db, flight, ids, now) == Ok(db')
    ensures Good(db, db', issued, ids, flight.copies.loaded)
  {
    match flight.call
    case Remote(_, _, _) => UpdateCallIsGood(db, issued, flight, ids, now, db');
    case FailRound(_, _, _, _) => UpdateCallIsGood(db, issued, flight, ids, now, db');
    case StartCall(_, _) => OpeningCallIsGood(db, issued, flight, ids, now, db');
    case ContinueCall(_, _, _) => OpeningCallIsGood(db, issued, flight, ids, now, db');
    case InterruptCall(_) => SteeringCallIsGood(db, issued, flight, ids, now, db');
    case RespondCall(_, _, _) => SteeringCallIsGood(db, issued, flight, ids, now, db');
    case _ => ReconcilerCallIsGood(db, issued, flight, ids, now, db');
  }

  // ---------------------------------------------------------------- calls taken as one step

  /** The calls that save a task or worker without a version check. */
  datatype Direct =
    | DoAssign(taskID: ID, workerID: ID, agent: Option<Agent>)
    | DoCreate(id: ID, title: string, projectID: ID, chosen: Agent, workerID: ID)
    | DoEdit(taskID: ID, projectID: ID, chosen: Agent)
    | DoArchive(taskID: ID)
    | DoRetry(taskID: ID)
    | DoDelete(taskID: ID)
    | DoRegister(id: ID, agents: seq<Agent>, allProjects: bool, bound: seq<ID>)
    | DoReconfigure(id: ID, status: WorkerStatus, agents: seq<Agent>, allProjects: bool, bound: seq<ID>)
    | DoDeleteWorker(id: ID)

  function PerformDirect(db: Db, op: Direct, now: Time): Result<Db> {
    match op
    case DoAssign(taskID, workerID, agent) => Assign(db, taskID, workerID, agent, now)
    case DoCreate(id, title, projectID, agent, workerID) => Create(db, id, title, projectID, agent, workerID, now)
    case DoEdit(taskID, projectID, agent) => Edit(db, taskID, projectID, agent, now)
    case DoArchive(taskID) => Archive(db, taskID, now)
    case DoRetry(taskID) => Retry(db, taskID, now)
    case DoDelete(taskID) => Delete(db, taskID)
    case DoRegister(id, agents, allProjects, bound) => Register(db, id, agents, allProjects, bound, now)
    case DoReconfigure(id, status, agents, allProjects,
                       bound) => Reconfigure(db, id, status, agents, allProjects, bound, now)
    case DoDeleteWorker(id) => DeleteWorker(db, id)
  }

  function DirectIssue(op: Direct, issued: set<ID>): set<ID> {
    if op.DoCreate? then issued + {op.id} else issued
  }

  ghost predicate Moves(db: Db, db': Db, issued: set<ID>, issued': set<ID>) {
    Forward(db, db', issued) && Sound(db', issued')
  }

  /** A task saved over its predecessor, or under a new id. */
  lemma SaveTaskMoves(db: Db, db': Db, issued: set<ID>, task: Task)
    requires Sound(db, issued) && task.version > 0
    requires if task.id in db.tasks then db.tasks[task.id].SameOrBefore(task) else task.id !in issued
    requires db'.tasks == db.tasks[task.id := task] && db'.rounds == db.rounds && db'.intents == db.intents
             && db'.inbox == db.inbox
    ensures Moves(db, db', issued, issued + {task.id})
  {
  }

  lemma DeleteMoves(db: Db, id: ID, issued: set<ID>)
    requires Sound(db, issued) && DeleteTask(db, id).Ok?
    ensures Moves(db, DeleteTask(db, id).value, issued, issued)
  {
    var db' := DeleteTask(db, id).value;
    forall k | k in db.inbox && k.0 in db'.rounds ensures k in db'.inbox && db'.inbox[k] == db.inbox[k] {
      assert db.rounds[k.0].taskID != id;
    }
  }

  lemma WorkersOnlyMoves(db: Db, db': Db, issued: set<ID>)
    requires Sound(db, issued)
    requires db'.tasks == db.tasks && db'.rounds == db.rounds && db'.intents == db.intents && db'.inbox == db.inbox
    ensures Moves(db, db', issued, issued)
  {
  }

  lemma SavedAgain(db: Db, db': Db, issued: set<ID>, task: Task)
    requires Sound(db, issued) && task.id in db.tasks && db.tasks[task.id].SameOrBefore(task)
    requires db'.tasks == db.tasks[task.id := task] && db'.rounds == db.rounds && db'.intents == db.intents
             && db'.inbox == db.inbox
    ensures Moves(db, db', issued, issued)
  {
    SaveTaskMoves(db, db', issued, task);
    assert issued + {task.id} == issued;
  }

  lemma AssignMoves(db: Db, taskID: ID, workerID: ID, agent: Option<Agent>, now: Time, issued: set<ID>)
    requires Sound(db, issued) && Assign(db, taskID, workerID, agent, now).Ok?
    ensures Moves(db, Assign(db, taskID, workerID, agent, now).value, issued, issued)
  {
    var db' := Assign(db, taskID, workerID, agent, now).value;
    SavedAgain(db, db', issued, db'.tasks[taskID]);
  }

  lemma CreateMoves(db: Db, id: ID, title: string, projectID: ID, agent: Agent, workerID: ID, now: Time,
                    issued: set<ID>)
    requires Sound(db, issued) && id !in issued && Create(db, id, title, projectID, agent, workerID, now).Ok?
    ensures Moves(db, Create(db, id, title, projectID, agent, workerID, now).value, issued, issued + {id})
  {
    var db' := Create(db, id, title, projectID, agent, workerID, now).value;
    SaveTaskMoves(db, db', issued, db'.tasks[id]);
  }

  lemma EditMoves(db: Db, taskID: ID, projectID: ID, agent: Agent, now: Time, issued: set<ID>)
    requires Sound(db, issued) && Edit(db, taskID, projectID, agent, now).Ok?
    ensures Moves(db, Edit(db, taskID, projectID, agent, now).value, issued, issued)
  {
    var db' := Edit(db, taskID, projectID, agent, now).value;
    SavedAgain(db, db', issued, db'.tasks[taskID]);
  }

  lemma ArchiveMoves(db: Db, taskID: ID, now: Time, issued: set<ID>)
    requires Sound(db, issued) && Archive(db, taskID, now).Ok?
    ensures Moves(db, Archive(db, taskID, now).value, issued, issued)
  {
    var db' := Archive(db, taskID, now).value;
    SavedAgain(db, db', issued, db'.tasks[taskID]);
  }

  lemma RetryMoves(db: Db, taskID: ID, now: Time, issued: set<ID>)
    requires Sound(db, issued) && Retry(db, taskID, now).Ok?
    ensures Moves(db, Retry(db, taskID, now).value, issued, issued)
  {
    var db' := Retry(db, taskID, now).value;
    SavedAgain(db, db', issued, db'.tasks[taskID]);
  }

  /** A direct call saves one task, deletes one, or touches workers only. */
  lemma DirectMoves(db: Db, op: Direct, now: Time, issued: set<ID>, db': Db)
    requires Sound(db, issued) && PerformDirect(db, op, now) == Ok(db')
    requires op.DoCreate? ==> op.id !in issued
    ensures Moves(db, db', issued, DirectIssue(op, issued))
  {
    match op
    case DoAssign(taskID, workerID, agent) => AssignMoves(db, taskID, workerID, agent, now, issued);
    case DoCreate(id, title, projectID, agent,
                  workerID) => CreateMoves(db, id, title, projectID, agent, workerID, now, issued);
    case DoEdit(taskID, projectID, agent) => EditMoves(db, taskID, projectID, agent, now, issued);
    case DoArchive(taskID) => ArchiveMoves(db, taskID, now, issued);
    case DoRetry(taskID) => RetryMoves(db, taskID, now, issued);
    case DoDelete(taskID) => DeleteMoves(db, taskID, issued);
    case _ => WorkersOnlyMoves(db, db', issued);
  }

  // ---------------------------------------------------------------- runs

  datatype State = State(db: Db, issued: set<ID>, flights: map<nat, Flight>)

  datatype Action = Begin(call: Call) | Fetch(load: Load, copies: Copies)
                  | Commit(ids: Drawn, now: Time) | Do(op: Direct, now: Time)

  /** f is the call that acts; a commit that fails leaves the store alone, and either way the call is over. */
  ghost predicate Next(s: State, s': State, f: nat, action: Action) {
    match action
    case Begin(call) => f !in s.flights && s' == s.(flights := s.flights[f := Flight(call, NOTHING)])
    case Fetch(load, copies) =>
      f in s.flights && Loads(s.db, s.flights[f], load, copies)
      && s' == s.(flights := s.flights[f := s.flights[f].(copies := copies)])
    case Commit(ids, now) =>
      && f in s.flights && New(ids, s.issued)
      && var done := Perform(s.db, s.flights[f], ids, now);
      s' == State(if done.Ok? then done.value else s.db, Issue(ids, s.issued), s.flights - {f})
    case Do(op, now) =>
      && (op.DoCreate? ==> op.id !in s.issued)
      && var done := PerformDirect(s.db, op, now);
      s' == s.(db := if done.Ok? then done.value else s.db, issued := DirectIssue(op, s.issued))
  }

  /** The store before the first A2A call: any tasks and workers, no rounds. */
  ghost predicate Initial(s: State) {
    && Sound(s.db, s.issued) && s.flights == map[]
    && s.db.rounds == map[] && s.db.intents == map[] && s.db.inbox == map[]
  }

  ghost predicate IsRun(run: seq<State>, moves: seq<(nat, Action)>) {
    && |run| == |moves| + 1 && Initial(run[0])
    && forall i :: 0 <= i < |moves| ==> Next(run[i], run[i + 1], moves[i].0, moves[i].1)
  }

  ghost predicate Inv(s: State) {
    Sound(s.db, s.issued) && forall f :: f in s.flights ==> CopiesOK(s.db, s.issued, s.flights[f].copies)
  }

  lemma NextMoves(s: State, s': State, f: nat, action: Action)
    requires Inv(s) && Next(s, s', f, action)
    ensures Moves(s.db, s'.db, s.issued, s'.issued) && s.issued <= s'.issued
  {
    match action
    case Commit(ids, now) =>
      UnchangedIsGood(s.db, s.issued, ids, s.flights[f].copies.loaded);
      if Perform(s.db, s.flights[f], ids, now).Ok? {
        PerformIsGood(s.db, s.issued, s.flights[f], ids, now, s'.db);
      }
    case Do(op, now) =>
      if PerformDirect(s.db, op, now).Ok? {
        DirectMoves(s.db, op, now, s.issued, s'.db);
      }
    case _ =>
  }

  lemma NextKeepsInv(s: State, s': State, f: nat, action: Action)
    requires Inv(s) && Next(s, s', f, action)
    ensures Inv(s')
  {
    NextMoves(s, s', f, action);
    forall g | g in s'.flights ensures CopiesOK(s'.db, s'.issued, s'.flights[g].copies) {
      if action.Fetch? && g == f {
        ReadsAreCopies(s.db, s.issued, s.flights[f], action.load, action.copies);
      } else if !(action.Begin? && g == f) {
        CopiesStay(s.db, s'.db, s.issued, s'.issued, s.flights[g].copies);
      }
    }
  }

  lemma {:induction false} RunKeepsInv(run: seq<State>, moves: seq<(nat, Action)>, i: nat)
    requires IsRun(run, moves) && i < |run|
    ensures Inv(run[i])
  {
    if i > 0 {
      RunKeepsInv(run, moves, i - 1);
      NextKeepsInv(run[i - 1], run[i], moves[i - 1].0, moves[i - 1].1);
    }
  }

  /** The records a call computes from its copies to replace what is stored. */
  datatype Written = Written(round: Option<Round>, intent: Option<Intent>, task: Option<Task>)

  function OfProjection(plan: Result<ProjectionCommit>): Written {
    if plan.Ok? then Written(Some(plan.value.round), plan.value.intent,
                             Some(plan.value.task)) else Written(None, None, None)
  }

  function OfCommand(plan: Result<CommandCommit>): Written {
    Written(None, None, if plan.Ok? then Some(plan.value.task) else None)
  }

  function OfSteering(plan: Result<Option<CommandCommit>>): Written {
    Written(None, None, if plan.Ok? && plan.value.Some? then Some(plan.value.value.task) else None)
  }

  function OfVerdict(verdict: Result<Verdict>): Written {
    if verdict.Err? then Written(None, None, None) else
      match verdict.value
      case GiveUp => Written(None, None, None)
      case RetryLater(round, intent) => Written(Some(round), Some(intent), None)
      case Note(round) => Written(Some(round), None, None)
  }

  /** The domain transitions of the call on the copies it holds. */
  function Transition(flight: Flight, ids: Drawn, now: Time): Written {
    var loaded, list := flight.copies.loaded, flight.copies.list;
    match flight.call
    case Remote(_, intentID, update) => OfProjection(Plan(loaded, intentID.Some?, update, now))
    case FailRound(_, intentID, code, message) => OfProjection(PlanFailure(loaded, intentID.Some?, code, message, now))
    case StartCall(_, buildable) =>
      OfCommand(PlanStart(loaded.task, flight.copies.candidate, loaded.worker, list, buildable, ids, now))
    case ContinueCall(_, text, buildable) =>
      OfCommand(PlanContinue(loaded.task, list, loaded.worker, text, buildable, ids, now))
    case InterruptCall(_) => OfSteering(PlanInterrupt(loaded.task, list, ids, now))
    case RespondCall(_, response, buildable) =>
      OfSteering(PlanRespond(loaded.interaction, loaded.task, loaded.worker, list, response, buildable, ids, now))
    case ClaimCall(_) =>
      Written(None, if loaded.intent.Some? then AsOption(loaded.intent.value.StartAttempt(now)) else None, None)
    case NetworkFailureCall(_, _, acknowledged) =>
      if loaded.round.None? then Written(None, None, None)
      else OfVerdict(OnNetworkFailure(loaded.round.value, loaded.intent, acknowledged, now))
    case MigrateCall(_) =>
      var plan := PlanMigration(loaded.task, list, loaded.worker, now);
      Written(None, None, if plan.Ok? && plan.value.Some? then Some(plan.value.value.0) else None)
  }

  function AsOption<T>(r: Result<T>): Option<T> {
    if r.Ok? then Some(r.value) else None
  }

  /** Stored records change only into the written ones. */
  ghost predicate Replaces(db: Db, db': Db, w: Written) {
    && (forall id :: id in db.rounds && id in db'.rounds && db'.rounds[id] != db.rounds[id] ==>
                       w.round == Some(db'.rounds[id]))
    && (forall id :: id in db.intents && id in db'.intents && db'.intents[id] != db.intents[id] ==>
                       w.intent == Some(db'.intents[id]))
    && (forall id :: id in db.tasks && id in db'.tasks && db'.tasks[id] != db.tasks[id] ==>
                       w.task == Some(db'.tasks[id]))
  }

  lemma ProjectionReplaces(db: Db, c: ProjectionCommit, db': Db, d: Disposition)
    requires CommitProjection(db, c) == Ok((db', d))
    ensures Replaces(db, db', OfProjection(Ok(c)))
  {
    if d.APPLIED? {
      AppliedInbox(db, c);
      ProjectedTables(db, c);
    } else {
      assert db' == db;
    }
  }

  lemma CommandReplaces(db: Db, c: CommandCommit, db': Db)
    requires CommitCommand(db, c) == Ok(db')
    ensures Replaces(db, db', OfCommand(Ok(c)))
  {
    CommandedTables(db, c);
  }

  lemma VerdictReplaces(db: Db, loaded: Loaded, verdict: Verdict, db': Db)
    requires PerformVerdict(db, loaded, verdict) == Ok(db')
    ensures Replaces(db, db', OfVerdict(Ok(verdict)))
  {
  }

  lemma UpdateReplaces(db: Db, flight: Flight, ids: Drawn, now: Time, db': Db)
    requires (flight.call.Remote? || flight.call.FailRound?) && Perform(db, flight, ids, now) == Ok(db')
    ensures Replaces(db, db', Transition(flight, ids, now))
  {
    var loaded := flight.copies.loaded;
    match flight.call
    case Remote(_, _, _) =>
      var c, d := PerformRemote(db, flight, ids, now, db');
      ProjectionReplaces(db, c, db', d);
    case FailRound(_, intentID, code, message) =>
      if !(loaded.round.Some? && AlreadyFailed(loaded.round.value, code)) {
        var c := PlanFailure(loaded, intentID.Some?, code, message, now).value;
        ProjectionReplaces(db, c, db', CommitProjection(db, c).value.1);
      }
  }

  lemma StartReplaces(db: Db, flight: Flight, ids: Drawn, now: Time, db': Db)
    requires flight.call.StartCall? && Perform(db, flight, ids, now) == Ok(db')
    ensures Replaces(db, db', Transition(flight, ids, now))
  {
    var copies, loaded := flight.copies, flight.copies.loaded;
    var buildable := flight.call.buildable;
    var c := PlanStart(loaded.task, copies.candidate, loaded.worker, copies.list, buildable, ids, now).value;
    CommandReplaces(db, c, db');
  }

  lemma ContinueReplaces(db: Db, flight: Flight, ids: Drawn, now: Time, db': Db)
    requires flight.call.ContinueCall? && Perform(db, flight, ids, now) == Ok(db')
    ensures Replaces(db, db', Transition(flight, ids, now))
  {
    var copies, loaded, call := flight.copies, flight.copies.loaded, flight.call;
    var c := PlanContinue(loaded.task, copies.list, loaded.worker, call.text, call.buildable, ids, now).value;
    CommandReplaces(db, c, db');
  }

  lemma InterruptReplaces(db: Db, flight: Flight, ids: Drawn, now: Time, db': Db)
    requires flight.call.InterruptCall? && Perform(db, flight, ids, now) == Ok(db')
    ensures Replaces(db, db', Transition(flight, ids, now))
  {
    var plan := PlanInterrupt(flight.copies.loaded.task, flight.copies.list, ids, now).value;
    if plan.Some? {
      CommandReplaces(db, plan.value, db');
    }
  }

  lemma RespondReplaces(db: Db, flight: Flight, ids: Drawn, now: Time, db': Db)
    requires flight.call.RespondCall? && Perform(db, flight, ids, now) == Ok(db')
    ensures Replaces(db, db', Transition(flight, ids, now))
  {
    var copies, loaded, call := flight.copies, flight.copies.loaded, flight.call;
    var plan := PlanRespond(loaded.interaction, loaded.task, loaded.worker, copies.list, call.response, call.buildable,
                            ids, now).value;
    if plan.Some? {
      CommandReplaces(db, plan.value, db');
    }
  }

  lemma ClaimReplaces(db: Db, flight: Flight, ids: Drawn, now: Time, db': Db)
    requires flight.call.ClaimCall? && Perform(db, flight, ids, now) == Ok(db')
    ensures Replaces(db, db', Transition(flight, ids, now))
  {
  }

  lemma NetworkFailureReplaces(db: Db, flight: Flight, ids: Drawn, now: Time, db': Db)
    requires flight.call.NetworkFailureCall? && Perform(db, flight, ids, now) == Ok(db')
    ensures Replaces(db, db', Transition(flight, ids, now))
  {
    var loaded := flight.copies.loaded;
    VerdictReplaces(db, loaded,
                    OnNetworkFailure(loaded.round.value, loaded.intent, flight.call.acknowledged, now).value, db');
  }

  lemma MigrationTables(db: Db, task: Task, expectedTask: nat, worker: Option<Worker>, expected: nat, db': Db,
                        applied: bool)
    requires CommitMigration(db, task, expectedTask, worker, expected) == Ok((db', applied))
    ensures db'.rounds == db.rounds && db'.intents == db.intents
    ensures db'.tasks == if applied then db.tasks[task.id := task] else db.tasks
  {
  }

  lemma MigrationReplaces(db: Db, flight: Flight, ids: Drawn, now: Time, db': Db)
    requires flight.call.MigrateCall? && Perform(db, flight, ids, now) == Ok(db')
    ensures Replaces(db, db', Transition(flight, ids, now))
  {
    var copies, loaded := flight.copies, flight.copies.loaded;
    var plan := PlanMigration(loaded.task, copies.list, loaded.worker, now).value;
    if plan.Some? {
      var expected := if loaded.worker.Some? then loaded.worker.value.version else 0;
      var done := CommitMigration(db, plan.value.0, loaded.task.value.version, plan.value.1, expected).value;
      MigrationTables(db, plan.value.0, loaded.task.value.version, plan.value.1, expected, db', done.1);
    }
  }

  /** What a commit puts in the place of a stored record is what the call computed. */
  lemma PerformReplaces(db: Db, flight: Flight, ids: Drawn, now: Time, db': Db)
    requires Perform(db, flight, ids, now) == Ok(db')
    ensures Replaces(db, db', Transition(flight, ids, now))
  {
    match flight.call
    case Remote(_, _, _) => UpdateReplaces(db, flight, ids, now, db');
    case FailRound(_, _, _, _) => UpdateReplaces(db, flight, ids, now, db');
    case StartCall(_, _) => StartReplaces(db, flight, ids, now, db');
    case ContinueCall(_, _, _) => ContinueReplaces(db, flight, ids, now, db');
    case InterruptCall(_) => InterruptReplaces(db, flight, ids, now, db');
    case RespondCall(_, _, _) => RespondReplaces(db, flight, ids, now, db');
    case ClaimCall(_) => ClaimReplaces(db, flight, ids, now, db');
    case NetworkFailureCall(_, _, _) => NetworkFailureReplaces(db, flight, ids, now, db');
    case MigrateCall(_) => MigrationReplaces(db, flight, ids, now, db');
  }

  lemma CommitIsGood(s: State, s': State, f: nat, ids: Drawn, now: Time)
    requires Inv(s) && Next(s, s', f, Commit(ids, now))
    ensures Good(s.db, s'.db, s.issued, ids, s.flights[f].copies.loaded)
    ensures Replaces(s.db, s'.db, Transition(s.flights[f], ids, now))
  {
    if Perform(s.db, s.flights[f], ids, now).Ok? {
      PerformIsGood(s.db, s.issued, s.flights[f], ids, now, s'.db);
      PerformReplaces(s.db, s.flights[f], ids, now, s'.db);
    } else {
      UnchangedIsGood(s.db, s.issued, ids, s.flights[f].copies.loaded);
    }
  }

  lemma GoodMeans(before: Db, after: Db, issued: set<ID>, ids: Drawn, loaded: Loaded)
    requires Good(before, after, issued, ids, loaded)
    ensures (forall id :: id in before.rounds && id in after.rounds && after.rounds[id] != before.rounds[id] ==>
                            loaded.round == Some(before.rounds[id])
                            && before.rounds[id].version < after.rounds[id].version)
    ensures (forall id :: id in before.intents && id in after.intents && after.intents[id] != before.intents[id] ==>
                            loaded.intent == Some(before.intents[id])
                            && before.intents[id].version < after.intents[id].version)
    ensures (forall id :: id in before.tasks && id in after.tasks && after.tasks[id] != before.tasks[id] ==>
                            loaded.task == Some(before.tasks[id]) && before.tasks[id].version < after.tasks[id].version)
  {
  }

  /** No lost update. In every interleaving, a commit overwrites a round, an intent or a task only when the copy the
      call computed from is the stored record; what it writes is the transition it computed from that record, and has a
      strictly higher version. */
  lemma NoLostUpdate(run: seq<State>, moves: seq<(nat, Action)>, i: nat)
    requires IsRun(run, moves) && i < |moves| && moves[i].1.Commit?
    ensures var before, after := run[i].db, run[i + 1].db;
            var loaded := run[i].flights[moves[i].0].copies.loaded;
            && (forall id :: id in before.rounds && id in after.rounds && after.rounds[id] != before.rounds[id] ==>
                               loaded.round == Some(before.rounds[id])
                               && before.rounds[id].version < after.rounds[id].version)
            && (forall id :: id in before.intents && id in after.intents && after.intents[id] != before.intents[id] ==>
                               loaded.intent == Some(before.intents[id])
                               && before.intents[id].version < after.intents[id].version)
            && (forall id :: id in before.tasks && id in after.tasks && after.tasks[id] != before.tasks[id] ==>
                               loaded.task == Some(before.tasks[id])
                               && before.tasks[id].version < after.tasks[id].version)
            && Replaces(before, after, Transition(run[i].flights[moves[i].0], moves[i].1.ids, moves[i].1.now))
  {
    RunKeepsInv(run, moves, i);
    var f, ids, now := moves[i].0, moves[i].1.ids, moves[i].1.now;
    CommitIsGood(run[i], run[i + 1], f, ids, now);
    GoodMeans(run[i].db, run[i + 1].db, run[i].issued, ids, run[i].flights[f].copies.loaded);
  }
}
