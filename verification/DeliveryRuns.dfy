/** Delivery convergence in the machine of ManagerRuns: calls of every kind in flight, each with its own and perhaps old
    copies, while one round's events are delivered. */
module DeliveryRuns {
  import opened Wrappers
  import opened Domain
  import opened Events
  import opened ManagerStore
  import opened Projection
  import opened Service
  import opened Retries
  import opened ManagerRuns
  import opened ExactlyOnce
  import opened ManagerInvariants
  import opened Delivery

  // ---------------------------------------------------------------- what a commit adds

  /** The round and the task whose records a commit may extend. */
  datatype Owner = Owner(roundID: ID, taskID: ID)

  function OwnerOf(flight: Flight): Option<Owner> {
    var loaded := flight.copies.loaded;
    if flight.call.Remote? && loaded.round.Some?
       && loaded.task.Some? then Some(Owner(loaded.round.value.id, loaded.task.value.id))
    else None
  }

  ghost predicate LogsGrow(logs: seq<Log>, logs': seq<Log>, owner: Option<Owner>) {
    && logs <= logs' && |logs'| <= |logs| + 1
    && forall i :: |logs| <= i < |logs'| && logs'[i].id.OfEvent? ==>
                     owner == Some(Owner(logs'[i].id.roundID, logs'[i].taskID))
  }

  ghost predicate MessagesGrow(messages: seq<Message>, messages': seq<Message>, owner: Option<Owner>) {
    && messages <= messages' && |messages'| <= |messages| + 1
    && forall i :: |messages| <= i < |messages'| && messages'[i].id.OfEvent? ==>
                     owner == Some(Owner(messages'[i].id.roundID, messages'[i].taskID))
  }

  ghost predicate InboxGrows(inbox: Inbox, inbox': Inbox, owner: Option<Owner>) {
    forall k :: k in inbox' ==> k in inbox || (owner.Some? && owner.value.roundID == k.0)
  }

  /** Tasks and rounds stay, and rows and lines are added for the owner only. */
  ghost predicate Grows(db: Db, db': Db, owner: Option<Owner>) {
    && db.tasks.Keys <= db'.tasks.Keys && db.rounds.Keys <= db'.rounds.Keys
    && InboxGrows(db.inbox, db'.inbox, owner) && LogsGrow(db.logs, db'.logs, owner)
    && MessagesGrow(db.messages, db'.messages, owner)
  }

  lemma SameGrows(db: Db, db': Db, owner: Option<Owner>)
    requires db.tasks.Keys <= db'.tasks.Keys && db.rounds.Keys <= db'.rounds.Keys
    requires db'.inbox == db.inbox && db'.logs == db.logs && db'.messages == db.messages
    ensures Grows(db, db', owner)
  {
  }

  lemma ProjectionGrows(db: Db, loaded: Loaded, c: ProjectionCommit, db': Db, d: Disposition)
    requires Writes(loaded, c) && Adds(loaded.round.value, loaded.task.value, c)
             && CommitProjection(db, c) == Ok((db', d))
    ensures Grows(db, db', Some(Owner(loaded.round.value.id, loaded.task.value.id)))
  {
    if d.APPLIED? {
      AppliedInbox(db, c);
      ProjectedTables(db, c);
      ProjectedLines(db, c);
    } else {
      assert db' == db;
    }
  }

  lemma SilentProjectionGrows(db: Db, c: ProjectionCommit, db': Db, d: Disposition)
    requires c.inbox.None? && c.logs == [] && c.messages == [] && CommitProjection(db, c) == Ok((db', d))
    ensures Grows(db, db', None)
  {
    AppliedInbox(db, c);
    ProjectedTables(db, c);
    ProjectedLines(db, c);
    assert db.logs + [] == db.logs && db.messages + [] == db.messages;
    SameGrows(db, db', None);
  }

  lemma CommandedLines(db: Db, c: CommandCommit)
    ensures Commanded(db, c).logs == db.logs && Commanded(db, c).messages == db.messages + c.messages
  {
    assert db.logs + [] == db.logs;
  }

  lemma CommandGrows(db: Db, c: CommandCommit, db': Db)
    requires CommitCommand(db, c) == Ok(db') && |c.messages| <= 1
    requires forall i :: 0 <= i < |c.messages| ==> c.messages[i].id.OfCommand?
    ensures Grows(db, db', None)
  {
    CommandedTables(db, c);
    CommandedLines(db, c);
  }

  lemma UpdateGrows(db: Db, flight: Flight, ids: Drawn, now: Time, db': Db)
    requires (flight.call.Remote? || flight.call.FailRound?) && Perform(db, flight, ids, now) == Ok(db')
    ensures Grows(db, db', OwnerOf(flight))
  {
    var loaded := flight.copies.loaded;
    match flight.call
    case Remote(_, intentID, update) =>
      var c, d := PerformRemote(db, flight, ids, now, db');
      PlanWrites(loaded, intentID.Some?, update, now);
      PlanAdds(loaded, intentID.Some?, update, now);
      ProjectionGrows(db, loaded, c, db', d);
    case FailRound(_, intentID, code, message) =>
      SameGrows(db, db, None);
      if !(loaded.round.Some? && AlreadyFailed(loaded.round.value, code)) {
        var c := PlanFailure(loaded, intentID.Some?, code, message, now).value;
        SilentProjectionGrows(db, c, db', CommitProjection(db, c).value.1);
      }
  }

  lemma StartCommits(db: Db, flight: Flight, ids: Drawn, now: Time, db': Db) returns (c: CommandCommit)
    requires flight.call.StartCall? && Perform(db, flight, ids, now) == Ok(db')
    ensures PlanStart(flight.copies.loaded.task, flight.copies.candidate, flight.copies.loaded.worker,
                      flight.copies.list,
                      flight.call.buildable, ids, now) == Ok(c)
    ensures CommitCommand(db, c) == Ok(db')
  {
    var copies, loaded := flight.copies, flight.copies.loaded;
    c := PlanStart(loaded.task, copies.candidate, loaded.worker, copies.list, flight.call.buildable, ids, now).value;
  }

  lemma ContinueCommits(db: Db, flight: Flight, ids: Drawn, now: Time, db': Db) returns (c: CommandCommit)
    requires flight.call.ContinueCall? && Perform(db, flight, ids, now) == Ok(db')
    ensures PlanContinue(flight.copies.loaded.task, flight.copies.list, flight.copies.loaded.worker, flight.call.text,
                         flight.call.buildable, ids, now) == Ok(c)
    ensures CommitCommand(db, c) == Ok(db')
  {
    var copies, loaded, call := flight.copies, flight.copies.loaded, flight.call;
    c := PlanContinue(loaded.task, copies.list, loaded.worker, call.text, call.buildable, ids, now).value;
  }

  lemma StartSays(copies: Copies, buildable: bool, ids: Drawn, now: Time, c: CommandCommit)
    requires PlanStart(copies.loaded.task, copies.candidate, copies.loaded.worker, copies.list, buildable, ids,
                       now) == Ok(c)
    ensures c.messages == []
  {
  }

  lemma StartGrows(db: Db, flight: Flight, ids: Drawn, now: Time, db': Db)
    requires flight.call.StartCall? && Perform(db, flight, ids, now) == Ok(db')
    ensures Grows(db, db', None)
  {
    var c := StartCommits(db, flight, ids, now, db');
    StartSays(flight.copies, flight.call.buildable, ids, now, c);
    CommandGrows(db, c, db');
  }

  lemma ContinueGrows(db: Db, flight: Flight, ids: Drawn, now: Time, db': Db)
    requires flight.call.ContinueCall? && Perform(db, flight, ids, now) == Ok(db')
    ensures Grows(db, db', None)
  {
    var c := ContinueCommits(db, flight, ids, now, db');
    ContinuedGrows(flight.copies, flight.call.text, flight.call.buildable, ids, now, c, db, db');
  }

  lemma InterruptGrows(db: Db, flight: Flight, ids: Drawn, now: Time, db': Db)
    requires flight.call.InterruptCall? && Perform(db, flight, ids, now) == Ok(db')
    ensures Grows(db, db', None)
  {
    var plan := PlanInterrupt(flight.copies.loaded.task, flight.copies.list, ids, now).value;
    if plan.Some? {
      CommandGrows(db, plan.value, db');
    } else {
      SameGrows(db, db', None);
    }
  }

  lemma RespondSays(copies: Copies, response: Response, buildable: bool, ids: Drawn, now: Time, c: CommandCommit)
    requires PlanRespond(copies.loaded.interaction, copies.loaded.task, copies.loaded.worker, copies.list, response,
                         buildable, ids, now)
             == Ok(Some(c))
    ensures c.messages == []
  {
  }

  lemma ContinueSays(copies: Copies, text: string, buildable: bool, ids: Drawn, now: Time, c: CommandCommit)
    requires PlanContinue(copies.loaded.task, copies.list, copies.loaded.worker, text, buildable, ids, now) == Ok(c)
    ensures |c.messages| == 1 && c.messages[0].id.OfCommand?
  {
  }

  lemma ContinuedGrows(copies: Copies, text: string, buildable: bool, ids: Drawn, now: Time, c: CommandCommit, db: Db,
                       db': Db)
    requires PlanContinue(copies.loaded.task, copies.list, copies.loaded.worker, text, buildable, ids, now) == Ok(c)
    requires CommitCommand(db, c) == Ok(db')
    ensures Grows(db, db', None)
  {
    ContinueSays(copies, text, buildable, ids, now, c);
    CommandGrows(db, c, db');
  }

  lemma RespondCommits(db: Db, flight: Flight, ids: Drawn, now: Time, db': Db) returns (c: Option<CommandCommit>)
    requires flight.call.RespondCall? && Perform(db, flight, ids, now) == Ok(db')
    ensures PlanRespond(flight.copies.loaded.interaction, flight.copies.loaded.task, flight.copies.loaded.worker,
                        flight.copies.list,
                        flight.call.response, flight.call.buildable, ids, now) == Ok(c)
    ensures if c.Some? then CommitCommand(db, c.value) == Ok(db') else db' == db
  {
    var copies, loaded, call := flight.copies, flight.copies.loaded, flight.call;
    c := PlanRespond(loaded.interaction, loaded.task, loaded.worker, copies.list, call.response, call.buildable, ids,
                     now).value;
  }

  lemma RespondGrows(db: Db, flight: Flight, ids: Drawn, now: Time, db': Db)
    requires flight.call.RespondCall? && Perform(db, flight, ids, now) == Ok(db')
    ensures Grows(db, db', None)
  {
    var c := RespondCommits(db, flight, ids, now, db');
    if c.Some? {
      RespondSays(flight.copies, flight.call.response, flight.call.buildable, ids, now, c.value);
      CommandGrows(db, c.value, db');
    } else {
      SameGrows(db, db', None);
    }
  }

  lemma MigratedLines(db: Db, task: Task, expectedTask: nat, worker: Option<Worker>, expected: nat, db': Db,
                      applied: bool)
    requires CommitMigration(db, task, expectedTask, worker, expected) == Ok((db', applied))
    ensures Grows(db, db', None)
  {
    assert db.logs + [] == db.logs && db.messages + [] == db.messages;
    SameGrows(db, db', None);
  }

  lemma ClaimGrows(db: Db, flight: Flight, ids: Drawn, now: Time, db': Db)
    requires flight.call.ClaimCall? && Perform(db, flight, ids, now) == Ok(db')
    ensures Grows(db, db', None)
  {
    var intent := flight.copies.loaded.intent.value;
    assert db' == PutIntent(db, Some(intent.StartAttempt(now).value));
    SameGrows(db, db', None);
  }

  lemma VerdictGrows(db: Db, loaded: Loaded, verdict: Verdict, db': Db)
    requires PerformVerdict(db, loaded, verdict) == Ok(db')
    ensures Grows(db, db', None)
  {
    SameGrows(db, db', None);
  }

  lemma FailureCommits(db: Db, flight: Flight, ids: Drawn, now: Time, db': Db) returns (verdict: Verdict)
    requires flight.call.NetworkFailureCall? && Perform(db, flight, ids, now) == Ok(db')
    ensures flight.copies.loaded.round.Some?
    ensures OnNetworkFailure(flight.copies.loaded.round.value, flight.copies.loaded.intent, flight.call.acknowledged,
                             now) == Ok(verdict)
    ensures PerformVerdict(db, flight.copies.loaded, verdict) == Ok(db')
  {
    var loaded := flight.copies.loaded;
    verdict := OnNetworkFailure(loaded.round.value, loaded.intent, flight.call.acknowledged, now).value;
  }

  lemma NetworkFailureGrows(db: Db, flight: Flight, ids: Drawn, now: Time, db': Db)
    requires flight.call.NetworkFailureCall? && Perform(db, flight, ids, now) == Ok(db')
    ensures Grows(db, db', None)
  {
    var verdict := FailureCommits(db, flight, ids, now, db');
    VerdictGrows(db, flight.copies.loaded, verdict, db');
  }

  lemma MigrateGrows(db: Db, flight: Flight, ids: Drawn, now: Time, db': Db)
    requires flight.call.MigrateCall? && Perform(db, flight, ids, now) == Ok(db')
    ensures Grows(db, db', None)
  {
    var copies, loaded := flight.copies, flight.copies.loaded;
    var plan := PlanMigration(loaded.task, copies.list, loaded.worker, now).value;
    if plan.Some? {
      var expected := if loaded.worker.Some? then loaded.worker.value.version else 0;
      var done := CommitMigration(db, plan.value.0, loaded.task.value.version, plan.value.1, expected).value;
      MigratedLines(db, plan.value.0, loaded.task.value.version, plan.value.1, expected, db', done.1);
    } else {
      SameGrows(db, db', None);
    }
  }

  /** Only a remote update adds inbox rows and lines of a round, and only for the round and the task it read. */
  lemma PerformGrows(db: Db, flight: Flight, ids: Drawn, now: Time, db': Db)
    requires Perform(db, flight, ids, now) == Ok(db')
    ensures Grows(db, db', OwnerOf(flight))
  {
    match flight.call
    case Remote(_, _, _) => UpdateGrows(db, flight, ids, now, db');
    case FailRound(_, _, _, _) => UpdateGrows(db, flight, ids, now, db');
    case StartCall(_, _) => StartGrows(db, flight, ids, now, db');
    case ContinueCall(_, _, _) => ContinueGrows(db, flight, ids, now, db');
    case InterruptCall(_) => InterruptGrows(db, flight, ids, now, db');
    case RespondCall(_, _, _) => RespondGrows(db, flight, ids, now, db');
    case ClaimCall(_) => ClaimGrows(db, flight, ids, now, db');
    case NetworkFailureCall(_, _, _) => NetworkFailureGrows(db, flight, ids, now, db');
    case MigrateCall(_) => MigrateGrows(db, flight, ids, now, db');
  }

  // ---------------------------------------------------------------- a call reads what belongs together

  /** The round is the one the call names, and the task is the round's. */
  ghost predicate Linked(flight: Flight) {
    var loaded := flight.copies.loaded;
    && (loaded.round.Some? ==> RoundOf(flight.call) == Some(loaded.round.value.id))
    && (loaded.round.Some? && loaded.task.Some? ==> loaded.task.value.id == loaded.round.value.taskID)
  }

  lemma LoadsLink(db: Db, issued: set<ID>, flight: Flight, load: Load, copies: Copies)
    requires Sound(db, issued) && Linked(flight) && Loads(db, flight, load, copies)
    ensures Linked(flight.(copies := copies))
  {
  }

  // ---------------------------------------------------------------- lines have an owner

  /** Logs and messages of events belong to a stored round, and carry its task. */
  ghost predicate LogsOwned(logs: seq<Log>, rounds: map<ID, Round>) {
    forall i :: 0 <= i < |logs| && logs[i].id.OfEvent? ==>
                  logs[i].id.roundID in rounds && rounds[logs[i].id.roundID].taskID == logs[i].taskID
  }

  ghost predicate MessagesOwned(messages: seq<Message>, rounds: map<ID, Round>) {
    forall i :: 0 <= i < |messages| && messages[i].id.OfEvent? ==>
                  messages[i].id.roundID in rounds && rounds[messages[i].id.roundID].taskID == messages[i].taskID
  }

  ghost predicate LinesOwned(db: Db) {
    LogsOwned(db.logs, db.rounds) && MessagesOwned(db.messages, db.rounds)
  }

  /** Rounds stay, with their task. */
  ghost predicate RoundsStay(rounds: map<ID, Round>, rounds': map<ID, Round>) {
    forall id :: id in rounds ==> id in rounds' && rounds'[id].taskID == rounds[id].taskID
  }

  lemma GrownLinesAreOwned(db: Db, db': Db, owner: Option<Owner>)
    requires LinesOwned(db) && Grows(db, db', owner) && RoundsStay(db.rounds, db'.rounds)
    requires owner.Some? && (|db.logs| < |db'.logs| || |db.messages| < |db'.messages|) ==>
               owner.value.roundID in db'.rounds && db'.rounds[owner.value.roundID].taskID == owner.value.taskID
    ensures LinesOwned(db')
  {
    forall i | 0 <= i < |db'.logs| && db'.logs[i].id.OfEvent?
      ensures db'.logs[i].id.roundID in db'.rounds && db'.rounds[db'.logs[i].id.roundID].taskID == db'.logs[i].taskID
    {
      if i < |db.logs| {
        assert db'.logs[i] == db.logs[i];
      }
    }
    forall i | 0 <= i < |db'.messages| && db'.messages[i].id.OfEvent?
      ensures db'.messages[i].id.roundID in db'.rounds
              && db'.rounds[db'.messages[i].id.roundID].taskID == db'.messages[i].taskID
    {
      if i < |db.messages| {
        assert db'.messages[i] == db.messages[i];
      }
    }
  }

  lemma {:induction false} LogsWithoutOwned(logs: seq<Log>, rounds: map<ID, Round>, rounds': map<ID, Round>, taskID: ID)
    requires LogsOwned(logs, rounds) && forall id :: id in rounds && rounds[id].taskID != taskID ==>
                                                       id in rounds' && rounds'[id] == rounds[id]
    ensures LogsOwned(LogsWithout(logs, taskID), rounds')
  {
    if logs != [] {
      assert LogsOwned(logs[1..], rounds) by {
        assert forall i :: 0 <= i < |logs[1..]| ==> logs[1..][i] == logs[i + 1];
      }
      LogsWithoutOwned(logs[1..], rounds, rounds', taskID);
      assert logs[0].id.OfEvent? ==> logs[0].id.roundID in rounds;
    }
  }

  lemma {:induction false} MessagesWithoutOwned(messages: seq<Message>, rounds: map<ID, Round>, rounds': map<ID, Round>,
                                                taskID: ID)
    requires MessagesOwned(messages, rounds)
    requires forall id :: id in rounds && rounds[id].taskID != taskID ==> id in rounds' && rounds'[id] == rounds[id]
    ensures MessagesOwned(MessagesWithout(messages, taskID), rounds')
  {
    if messages != [] {
      assert MessagesOwned(messages[1..], rounds) by {
        assert forall i :: 0 <= i < |messages[1..]| ==> messages[1..][i] == messages[i + 1];
      }
      MessagesWithoutOwned(messages[1..], rounds, rounds', taskID);
      assert messages[0].id.OfEvent? ==> messages[0].id.roundID in rounds;
    }
  }

  // ---------------------------------------------------------------- over runs

  ghost predicate Tidy(s: State) {
    Inv(s) && LinesOwned(s.db) && forall f :: f in s.flights ==> Linked(s.flights[f])
  }

  lemma ForwardStays(db: Db, db': Db, issued: set<ID>)
    requires Forward(db, db', issued) && db.rounds.Keys <= db'.rounds.Keys
    ensures RoundsStay(db.rounds, db'.rounds)
  {
  }

  /** A remote update writes nothing, or what it read is what the store holds. */
  lemma RemoteIsCurrent(db: Db, issued: set<ID>, flight: Flight, ids: Drawn, now: Time, db': Db)
    returns (c: ProjectionCommit, d: Disposition)
    requires CopiesOK(db, issued, flight.copies) && flight.call.Remote? && Perform(db, flight, ids, now) == Ok(db')
    ensures Plan(flight.copies.loaded, flight.call.intentID.Some?, flight.call.update, now) == Ok(c)
    ensures CommitProjection(db, c) == Ok((db', d))
    ensures if d.APPLIED? then Current(db, flight.copies.loaded, c) else db' == db
  {
    c, d := PerformRemote(db, flight, ids, now, db');
    PlanWrites(flight.copies.loaded, flight.call.intentID.Some?, flight.call.update, now);
    if d.APPLIED? {
      AppliedIsCurrent(db, issued, flight.copies, c);
    }
  }

  lemma CommitKeepsOwned(s: State, flight: Flight, ids: Drawn, now: Time, db': Db)
    requires Inv(s) && LinesOwned(s.db) && Linked(flight) && CopiesOK(s.db, s.issued, flight.copies)
    requires Perform(s.db, flight, ids, now) == Ok(db') && Forward(s.db, db', s.issued)
    ensures LinesOwned(db')
  {
    PerformGrows(s.db, flight, ids, now, db');
    ForwardStays(s.db, db', s.issued);
    if flight.call.Remote? {
      var c, d := RemoteIsCurrent(s.db, s.issued, flight, ids, now, db');
    }
    GrownLinesAreOwned(s.db, db', OwnerOf(flight));
  }

  lemma DirectKeepsOwned(db: Db, op: Direct, now: Time, db': Db)
    requires LinesOwned(db) && PerformDirect(db, op, now) == Ok(db')
    ensures LinesOwned(db')
  {
    if op.DoDelete? {
      LogsWithoutOwned(db.logs, db.rounds, db'.rounds, op.taskID);
      MessagesWithoutOwned(db.messages, db.rounds, db'.rounds, op.taskID);
    } else {
      DirectLeavesRounds(db, op, now, db');
    }
  }

  lemma DirectLeavesRounds(db: Db, op: Direct, now: Time, db': Db)
    requires !op.DoDelete? && PerformDirect(db, op, now) == Ok(db')
    ensures LeavesRounds(db, db')
  {
  }

  lemma NextKeepsTidy(s: State, s': State, f: nat, action: Action)
    requires Tidy(s) && Next(s, s', f, action)
    ensures Tidy(s')
  {
    NextKeepsInv(s, s', f, action);
    match action
    case Begin(_) =>
    case Fetch(load, copies) => LoadsLink(s.db, s.issued, s.flights[f], load, copies);
    case Commit(ids, now) =>
      if Perform(s.db, s.flights[f], ids, now).Ok? {
        NextMoves(s, s', f, action);
        CommitKeepsOwned(s, s.flights[f], ids, now, s'.db);
      }
    case Do(op, now) =>
      if PerformDirect(s.db, op, now).Ok? {
        DirectKeepsOwned(s.db, op, now, s'.db);
      }
  }

  lemma {:induction false} RunIsTidy(run: seq<State>, moves: seq<(nat, Action)>, i: nat)
    requires IsRun(run, moves) && LinesOwned(run[0].db) && i < |run|
    ensures Tidy(run[i])
  {
    RunKeepsInv(run, moves, i);
    if i > 0 {
      RunIsTidy(run, moves, i - 1);
      NextKeepsTidy(run[i - 1], run[i], moves[i - 1].0, moves[i - 1].1);
    }
  }

  // ---------------------------------------------------------------- the other calls leave the round alone

  lemma GrownElsewhere(db: Db, db': Db, owner: Option<Owner>, roundID: ID)
    requires Grows(db, db', owner) && (owner.Some? ==> owner.value.roundID != roundID)
    ensures LogsOf(db'.logs, roundID) == LogsOf(db.logs, roundID)
    ensures MessagesOf(db'.messages, roundID) == MessagesOf(db.messages, roundID)
    ensures forall k :: k in db'.inbox && k.0 == roundID ==> k in db.inbox
  {
    var logs, messages := db'.logs[|db.logs|..], db'.messages[|db.messages|..];
    assert db'.logs == db.logs + logs && db'.messages == db.messages + messages;
    LogsOfAppend(db.logs, logs, roundID);
    MessagesOfAppend(db.messages, messages, roundID);
    NotOwnLogs(logs, owner, roundID);
    NotOwnMessages(messages, owner, roundID);
  }

  lemma NotOwnLogs(logs: seq<Log>, owner: Option<Owner>, roundID: ID)
    requires |logs| <= 1 && (owner.Some? ==> owner.value.roundID != roundID)
    requires forall i :: 0 <= i < |logs| && logs[i].id.OfEvent? ==>
                           owner == Some(Owner(logs[i].id.roundID, logs[i].taskID))
    ensures LogsOf(logs, roundID) == []
  {
    if logs != [] {
      assert logs[..0] == [];
    }
  }

  lemma NotOwnMessages(messages: seq<Message>, owner: Option<Owner>, roundID: ID)
    requires |messages| <= 1 && (owner.Some? ==> owner.value.roundID != roundID)
    requires forall i :: 0 <= i < |messages| && messages[i].id.OfEvent? ==>
                           owner == Some(Owner(messages[i].id.roundID, messages[i].taskID))
    ensures MessagesOf(messages, roundID) == []
  {
    if messages != [] {
      assert messages[..0] == [];
    }
  }

  /** A round with the same position and diagnosis. */
  predicate SamePosition(a: Round, b: Round) {
    && a.SameIdentity(b) && b.lastSequence == a.lastSequence && b.remoteStatus == a.remoteStatus
    && DiagnosisOf(b) == DiagnosisOf(a)
  }

  lemma FailureKeepsPosition(round: Round, intent: Option<Intent>, acknowledged: bool, now: Time)
    requires OnNetworkFailure(round, intent, acknowledged, now).Ok?
    ensures match OnNetworkFailure(round, intent, acknowledged, now).value
            case GiveUp => true
            case RetryLater(r, _) => SamePosition(round, r)
            case Note(r) => SamePosition(round, r)
  {
  }

  /** The call delivers to the round, or fails it. */
  predicate Addresses(call: Call, roundID: ID) {
    (call.Remote? || call.FailRound?) && call.roundID == roundID
  }

  lemma OtherCommitKeepsRound(s: State, flight: Flight, ids: Drawn, now: Time, db': Db, id: ID)
    requires Sound(s.db, s.issued) && Linked(flight) && Perform(s.db, flight, ids, now) == Ok(db')
    requires Good(s.db, db', s.issued, ids, flight.copies.loaded) && Replaces(s.db, db', Transition(flight, ids, now))
    requires id in s.db.rounds && id in db'.rounds && !Addresses(flight.call, id)
    ensures SamePosition(s.db.rounds[id], db'.rounds[id])
  {
    if db'.rounds[id] != s.db.rounds[id] {
      var loaded := flight.copies.loaded;
      assert loaded.round == Some(s.db.rounds[id]);
      assert RoundOf(flight.call) == Some(id);
      FailureKeepsPosition(loaded.round.value, loaded.intent, flight.call.acknowledged, now);
    }
  }

  lemma OtherCommitIsUntouched(s: State, flight: Flight, ids: Drawn, now: Time, db': Db, o: Origin)
    requires Inv(s) && Linked(flight) && Perform(s.db, flight, ids, now) == Ok(db')
    requires Good(s.db, db', s.issued, ids, flight.copies.loaded) && Replaces(s.db, db', Transition(flight, ids, now))
    requires o.roundID in s.db.rounds && o.taskID in s.db.tasks && !Addresses(flight.call, o.roundID)
    ensures RoundUntouched(s.db, db', o)
  {
    PerformGrows(s.db, flight, ids, now, db');
    GrownElsewhere(s.db, db', OwnerOf(flight), o.roundID);
    OtherCommitKeepsRound(s, flight, ids, now, db', o.roundID);
    assert o.taskID in db'.tasks;
  }

  lemma {:induction false} LogsOfConcat(a: seq<Log>, b: seq<Log>, roundID: ID)
    ensures LogsOf(a + b, roundID) == LogsOf(a, roundID) + LogsOf(b, roundID)
    decreases |b|
  {
    if b == [] {
      assert a + b == a;
    } else {
      LogsOfConcat(a, b[..|b| - 1], roundID);
      assert (a + b)[..|a + b| - 1] == a + b[..|b| - 1];
    }
  }

  lemma {:induction false} MessagesOfConcat(a: seq<Message>, b: seq<Message>, roundID: ID)
    ensures MessagesOf(a + b, roundID) == MessagesOf(a, roundID) + MessagesOf(b, roundID)
    decreases |b|
  {
    if b == [] {
      assert a + b == a;
    } else {
      MessagesOfConcat(a, b[..|b| - 1], roundID);
      assert (a + b)[..|a + b| - 1] == a + b[..|b| - 1];
    }
  }

  lemma {:induction false} LogsWithoutKeeps(logs: seq<Log>, taskID: ID, roundID: ID)
    requires forall i :: 0 <= i < |logs| && logs[i].id.OfEvent? && logs[i].id.roundID == roundID ==>
                           logs[i].taskID != taskID
    ensures LogsOf(LogsWithout(logs, taskID), roundID) == LogsOf(logs, roundID)
    decreases |logs|
  {
    if logs != [] {
      assert forall i :: 0 <= i < |logs[1..]| ==> logs[1..][i] == logs[i + 1];
      LogsWithoutKeeps(logs[1..], taskID, roundID);
      var first := if logs[0].taskID == taskID then [] else [logs[0]];
      LogsOfConcat(first, LogsWithout(logs[1..], taskID), roundID);
      assert logs == [logs[0]] + logs[1..];
      LogsOfConcat([logs[0]], logs[1..], roundID);
      assert [logs[0]][..0] == [];
    }
  }

  lemma {:induction false} MessagesWithoutKeeps(messages: seq<Message>, taskID: ID, roundID: ID)
    requires forall i :: 0 <= i < |messages| && messages[i].id.OfEvent? && messages[i].id.roundID == roundID ==>
                           messages[i].taskID != taskID
    ensures MessagesOf(MessagesWithout(messages, taskID), roundID) == MessagesOf(messages, roundID)
    decreases |messages|
  {
    if messages != [] {
      assert forall i :: 0 <= i < |messages[1..]| ==> messages[1..][i] == messages[i + 1];
      MessagesWithoutKeeps(messages[1..], taskID, roundID);
      var first := if messages[0].taskID == taskID then [] else [messages[0]];
      MessagesOfConcat(first, MessagesWithout(messages[1..], taskID), roundID);
      assert messages == [messages[0]] + messages[1..];
      MessagesOfConcat([messages[0]], messages[1..], roundID);
      assert [messages[0]][..0] == [];
    }
  }

  lemma RowsSurvive(db: Db, taskID: ID, roundID: ID)
    requires InboxSound(db.inbox, db.rounds) && Owned(db.rounds) && roundID in db.rounds
             && db.rounds[roundID].taskID != taskID
    ensures forall k :: k in db.inbox && k.0 == roundID ==> !RowDeleted(db.rounds, taskID, db.inbox[k])
  {
  }

  /** Deleting another task leaves the round alone. */
  lemma DeleteIsUntouched(db: Db, issued: set<ID>, taskID: ID, o: Origin)
    requires Sound(db, issued) && LinesOwned(db) && DeleteTask(db, taskID).Ok? && taskID != o.taskID
    requires o.roundID in db.rounds && db.rounds[o.roundID].taskID == o.taskID && o.taskID in db.tasks
    ensures RoundUntouched(db, DeleteTask(db, taskID).value, o)
  {
    RowsSurvive(db, taskID, o.roundID);
    LogsWithoutKeeps(db.logs, taskID, o.roundID);
    MessagesWithoutKeeps(db.messages, taskID, o.roundID);
  }

  lemma DirectIsUntouched(db: Db, issued: set<ID>, op: Direct, now: Time, db': Db, o: Origin)
    requires Sound(db, issued) && LinesOwned(db) && PerformDirect(db, op, now) == Ok(db') && op != DoDelete(o.taskID)
    requires op.DoCreate? ==> op.id !in issued
    requires o.roundID in db.rounds && db.rounds[o.roundID].taskID == o.taskID && o.taskID in db.tasks
    ensures RoundUntouched(db, db', o)
  {
    if op.DoDelete? {
      DeleteIsUntouched(db, issued, op.taskID, o);
    } else {
      DirectLeavesRounds(db, op, now, db');
      DirectKeepsTasks(db, op, now, db');
      DirectMoves(db, op, now, issued, db');
    }
  }

  lemma DirectKeepsTasks(db: Db, op: Direct, now: Time, db': Db)
    requires !op.DoDelete? && PerformDirect(db, op, now) == Ok(db')
    ensures db.tasks.Keys <= db'.tasks.Keys
  {
  }

  // ---------------------------------------------------------------- deliveries to the round

  /** What was read for a delivery is the round and the task of the origin. */
  lemma DeliveryReads(s: State, flight: Flight, c: ProjectionCommit, o: Origin)
    requires Linked(flight) && flight.call.Remote? && flight.call.roundID == o.roundID
    requires Current(s.db, flight.copies.loaded, c) && Writes(flight.copies.loaded, c)
    requires o.roundID in s.db.rounds && s.db.rounds[o.roundID].taskID == o.taskID && o.taskID in s.db.tasks
    ensures flight.copies.loaded.round == Some(s.db.rounds[o.roundID])
            && flight.copies.loaded.task == Some(s.db.tasks[o.taskID])
  {
  }

  /** One delivery adds at most the delivered event to the history. */
  lemma DeliveryIsFaithful(s: State, flight: Flight, ids: Drawn, now: Time, db': Db, o: Origin, h: seq<Entry>)
    returns (h': seq<Entry>)
    requires Linked(flight) && CopiesOK(s.db, s.issued, flight.copies) && Perform(s.db, flight, ids, now) == Ok(db')
    requires flight.call.Remote? && flight.call.roundID == o.roundID && Faithful(s.db, o, h)
    ensures Faithful(db', o, h')
    ensures h' == h || (flight.call.update.event.Some? && h' == h + [Came(flight.call.update.event.value)])
  {
    var loaded, update, dispatched := flight.copies.loaded, flight.call.update, flight.call.intentID.Some?;
    var c, d := RemoteIsCurrent(s.db, s.issued, flight, ids, now, db');
    h' := h;
    if d.APPLIED? {
      PlanWrites(loaded, dispatched, update, now);
      PlanAdds(loaded, dispatched, update, now);
      PlanRecordsItsEvent(loaded, dispatched, update, now);
      DeliveryReads(s, flight, c, o);
      CommittedIsFaithful(s.db, db', o, h, loaded, c);
      h' := After(h, c.inbox);
    }
  }

  // ---------------------------------------------------------------- the Manager fails the round

  lemma FailureCurrent(db: Db, issued: set<ID>, flight: Flight, ids: Drawn, now: Time, db': Db)
    returns (c: ProjectionCommit)
    requires CopiesOK(db, issued, flight.copies) && flight.call.FailRound? && Perform(db, flight, ids, now) == Ok(db')
    requires !(flight.copies.loaded.round.Some? && AlreadyFailed(flight.copies.loaded.round.value, flight.call.code))
    ensures PlanFailure(flight.copies.loaded, flight.call.intentID.Some?, flight.call.code, flight.call.message,
                        now) == Ok(c)
    ensures CommitProjection(db, c) == Ok((db', APPLIED)) && Current(db, flight.copies.loaded, c)
  {
    var loaded, dispatched := flight.copies.loaded, flight.call.intentID.Some?;
    var code, message := flight.call.code, flight.call.message;
    c := PlanFailure(loaded, dispatched, code, message, now).value;
    FailureApplied(db, loaded, dispatched, code, message, now);
    PlanFailureWrites(loaded, dispatched, code, message, now);
    AppliedIsCurrent(db, issued, flight.copies, c);
  }

  /** A failure leaves the cursor and the lines alone and rules the diagnosis. */
  lemma FailureRules(loaded: Loaded, dispatched: bool, code: string, message: string, now: Time, c: ProjectionCommit)
    requires PlanFailure(loaded, dispatched, code, message, now) == Ok(c)
    ensures loaded.round.Some? && loaded.task.Some? && loaded.round.value.SameIdentity(c.round)
    ensures c.round.lastSequence == loaded.round.value.lastSequence && c.task.id == loaded.task.value.id
    ensures DiagnosisOf(c.round) == Heed(DiagnosisOf(loaded.round.value), Ruled(code, message))
    ensures c.inbox.None? && c.logs == [] && c.messages == []
  {
  }

  lemma RuledIsFaithful(db: Db, db': Db, o: Origin, h: seq<Entry>, c: ProjectionCommit, entry: Entry)
    requires Faithful(db, o, h) && entry.Ruled? && c.round.id == o.roundID && c.task.id == o.taskID
    requires db.rounds[o.roundID].SameIdentity(c.round) && c.round.lastSequence == db.rounds[o.roundID].lastSequence
    requires DiagnosisOf(c.round) == Heed(DiagnosisOf(db.rounds[o.roundID]), entry)
    requires db'.rounds == db.rounds[c.round.id := c.round] && db'.tasks == db.tasks[c.task.id := c.task]
    requires db'.inbox == db.inbox && db'.logs == db.logs && db'.messages == db.messages
    ensures Faithful(db', o, h + [entry])
  {
    FoldSnoc(o, h, entry);
    assert EventsOf(h + [entry]) == EventsOf(h);
  }

  lemma SilentTables(db: Db, c: ProjectionCommit, db': Db)
    requires c.inbox.None? && c.logs == [] && c.messages == [] && CommitProjection(db, c) == Ok((db', APPLIED))
    ensures db'.rounds == db.rounds[c.round.id := c.round] && db'.tasks == db.tasks[c.task.id := c.task]
    ensures db'.inbox == db.inbox && db'.logs == db.logs && db'.messages == db.messages
  {
    AppliedInbox(db, c);
    ProjectedTables(db, c);
    ProjectedLines(db, c);
    assert db.logs + [] == db.logs && db.messages + [] == db.messages;
  }

  /** A failure of the round adds a ruling to its history, and nothing when the round had failed so. */
  lemma FailureIsFaithful(s: State, flight: Flight, ids: Drawn, now: Time, db': Db, o: Origin, h: seq<Entry>)
    returns (h': seq<Entry>)
    requires Linked(flight) && CopiesOK(s.db, s.issued, flight.copies) && Perform(s.db, flight, ids, now) == Ok(db')
    requires flight.call.FailRound? && flight.call.roundID == o.roundID && Faithful(s.db, o, h)
    ensures Faithful(db', o, h') && (h' == h || h' == h + [Ruled(flight.call.code, flight.call.message)])
  {
    var loaded, call := flight.copies.loaded, flight.call;
    h' := h;
    if !(loaded.round.Some? && AlreadyFailed(loaded.round.value, call.code)) {
      var c := FailureCurrent(s.db, s.issued, flight, ids, now, db');
      FailureRules(loaded, call.intentID.Some?, call.code, call.message, now, c);
      SilentTables(s.db, c, db');
      RuledIsFaithful(s.db, db', o, h, c, Ruled(call.code, call.message));
      h' := h + [Ruled(call.code, call.message)];
    }
  }

  // ---------------------------------------------------------------- the opening of a round

  const UNDIAGNOSED := Diagnosis("", "", false)

  /** The commit creates the round for a task that starts. */
  ghost predicate Launched(c: CommandCommit, ids: Drawn) {
    && c.createRound && c.round.id == ids.round && c.round.taskID == c.task.id && c.task.status.STARTING?
    && !c.round.remoteStatus.Terminal() && DiagnosisOf(c.round) == UNDIAGNOSED
    && |c.messages| <= 1 && forall i :: 0 <= i < |c.messages| ==> c.messages[i].id.OfCommand?
  }

  lemma StartIsLaunched(copies: Copies, buildable: bool, ids: Drawn, now: Time, c: CommandCommit)
    requires PlanStart(copies.loaded.task, copies.candidate, copies.loaded.worker, copies.list, buildable, ids,
                       now) == Ok(c)
    ensures Launched(c, ids)
  {
  }

  lemma ContinueIsLaunched(copies: Copies, text: string, buildable: bool, ids: Drawn, now: Time, c: CommandCommit)
    requires PlanContinue(copies.loaded.task, copies.list, copies.loaded.worker, text, buildable, ids, now) == Ok(c)
    ensures Launched(c, ids)
  {
  }

  lemma {:induction false} NoLogsYet(logs: seq<Log>, rounds: map<ID, Round>, roundID: ID)
    requires LogsOwned(logs, rounds) && roundID !in rounds
    ensures LogsOf(logs, roundID) == []
    decreases |logs|
  {
    if logs != [] {
      NoLogsYet(logs[..|logs| - 1], rounds, roundID);
    }
  }

  lemma {:induction false} NoMessagesYet(messages: seq<Message>, rounds: map<ID, Round>, roundID: ID)
    requires MessagesOwned(messages, rounds) && roundID !in rounds
    ensures MessagesOf(messages, roundID) == []
    decreases |messages|
  {
    if messages != [] {
      NoMessagesYet(messages[..|messages| - 1], rounds, roundID);
    }
  }

  function OriginOf(c: CommandCommit): Origin {
    Origin(c.round.id, c.round.taskID, c.round.lastSequence, UNDIAGNOSED)
  }

  lemma LaunchTables(db: Db, c: CommandCommit, db': Db)
    requires CommitCommand(db, c) == Ok(db') && c.createRound
    ensures c.round.id !in db.rounds && db'.rounds == db.rounds[c.round.id := c.round]
            && db'.tasks == db.tasks[c.task.id := c.task]
    ensures db'.inbox == db.inbox
  {
    CommandedTables(db, c);
  }

  lemma NothingRecorded(inbox: Inbox, rounds: map<ID, Round>, o: Origin)
    requires InboxSound(inbox, rounds) && o.roundID !in rounds
    ensures Recorded(inbox, o, [])
  {
  }

  lemma NoLinesYet(db: Db, db': Db, roundID: ID)
    requires LinesOwned(db) && Grows(db, db', None) && roundID !in db.rounds
    ensures LogsOf(db'.logs, roundID) == [] && MessagesOf(db'.messages, roundID) == []
  {
    GrownElsewhere(db, db', None, roundID);
    NoLogsYet(db.logs, db.rounds, roundID);
    NoMessagesYet(db.messages, db.rounds, roundID);
  }

  lemma NewRoundIsFaithful(db': Db, o: Origin)
    requires o.roundID in db'.rounds && db'.rounds[o.roundID].id == o.roundID
             && db'.rounds[o.roundID].taskID == o.taskID
    requires o.taskID in db'.tasks && db'.tasks[o.taskID].id == o.taskID && db'.rounds[o.roundID].lastSequence == o.base
    requires DiagnosisOf(db'.rounds[o.roundID]) == o.d && Recorded(db'.inbox, o, [])
    requires LogsOf(db'.logs, o.roundID) == [] && MessagesOf(db'.messages, o.roundID) == []
    ensures Faithful(db', o, [])
  {
  }

  lemma NewRoundIsOpened(db: Db, db': Db, c: CommandCommit, ids: Drawn)
    requires InboxSound(db.inbox, db.rounds) && LinesOwned(db) && Launched(c, ids) && Grows(db, db', None)
    requires c.round.id !in db.rounds && db'.rounds == db.rounds[c.round.id := c.round]
             && db'.tasks == db.tasks[c.task.id := c.task]
    requires db'.inbox == db.inbox
    ensures Opened(db', OriginOf(c))
  {
    NoLinesYet(db, db', c.round.id);
    NothingRecorded(db.inbox, db.rounds, OriginOf(c));
    NewRoundIsFaithful(db', OriginOf(c));
  }

  /** A committed START, RETRY or CONTINUE leaves its round open, with nothing recorded and an active task. */
  lemma LaunchOpens(db: Db, issued: set<ID>, c: CommandCommit, ids: Drawn, db': Db)
    requires Sound(db, issued) && LinesOwned(db) && Launched(c, ids) && CommitCommand(db, c) == Ok(db')
    ensures Opened(db', OriginOf(c))
  {
    LaunchTables(db, c, db');
    CommandGrows(db, c, db');
    NewRoundIsOpened(db, db', c, ids);
  }

  // ---------------------------------------------------------------- the other calls leave the task's status alone

  predicate HasRead(flight: Flight, taskID: ID) {
    flight.copies.loaded.task.Some? && flight.copies.loaded.task.value.id == taskID
  }

  /** The call ends the task for another round, fails one of its rounds, or starts it again. */
  predicate MovesOn(flight: Flight, o: Origin) {
    && HasRead(flight, o.taskID)
    && match flight.call
       case Remote(roundID, _, update) => roundID != o.roundID && update.status.Terminal()
       case FailRound(_, _, _, _) => true
       case StartCall(_, _) => true
       case ContinueCall(_, _, _) => true
       case _ => false
  }

  /** One task replaced by the other keeps its status, or stays active. */
  predicate SameLife(task: Task, task': Task) {
    task'.status == task.status || (task.status.Active() && task'.status.Active())
  }

  lemma RemoteKeepsLife(flight: Flight, ids: Drawn, now: Time, task': Task)
    requires flight.call.Remote? && !flight.call.update.status.Terminal()
             && Transition(flight, ids, now).task == Some(task')
    ensures flight.copies.loaded.task.Some? && SameLife(flight.copies.loaded.task.value, task')
  {
    PlanIsPlanned(flight.copies.loaded, flight.call.intentID.Some?, flight.call.update, now);
  }

  lemma InterruptKeepsLife(flight: Flight, ids: Drawn, now: Time, task': Task)
    requires flight.call.InterruptCall? && Transition(flight, ids, now).task == Some(task')
    ensures flight.copies.loaded.task.Some? && SameLife(flight.copies.loaded.task.value, task')
  {
    InterruptSteers(flight.copies, ids, now);
  }

  lemma RespondKeepsLife(flight: Flight, ids: Drawn, now: Time, task': Task)
    requires flight.call.RespondCall? && Transition(flight, ids, now).task == Some(task')
    ensures flight.copies.loaded.task.Some? && SameLife(flight.copies.loaded.task.value, task')
  {
    RespondSteers(flight.copies, flight.call.response, flight.call.buildable, ids, now);
  }

  lemma MigrationSkips(db: Db, flight: Flight, ids: Drawn, now: Time, db': Db, taskID: ID)
    requires flight.call.MigrateCall? && Perform(db, flight, ids, now) == Ok(db') && HasRound(db.rounds, taskID)
             && HasRead(flight, taskID)
    ensures db' == db
  {
  }

  lemma OtherCommitKeepsStatus(s: State, flight: Flight, ids: Drawn, now: Time, db': Db, o: Origin)
    requires Sound(s.db, s.issued) && Perform(s.db, flight, ids, now) == Ok(db')
    requires NothingLost(s.db, db', flight.copies.loaded) && Replaces(s.db, db', Transition(flight, ids, now))
    requires o.taskID in s.db.tasks && o.taskID in db'.tasks && HasRound(s.db.rounds, o.taskID)
    requires !MovesOn(flight, o) && !Addresses(flight.call, o.roundID)
    ensures StatusUntouched(s.db, db', o.taskID)
  {
    if db'.tasks[o.taskID] != s.db.tasks[o.taskID] {
      var task' := db'.tasks[o.taskID];
      assert flight.copies.loaded.task == Some(s.db.tasks[o.taskID])
             && Transition(flight, ids, now).task == Some(task');
      match flight.call
      case Remote(_, _, _) => RemoteKeepsLife(flight, ids, now, task');
      case InterruptCall(_) => InterruptKeepsLife(flight, ids, now, task');
      case RespondCall(_, _, _) => RespondKeepsLife(flight, ids, now, task');
      case MigrateCall(_) => MigrationSkips(s.db, flight, ids, now, db', o.taskID);
      case _ =>
    }
  }

  /** The task an operation is about. */
  function TaskOf(op: Direct): Option<ID> {
    match op
    case DoAssign(taskID, _, _) => Some(taskID)
    case DoCreate(id, _, _, _, _) => Some(id)
    case DoEdit(taskID, _, _) => Some(taskID)
    case DoArchive(taskID) => Some(taskID)
    case DoRetry(taskID) => Some(taskID)
    case DoDelete(taskID) => Some(taskID)
    case _ => None
  }

  lemma PlacingKeepsOthers(db: Db, issued: set<ID>, op: Direct, now: Time, db': Db, taskID: ID)
    requires TasksSound(db.tasks, issued) && PerformDirect(db, op, now) == Ok(db') && taskID in db.tasks
    requires (op.DoAssign? || op.DoCreate? || op.DoEdit?) && TaskOf(op) != Some(taskID)
    ensures taskID in db'.tasks && db'.tasks[taskID] == db.tasks[taskID]
  {
  }

  lemma EndingKeepsOthers(db: Db, issued: set<ID>, op: Direct, now: Time, db': Db, taskID: ID)
    requires TasksSound(db.tasks, issued) && PerformDirect(db, op, now) == Ok(db') && taskID in db.tasks
    requires (op.DoArchive? || op.DoRetry? || op.DoDelete?) && TaskOf(op) != Some(taskID)
    ensures taskID in db'.tasks && db'.tasks[taskID] == db.tasks[taskID]
  {
  }

  lemma DirectKeepsOthers(db: Db, issued: set<ID>, op: Direct, now: Time, db': Db, taskID: ID)
    requires TasksSound(db.tasks, issued) && PerformDirect(db, op, now) == Ok(db') && TaskOf(op) != Some(taskID)
    requires taskID in db.tasks
    ensures taskID in db'.tasks && db'.tasks[taskID] == db.tasks[taskID]
  {
    if op.DoAssign? || op.DoCreate? || op.DoEdit? {
      PlacingKeepsOthers(db, issued, op, now, db', taskID);
    } else if op.DoArchive? || op.DoRetry? || op.DoDelete? {
      EndingKeepsOthers(db, issued, op, now, db', taskID);
    }
  }

  lemma BusyTaskIsNotPlaced(db: Db, op: Direct, now: Time)
    requires (op.DoAssign? || op.DoEdit?) && PerformDirect(db, op, now).Ok?
    ensures op.taskID in db.tasks && (db.tasks[op.taskID].status.CREATED? || db.tasks[op.taskID].status.ASSIGNED?)
  {
  }

  lemma DirectKeepsStatus(db: Db, issued: set<ID>, op: Direct, now: Time, db': Db, taskID: ID)
    requires TasksSound(db.tasks, issued) && PerformDirect(db, op, now) == Ok(db')
             && (op.DoCreate? ==> op.id !in issued)
    requires op != DoRetry(taskID) && op != DoArchive(taskID) && op != DoDelete(taskID)
    requires taskID in db.tasks && (db.tasks[taskID].status.Active() || db.tasks[taskID].status.Ended())
    ensures taskID in db'.tasks && db'.tasks[taskID] == db.tasks[taskID]
  {
    if TaskOf(op) == Some(taskID) && (op.DoAssign? || op.DoEdit?) {
      BusyTaskIsNotPlaced(db, op, now);
    } else {
      DirectKeepsOthers(db, issued, op, now, db', taskID);
    }
  }

  lemma DeliveryStaysSettled(s: State, flight: Flight, ids: Drawn, now: Time, db': Db, o: Origin, h: seq<Entry>,
                             h': seq<Entry>)
    requires Linked(flight) && CopiesOK(s.db, s.issued, flight.copies) && Perform(s.db, flight, ids, now) == Ok(db')
    requires flight.call.Remote? && flight.call.roundID == o.roundID
    requires Faithful(s.db, o, h) && Settled(s.db, o, EventsOf(h)) && Faithful(db', o, h')
    requires h' == h || (flight.call.update.event.Some? && h' == h + [Came(flight.call.update.event.value)])
    ensures Settled(db', o, EventsOf(h'))
  {
    var loaded, update, dispatched := flight.copies.loaded, flight.call.update, flight.call.intentID.Some?;
    var c, d := RemoteIsCurrent(s.db, s.issued, flight, ids, now, db');
    if d.APPLIED? {
      PlanWrites(loaded, dispatched, update, now);
      PlanRecordsItsEvent(loaded, dispatched, update, now);
      DeliveryReads(s, flight, c, o);
      PlanFollows(loaded, dispatched, update, now);
      PlanIsPaired(loaded, dispatched, update, now);
      CursorTells(s.db, db', o, h, h', c);
      CommittedSettles(s.db, db', o, h, loaded, update, c);
    } else {
      SameHistory(s.db, o, h, h');
    }
  }

  /** The cursor tells whether an event was added. */
  lemma CursorTells(db: Db, db': Db, o: Origin, h: seq<Entry>, h': seq<Entry>, c: ProjectionCommit)
    requires Faithful(db, o, h) && Faithful(db', o, h') && CommitProjection(db, c) == Ok((db', APPLIED))
    requires c.round.id == o.roundID
    requires c.inbox.None? ==> c.round.lastSequence == db.rounds[o.roundID].lastSequence
    requires c.inbox.Some? ==> c.round.lastSequence == db.rounds[o.roundID].lastSequence + 1
    requires h' == h || (|h'| == |h| + 1 && h' == h + [h'[|h|]] && h'[|h|].Came?
                         && (c.inbox.Some? ==> h'[|h|].event == c.inbox.value.event))
    ensures h' == After(h, c.inbox)
  {
    AppliedInbox(db, c);
    ProjectedTables(db, c);
    if h' != h {
      FoldSnoc(o, h, h'[|h|]);
    }
  }

  lemma SameHistory(db: Db, o: Origin, h: seq<Entry>, h': seq<Entry>)
    requires Faithful(db, o, h) && Faithful(db, o, h')
    requires h' == h || (|h'| == |h| + 1 && h' == h + [h'[|h|]] && h'[|h|].Came?)
    ensures h' == h
  {
  }

  // ---------------------------------------------------------------- one step, and a whole run

  /** The step does not delete the round's task. */
  predicate Spares(action: Action, o: Origin) {
    action.Do? ==> action.op != DoDelete(o.taskID)
  }

  /** Nor does it fail the round or give the task another life. */
  ghost predicate Quiet(s: State, f: nat, action: Action, o: Origin) {
    match action
    case Commit(_, _) =>
      && f in s.flights && !MovesOn(s.flights[f], o)
      && !(s.flights[f].call.FailRound? && s.flights[f].call.roundID == o.roundID)
    case Do(op, _) => op != DoRetry(o.taskID) && op != DoArchive(o.taskID) && op != DoDelete(o.taskID)
    case _ => true
  }

  /** What a call may add to the history of its round: the event it delivers, or the Manager's ruling. */
  function NewsOf(call: Call): Option<Entry> {
    match call
    case Remote(_, _, update) => if update.event.Some? then Some(Came(update.event.value)) else None
    case FailRound(_, _, code, message) => Some(Ruled(code, message))
    case _ => None
  }

  /** What the step may add to the history of the round. */
  function News(s: State, f: nat, action: Action, o: Origin): Option<Entry> {
    if action.Commit? && f in s.flights
       && Addresses(s.flights[f].call, o.roundID) then NewsOf(s.flights[f].call) else None
  }

  /** The history is as before, or has the news of the step. */
  predicate Extended(h: seq<Entry>, h': seq<Entry>, news: Option<Entry>) {
    h' == h || (news.Some? && h' == h + [news.value])
  }

  lemma AddressedIsFaithful(s: State, flight: Flight, ids: Drawn, now: Time, db': Db, o: Origin, h: seq<Entry>)
    returns (h': seq<Entry>)
    requires Linked(flight) && CopiesOK(s.db, s.issued, flight.copies) && Perform(s.db, flight, ids, now) == Ok(db')
    requires Addresses(flight.call, o.roundID) && Faithful(s.db, o, h)
    ensures Faithful(db', o, h') && Extended(h, h', NewsOf(flight.call))
  {
    if flight.call.Remote? {
      h' := DeliveryIsFaithful(s, flight, ids, now, db', o, h);
    } else {
      h' := FailureIsFaithful(s, flight, ids, now, db', o, h);
    }
  }

  lemma OtherIsFaithful(s: State, s': State, f: nat, ids: Drawn, now: Time, o: Origin, h: seq<Entry>)
    requires Tidy(s) && Next(s, s', f, Commit(ids, now)) && Faithful(s.db, o, h)
    requires Perform(s.db, s.flights[f], ids, now).Ok? && !Addresses(s.flights[f].call, o.roundID)
    ensures Faithful(s'.db, o, h)
  {
    CommitIsGood(s, s', f, ids, now);
    OtherCommitIsUntouched(s, s.flights[f], ids, now, s'.db, o);
    RoundUntouchedStays(s.db, s'.db, o, h);
  }

  lemma CommitIsFaithful(s: State, s': State, f: nat, ids: Drawn, now: Time, o: Origin, h: seq<Entry>)
    returns (h': seq<Entry>)
    requires Tidy(s) && Next(s, s', f, Commit(ids, now)) && Faithful(s.db, o, h)
    ensures Faithful(s'.db, o, h') && Extended(h, h', News(s, f, Commit(ids, now), o))
  {
    h' := h;
    if Perform(s.db, s.flights[f], ids, now).Ok? {
      if Addresses(s.flights[f].call, o.roundID) {
        h' := AddressedIsFaithful(s, s.flights[f], ids, now, s'.db, o, h);
      } else {
        OtherIsFaithful(s, s', f, ids, now, o, h);
      }
    }
  }

  lemma StepIsFaithful(s: State, s': State, f: nat, action: Action, o: Origin, h: seq<Entry>) returns (h': seq<Entry>)
    requires Tidy(s) && Next(s, s', f, action) && Spares(action, o) && Faithful(s.db, o, h)
    ensures Faithful(s'.db, o, h') && Extended(h, h', News(s, f, action, o))
  {
    h' := h;
    match action
    case Commit(ids, now) => h' := CommitIsFaithful(s, s', f, ids, now, o, h);
    case Do(op, now) =>
      if PerformDirect(s.db, op, now).Ok? {
        DirectIsUntouched(s.db, s.issued, op, now, s'.db, o);
        RoundUntouchedStays(s.db, s'.db, o, h);
      }
    case _ =>
  }

  lemma CommitStaysSettled(s: State, s': State, f: nat, ids: Drawn, now: Time, o: Origin, h: seq<Entry>, h': seq<Entry>)
    requires Tidy(s) && Next(s, s', f, Commit(ids, now)) && Quiet(s, f, Commit(ids, now), o)
    requires Faithful(s.db, o, h) && Settled(s.db, o, EventsOf(h)) && Faithful(s'.db, o, h')
    requires Extended(h, h', News(s, f, Commit(ids, now), o))
    ensures Settled(s'.db, o, EventsOf(h'))
  {
    if Perform(s.db, s.flights[f], ids, now).Ok? {
      if Addresses(s.flights[f].call, o.roundID) {
        DeliveryStaysSettled(s, s.flights[f], ids, now, s'.db, o, h, h');
      } else {
        CommitIsGood(s, s', f, ids, now);
        OtherCommitIsUntouched(s, s.flights[f], ids, now, s'.db, o);
        OtherCommitKeepsStatus(s, s.flights[f], ids, now, s'.db, o);
        UntouchedStays(s.db, s'.db, o, h);
      }
    } else {
      SameHistory(s.db, o, h, h');
    }
  }

  lemma SettledIsBusy(db: Db, o: Origin, h: seq<Entry>)
    requires Faithful(db, o, h) && Settled(db, o, EventsOf(h))
    ensures db.tasks[o.taskID].status.Active() || db.tasks[o.taskID].status.Ended()
  {
  }

  lemma DirectLeavesBusyTask(db: Db, issued: set<ID>, op: Direct, now: Time, db': Db, o: Origin)
    requires Sound(db, issued) && LinesOwned(db) && PerformDirect(db, op, now) == Ok(db')
             && (op.DoCreate? ==> op.id !in issued)
    requires op != DoRetry(o.taskID) && op != DoArchive(o.taskID) && op != DoDelete(o.taskID)
    requires o.roundID in db.rounds && db.rounds[o.roundID].taskID == o.taskID && o.taskID in db.tasks
    requires db.tasks[o.taskID].status.Active() || db.tasks[o.taskID].status.Ended()
    ensures Untouched(db, db', o)
  {
    DirectIsUntouched(db, issued, op, now, db', o);
    DirectKeepsStatus(db, issued, op, now, db', o.taskID);
  }

  lemma StepStaysSettled(s: State, s': State, f: nat, action: Action, o: Origin, h: seq<Entry>, h': seq<Entry>)
    requires Tidy(s) && Next(s, s', f, action) && Quiet(s, f, action, o)
    requires Faithful(s.db, o, h) && Settled(s.db, o, EventsOf(h)) && Faithful(s'.db, o, h')
    requires Extended(h, h', News(s, f, action, o))
    ensures Settled(s'.db, o, EventsOf(h'))
  {
    match action
    case Commit(ids, now) => CommitStaysSettled(s, s', f, ids, now, o, h, h');
    case Do(op, now) =>
      if PerformDirect(s.db, op, now).Ok? {
        SettledIsBusy(s.db, o, h);
        DirectLeavesBusyTask(s.db, s.issued, op, now, s'.db, o);
        UntouchedStays(s.db, s'.db, o, h);
      }
    case _ =>
  }

  /** The entry is an event of the stream E or one of the rulings V. */
  predicate Expected(entry: Entry, E: seq<Event>, V: seq<Entry>) {
    if entry.Came? then entry.event in E else entry in V
  }

  ghost predicate Within(h: seq<Entry>, E: seq<Event>, V: seq<Entry>) {
    forall j :: 0 <= j < |h| ==> Expected(h[j], E, V)
  }

  /** The step spares the round, its news is expected, and it is quiet if that is asked for. */
  ghost predicate Calm(s: State, f: nat, action: Action, o: Origin, E: seq<Event>, V: seq<Entry>, quiet: bool) {
    && Spares(action, o) && (quiet ==> Quiet(s, f, action, o))
    && (News(s, f, action, o).Some? ==> Expected(News(s, f, action, o).value, E, V))
  }

  /** Every step from k to i is calm. */
  ghost predicate CalmRun(run: seq<State>, moves: seq<(nat, Action)>, o: Origin, E: seq<Event>, V: seq<Entry>, k: nat,
                          i: nat, quiet: bool)
    requires i <= |moves| && i <= |run|
    decreases i
  {
    i <= k
    || (CalmRun(run, moves, o, E, V, k, i - 1, quiet)
        && Calm(run[i - 1], moves[i - 1].0, moves[i - 1].1, o, E, V, quiet))
  }

  lemma StepIsCalm(s: State, s': State, f: nat, action: Action, o: Origin, h: seq<Entry>, quiet: bool)
    returns (h': seq<Entry>)
    requires Tidy(s) && Next(s, s', f, action) && Faithful(s.db, o, h) && (quiet ==> Settled(s.db, o, EventsOf(h)))
    requires Spares(action, o) && (quiet ==> Quiet(s, f, action, o))
    ensures Faithful(s'.db, o, h') && (quiet ==> Settled(s'.db, o, EventsOf(h')))
    ensures Extended(h, h', News(s, f, action, o))
  {
    h' := StepIsFaithful(s, s', f, action, o, h);
    if quiet {
      StepStaysSettled(s, s', f, action, o, h, h');
    }
  }

  lemma WithinSnoc(h: seq<Entry>, h': seq<Entry>, news: Option<Entry>, E: seq<Event>, V: seq<Entry>)
    requires Within(h, E, V) && Extended(h, h', news) && (news.Some? ==> Expected(news.value, E, V))
    ensures Within(h', E, V) && h <= h'
  {
  }

  lemma CalmStep(s: State, s': State, f: nat, action: Action, o: Origin, h: seq<Entry>, E: seq<Event>, V: seq<Entry>,
                 quiet: bool)
    returns (h': seq<Entry>)
    requires Tidy(s) && Next(s, s', f, action) && Faithful(s.db, o, h) && (quiet ==> Settled(s.db, o, EventsOf(h)))
    requires Within(h, E, V) && Calm(s, f, action, o, E, V, quiet)
    ensures Faithful(s'.db, o, h') && (quiet ==> Settled(s'.db, o, EventsOf(h'))) && Within(h', E, V) && h <= h'
  {
    h' := StepIsCalm(s, s', f, action, o, h, quiet);
    WithinSnoc(h, h', News(s, f, action, o), E, V);
  }

  /** The round stands at the history h. */
  ghost predicate Stands(db: Db, o: Origin, h: seq<Entry>, E: seq<Event>, V: seq<Entry>, quiet: bool) {
    Faithful(db, o, h) && (quiet ==> Settled(db, o, EventsOf(h))) && Within(h, E, V)
  }

  /** From any step on, the history only grows by what is delivered or ruled, and everything stored of the round is its
      fold. */
  lemma {:induction false} RunIsFaithful(run: seq<State>, moves: seq<(nat, Action)>, o: Origin, h: seq<Entry>,
                                         E: seq<Event>, V: seq<Entry>, k: nat, i: nat, quiet: bool)
    returns (h': seq<Entry>)
    requires IsRun(run, moves) && LinesOwned(run[0].db) && k <= i < |run| && Stands(run[k].db, o, h, E, V, quiet)
    requires CalmRun(run, moves, o, E, V, k, i, quiet)
    ensures Stands(run[i].db, o, h', E, V, quiet) && h <= h'
    decreases i
  {
    if i == k {
      h' := h;
    } else {
      var before := RunIsFaithful(run, moves, o, h, E, V, k, i - 1, quiet);
      RunIsTidy(run, moves, i - 1);
      h' := CalmStep(run[i - 1], run[i], moves[i - 1].0, moves[i - 1].1, o, before, E, V, quiet);
    }
  }

  // ---------------------------------------------------------------- convergence

  /** The plan of a START, RETRY or CONTINUE. */
  function LaunchPlan(flight: Flight, ids: Drawn, now: Time): Result<CommandCommit> {
    var copies, loaded := flight.copies, flight.copies.loaded;
    match flight.call
    case StartCall(_, buildable) => PlanStart(loaded.task, copies.candidate, loaded.worker, copies.list, buildable, ids,
                                              now)
    case ContinueCall(_, text, buildable) => PlanContinue(loaded.task, copies.list, loaded.worker, text, buildable, ids,
                                                          now)
    case _ => Err(Invalid)
  }

  /** The step commits a START, RETRY or CONTINUE whose plan is c. */
  ghost predicate Opening(s: State, s': State, f: nat, action: Action, c: CommandCommit) {
    && action.Commit? && f in s.flights && LaunchPlan(s.flights[f], action.ids, action.now) == Ok(c)
    && CommitCommand(s.db, c) == Ok(s'.db)
  }

  lemma OpeningLaunches(s: State, s': State, f: nat, action: Action, c: CommandCommit)
    requires Opening(s, s', f, action, c)
    ensures Launched(c, action.ids) && CommitCommand(s.db, c) == Ok(s'.db)
  {
    match s.flights[f].call
    case StartCall(_, buildable) => StartIsLaunched(s.flights[f].copies, buildable, action.ids, action.now, c);
    case ContinueCall(_, text, buildable) => ContinueIsLaunched(s.flights[f].copies, text, buildable, action.ids,
                                                                action.now, c);
    case _ =>
  }

  lemma OpeningOpens(s: State, s': State, f: nat, action: Action, c: CommandCommit)
    requires Tidy(s) && Opening(s, s', f, action, c)
    ensures Opened(s'.db, OriginOf(c))
  {
    OpeningLaunches(s, s', f, action, c);
    LaunchOpens(s.db, s.issued, c, action.ids, s'.db);
  }

  /** In every run, a committed START, RETRY or CONTINUE leaves its round open at its cursor: nothing recorded or
      projected, the task active. */
  lemma LaunchesOpen(run: seq<State>, moves: seq<(nat, Action)>, k: nat, c: CommandCommit)
    requires IsRun(run, moves) && LinesOwned(run[0].db) && k < |moves|
             && Opening(run[k], run[k + 1], moves[k].0, moves[k].1, c)
    ensures Opened(run[k + 1].db, OriginOf(c))
  {
    RunIsTidy(run, moves, k);
    OpeningOpens(run[k], run[k + 1], moves[k].0, moves[k].1, c);
  }

  lemma {:induction false} EventsWithin(h: seq<Entry>, E: seq<Event>, V: seq<Entry>)
    requires Within(h, E, V)
    ensures forall j :: 0 <= j < |EventsOf(h)| ==> EventsOf(h)[j] in E
  {
    if h != [] {
      EventsWithin(h[..|h| - 1], E, V);
      assert Expected(h[|h| - 1], E, V);
    }
  }

  lemma StandsConverges(db: Db, o: Origin, h: seq<Entry>, E: seq<Event>, V: seq<Entry>, quiet: bool)
    requires Stands(db, o, h, E, V, quiet) && Numbered(E, o.base)
    ensures RecordsConverged(db, o, E, h) && (quiet ==> Decided(db, o, E))
    ensures V == [] ==> h == Plainly(EventsOf(h))
  {
    EventsWithin(h, E, V);
    assert Numbered(EventsOf(h), o.base);
    PrefixOfStream(E, EventsOf(h), o.base);
    PrefixConverged(db, o, h, E);
    if V == [] {
      assert forall j :: 0 <= j < |h| ==> Expected(h[j], E, V);
      UnruledIsPlain(h);
    }
  }

  /** Delivery convergence. In every interleaved run, from the opening of a round on: whatever is delivered to it of a
      stream E, in any order and any number of times, and whatever else is in flight, the recorded events are E up to
      the cursor, the messages are their fold, and logs and diagnosis are the fold of these events and of the rulings V
      with which the Manager failed the round in between; without rulings, of the events alone. While the task is not
      started, retried, archived or failed and no other round ends it, a terminal event up to the cursor has decided its
      status. */
  lemma DeliveryConverges(run: seq<State>, moves: seq<(nat, Action)>, o: Origin, E: seq<Event>, V: seq<Entry>, k: nat,
                          i: nat, quiet: bool)
    returns (h: seq<Entry>)
    requires IsRun(run, moves) && LinesOwned(run[0].db) && k <= i < |run| && Opened(run[k].db, o)
    requires CalmRun(run, moves, o, E, V, k, i, quiet) && Numbered(E, o.base)
    ensures Within(h, E, V) && RecordsConverged(run[i].db, o, E, h) && (V == [] ==> h == Plainly(EventsOf(h)))
    ensures quiet ==> Decided(run[i].db, o, E)
  {
    h := RunIsFaithful(run, moves, o, [], E, V, k, i, quiet);
    StandsConverges(run[i].db, o, h, E, V, quiet);
  }
}
