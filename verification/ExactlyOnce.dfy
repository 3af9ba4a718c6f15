/** What the event inbox looks like in every interleaved run: gap-free, each sequence once, and terminal
    events paired with terminal rounds. */
module ExactlyOnce {
  import opened Wrappers
  import opened Domain
  import opened Events
  import opened ManagerStore
  import opened Projection
  import opened Service
  import opened Retries
  import opened ManagerRuns

  type Inbox = map<InboxKey, InboxRow>
  type Rounds = map<ID, Round>

  ghost predicate HasRow(inbox: Inbox, executionID: ID, n: int) {
    exists k :: k in inbox && inbox[k].executionID == executionID && inbox[k].Sequence() == n
  }

  /** No row runs ahead of the cursor of the round that recorded it. */
  ghost predicate Behind(rounds: Rounds, inbox: Inbox) {
    forall k :: k in inbox ==> k.0 in rounds && 1 <= inbox[k].Sequence() <= rounds[k.0].lastSequence
  }

  /** Up to the cursor of any of its rounds, an execution has every row. */
  ghost predicate Filled(rounds: Rounds, inbox: Inbox) {
    forall id, n :: id in rounds && 1 <= n <= rounds[id].lastSequence ==> HasRow(inbox, rounds[id].executionID, n)
  }

  ghost predicate Once(inbox: Inbox) {
    forall k, l :: k in inbox && l in inbox ==>
                     (inbox[k].executionID == inbox[l].executionID && inbox[k].Sequence() == inbox[l].Sequence() ==>
                        k == l)
  }

  ghost predicate GapFree(rounds: Rounds, inbox: Inbox) {
    Behind(rounds, inbox) && Filled(rounds, inbox) && Once(inbox)
  }

  // ---------------------------------------------------------------- steps that leave the inbox alone

  /** The cursor is zero or does not pass that of a stored round of the same execution. */
  ghost predicate Covered(rounds: Rounds, round: Round) {
    || round.lastSequence == 0
    || (exists id :: id in rounds && rounds[id].executionID == round.executionID
                     && round.lastSequence <= rounds[id].lastSequence)
  }

  ghost predicate Steady(before: Rounds, after: Rounds) {
    && (forall id :: id in before ==> id in after && before[id].lastSequence <= after[id].lastSequence)
    && (forall id :: id in after ==> Covered(before, after[id]))
  }

  lemma SteadyKeepsGapFree(before: Rounds, after: Rounds, inbox: Inbox)
    requires GapFree(before, inbox) && Steady(before, after)
    ensures GapFree(after, inbox)
  {
    forall id, n | id in after && 1 <= n <= after[id].lastSequence ensures HasRow(inbox, after[id].executionID, n) {
      assert Covered(before, after[id]);
    }
  }

  lemma OverwriteIsSteady(rounds: Rounds, round: Round)
    requires round.id in rounds && rounds[round.id].executionID == round.executionID
    requires rounds[round.id].lastSequence == round.lastSequence
    ensures Steady(rounds, rounds[round.id := round])
  {
  }

  // ---------------------------------------------------------------- the step that records a row

  lemma ExtendKeepsFilled(before: Rounds, inbox: Inbox, round: Round, row: InboxRow, key: InboxKey)
    requires Filled(before, inbox) && key !in inbox
    requires round.id in before && Extends(before[round.id], round, row)
             && round.executionID == before[round.id].executionID
    ensures Filled(before[round.id := round], inbox[key := row])
  {
    var after, inbox' := before[round.id := round], inbox[key := row];
    forall id, n | id in after && 1 <= n <= after[id].lastSequence ensures HasRow(inbox', after[id].executionID, n) {
      if id == round.id && n == round.lastSequence {
        assert inbox'[key] == row;
      } else {
        assert HasRow(inbox, before[id].executionID, n);
        var k :| k in inbox && inbox[k].executionID == before[id].executionID && inbox[k].Sequence() == n;
        assert inbox'[k] == inbox[k];
      }
    }
  }

  lemma ExtendKeepsGapFree(before: Rounds, inbox: Inbox, round: Round, row: InboxRow)
    requires GapFree(before, inbox) && (row.roundID, row.event.id) !in inbox && !SequenceTaken(inbox, row)
    requires InboxSound(inbox, before)
    requires round.id in before && Extends(before[round.id], round, row)
             && round.executionID == before[round.id].executionID
    requires before[round.id].id == round.id
    ensures GapFree(before[round.id := round], inbox[(row.roundID, row.event.id) := row])
  {
    var key := (row.roundID, row.event.id);
    ExtendKeepsFilled(before, inbox, round, row, key);
    assert forall k :: k in inbox && inbox[k].executionID == row.executionID
                       && inbox[k].Sequence() == row.Sequence() ==>
                         inbox[k].roundID == row.roundID && inbox[k].event.id == row.event.id;
    assert forall k :: k in inbox && k.0 == key.0 && k.1 == key.1 ==> k == key;
  }

  // ---------------------------------------------------------------- deletion

  lemma DeleteKeepsGapFree(db: Db, id: ID, issued: set<ID>, db': Db)
    requires Sound(db, issued) && GapFree(db.rounds, db.inbox) && DeleteTask(db, id) == Ok(db')
    ensures GapFree(db'.rounds, db'.inbox)
  {
    forall r, n | r in db'.rounds
    && 1 <= n <= db'.rounds[r].lastSequence ensures HasRow(db'.inbox, db'.rounds[r].executionID, n) {
      assert HasRow(db.inbox, db.rounds[r].executionID, n);
      var k :| k in db.inbox && db.inbox[k].executionID == db.rounds[r].executionID && db.inbox[k].Sequence() == n;
      assert db.rounds[k.0].taskID == db.rounds[r].taskID;
      assert k in db'.inbox;
    }
    forall k | k in db'.inbox ensures k.0 in db'.rounds
    && 1 <= db'.inbox[k].Sequence() <= db'.rounds[k.0].lastSequence {
      assert k in db.inbox;
    }
  }

  // ---------------------------------------------------------------- terminal pairing of one update

  /** What an update may do to a round's status. A terminal status stays; a new one comes with the terminal
      event of the same status, or is a bare rejection before the first event. */
  ghost predicate Paired(before: Round, after: Round, row: Option<InboxRow>, update: Update) {
    && (before.remoteStatus.Terminal() ==> after.remoteStatus == before.remoteStatus)
    && (after.remoteStatus.Terminal() && !before.remoteStatus.Terminal() ==>
          && after.remoteStatus == update.status
          && if update.event.Some? then update.event.value.kind.EXECUTION_TERMINAL?
          && TerminalStatus(update.event) == after.remoteStatus
             else after.remoteStatus.REJECTED? && before.lastSequence == 0)
    && (row.Some? && row.value.event.kind.EXECUTION_TERMINAL? ==>
          after.remoteStatus.Terminal() && TerminalStatus(Some(row.value.event)) == after.remoteStatus)
  }

  lemma AdvanceIsPaired(round: Round, intent: Option<Intent>, seen: Option<InboxRow>, update: Update, now: Time)
    requires Advance(round, intent, seen, update, now).Ok?
    ensures var a := Advance(round, intent, seen, update, now).value; Paired(round, a.round, a.admission.inbox, update)
  {
    BindKeeps(round, intent, update, now);
    AdvanceMovesByOne(round, intent, seen, update, now);
  }

  /** An event that is not recorded was seen before. */
  lemma AdvanceSeen(round: Round, intent: Option<Intent>, seen: Option<InboxRow>, update: Update, now: Time)
    requires Advance(round, intent, seen, update, now).Ok? && update.event.Some?
    ensures var a := Advance(round, intent, seen, update, now).value;
            if a.admission.inbox.Some? then a.admission.inbox.value.event == update.event.value
            else seen.Some? && seen.value.event == update.event.value
  {
  }

  lemma PlanIsPaired(loaded: Loaded, dispatched: bool, update: Update, now: Time)
    requires Plan(loaded, dispatched, update, now).Ok?
    ensures var c := Plan(loaded, dispatched, update, now).value;
            && Paired(loaded.round.value, c.round, c.inbox, update)
            && (update.event.Some? ==>
                  if c.inbox.Some? then c.inbox.value.event == update.event.value
                  else loaded.seen.Some? && loaded.seen.value.event == update.event.value)
  {
    var round := loaded.round.value;
    AdvanceIsPaired(round, loaded.intent, loaded.seen, update, now);
    var advanced := Advance(round, loaded.intent, loaded.seen, update, now).value;
    if update.event.Some? {
      AdvanceSeen(round, loaded.intent, loaded.seen, update, now);
    }
    ConductKeeps(advanced, loaded.task.value, loaded.interaction, update.status, now);
  }

  /** A recorded terminal event has ended its round. */
  ghost predicate Closed(rounds: Rounds, inbox: Inbox) {
    forall k :: k in inbox && k.0 in rounds && inbox[k].event.kind.EXECUTION_TERMINAL? ==>
                  rounds[k.0].remoteStatus.Terminal()
  }

  /** Terminal rounds stay terminal. */
  ghost predicate StaysClosed(before: Rounds, after: Rounds) {
    forall id :: id in before && id in after && before[id].remoteStatus.Terminal() ==> after[id].remoteStatus.Terminal()
  }

  lemma ClosedStays(before: Rounds, after: Rounds, inbox: Inbox)
    requires Closed(before, inbox) && StaysClosed(before, after) && InboxSound(inbox, before)
    ensures Closed(after, inbox)
  {
  }

  // ---------------------------------------------------------------- every call

  ghost predicate Proper(db: Db) {
    GapFree(db.rounds, db.inbox) && Closed(db.rounds, db.inbox)
  }

  lemma ProjectionKeepsProper(db: Db, issued: set<ID>, copies: Copies, c: ProjectionCommit, db': Db, d: Disposition)
    requires Sound(db, issued) && CopiesOK(db, issued, copies) && Writes(copies.loaded, c)
             && CommitProjection(db, c) == Ok((db', d))
    requires Proper(db)
    requires copies.loaded.round.value.remoteStatus.Terminal() ==> c.round.remoteStatus.Terminal()
    requires c.inbox.Some? && c.inbox.value.event.kind.EXECUTION_TERMINAL? ==> c.round.remoteStatus.Terminal()
    ensures Proper(db')
  {
    if d.APPLIED? {
      AppliedIsCurrent(db, issued, copies, c);
      AppliedInbox(db, c);
      ProjectedTables(db, c);
      assert StaysClosed(db.rounds, db'.rounds);
      ClosedStays(db.rounds, db'.rounds, db.inbox);
      if c.inbox.Some? {
        ExtendKeepsGapFree(db.rounds, db.inbox, c.round, c.inbox.value);
      } else {
        OverwriteIsSteady(db.rounds, c.round);
        SteadyKeepsGapFree(db.rounds, db'.rounds, db.inbox);
      }
    } else {
      assert db' == db;
    }
  }

  lemma CommandKeepsProper(db: Db, issued: set<ID>, copies: Copies, ids: Drawn, c: CommandCommit, db': Db)
    requires Sound(db, issued) && CopiesOK(db, issued, copies) && New(ids, issued) && Orders(copies, ids, c)
    requires CommitCommand(db, c) == Ok(db') && Proper(db)
    ensures Proper(db')
  {
    AcceptedIsCurrent(db, issued, copies, ids, c);
    CommandedTables(db, c);
    if c.createRound {
      var parent := ParentIsStored(db, issued, copies, ids, c);
      assert Covered(db.rounds, c.round);
    }
    assert Steady(db.rounds, db'.rounds);
    SteadyKeepsGapFree(db.rounds, db'.rounds, db.inbox);
    ClosedStays(db.rounds, db'.rounds, db.inbox);
  }

  lemma NotedKeepsProper(db: Db, issued: set<ID>, round: Round, now: Time)
    requires Sound(db, issued) && Proper(db) && round.id in db.rounds && db.rounds[round.id] == round
    ensures Proper(PutRound(db, Some(round.MarkUnreachable(now))))
  {
    var marked := round.MarkUnreachable(now);
    OverwriteIsSteady(db.rounds, marked);
    SteadyKeepsGapFree(db.rounds, db.rounds[round.id := marked], db.inbox);
    ClosedStays(db.rounds, db.rounds[round.id := marked], db.inbox);
  }

  lemma VerdictKeepsProper(db: Db, issued: set<ID>, copies: Copies, acknowledged: bool, now: Time, verdict: Verdict,
                           db': Db)
    requires Sound(db, issued) && CopiesOK(db, issued, copies) && copies.loaded.round.Some? && Proper(db)
    requires OnNetworkFailure(copies.loaded.round.value, copies.loaded.intent, acknowledged, now) == Ok(verdict)
    requires PerformVerdict(db, copies.loaded, verdict) == Ok(db')
    ensures Proper(db')
  {
    if !verdict.GiveUp? {
      NotedKeepsProper(db, issued, copies.loaded.round.value, now);
    }
  }

  lemma RemoteKeepsProper(db: Db, issued: set<ID>, copies: Copies, dispatched: bool, update: Update, now: Time, db': Db,
                          d: Disposition)
    requires Sound(db, issued) && CopiesOK(db, issued, copies) && Proper(db)
    requires Plan(copies.loaded, dispatched, update, now).Ok?
    requires CommitProjection(db, Plan(copies.loaded, dispatched, update, now).value) == Ok((db', d))
    ensures Proper(db')
  {
    PlanWrites(copies.loaded, dispatched, update, now);
    PlanIsPaired(copies.loaded, dispatched, update, now);
    ProjectionKeepsProper(db, issued, copies, Plan(copies.loaded, dispatched, update, now).value, db', d);
  }

  lemma FailKeepsProper(db: Db, issued: set<ID>, copies: Copies, dispatched: bool, code: string, message: string,
                        now: Time, db': Db, d: Disposition)
    requires Sound(db, issued) && CopiesOK(db, issued, copies) && Proper(db)
    requires PlanFailure(copies.loaded, dispatched, code, message, now).Ok?
    requires CommitProjection(db, PlanFailure(copies.loaded, dispatched, code, message, now).value) == Ok((db', d))
    ensures Proper(db')
  {
    PlanFailureWrites(copies.loaded, dispatched, code, message, now);
    ProjectionKeepsProper(db, issued, copies, PlanFailure(copies.loaded, dispatched, code, message, now).value, db', d);
  }

  lemma MigrationKeepsTables(db: Db, task: Task, expectedTask: nat, worker: Option<Worker>, expectedWorker: nat)
    requires CommitMigration(db, task, expectedTask, worker, expectedWorker).Ok?
    ensures var db' := CommitMigration(db, task, expectedTask, worker, expectedWorker).value.0;
            db'.rounds == db.rounds && db'.inbox == db.inbox
  {
  }

  lemma SameTablesProper(db: Db, db': Db)
    requires Proper(db) && db'.rounds == db.rounds && db'.inbox == db.inbox
    ensures Proper(db')
  {
  }

  lemma UpdateCallKeepsProper(db: Db, issued: set<ID>, flight: Flight, ids: Drawn, now: Time, db': Db)
    requires flight.call.Remote? || flight.call.FailRound?
    requires Sound(db, issued) && CopiesOK(db, issued, flight.copies) && New(ids, issued) && Proper(db)
    requires Perform(db, flight, ids, now) == Ok(db')
    ensures Proper(db')
  {
    var loaded := flight.copies.loaded;
    match flight.call
    case Remote(_, intentID, update) =>
      var done := CommitProjection(db, Plan(loaded, intentID.Some?, update, now).value).value;
      RemoteKeepsProper(db, issued, flight.copies, intentID.Some?, update, now, db', done.1);
    case FailRound(_, intentID, code, message) =>
      if !(loaded.round.Some? && AlreadyFailed(loaded.round.value, code)) {
        var done := CommitProjection(db, PlanFailure(loaded, intentID.Some?, code, message, now).value).value;
        FailKeepsProper(db, issued, flight.copies, intentID.Some?, code, message, now, db', done.1);
      }
  }

  lemma OpeningCallKeepsProper(db: Db, issued: set<ID>, flight: Flight, ids: Drawn, now: Time, db': Db)
    requires flight.call.StartCall? || flight.call.ContinueCall?
    requires Sound(db, issued) && CopiesOK(db, issued, flight.copies) && New(ids, issued) && Proper(db)
    requires Perform(db, flight, ids, now) == Ok(db')
    ensures Proper(db')
  {
    var copies, loaded := flight.copies, flight.copies.loaded;
    match flight.call
    case StartCall(_, buildable) =>
      StartOrders(copies, buildable, ids, now);
      CommandKeepsProper(db, issued, copies, ids,
                         PlanStart(loaded.task, copies.candidate, loaded.worker, copies.list, buildable, ids,
                                   now).value, db');
    case ContinueCall(_, text, buildable) =>
      ContinueOrders(copies, text, buildable, ids, now);
      CommandKeepsProper(db, issued, copies, ids,
                         PlanContinue(loaded.task, copies.list, loaded.worker, text, buildable, ids, now).value, db');
  }

  lemma SteeringCallKeepsProper(db: Db, issued: set<ID>, flight: Flight, ids: Drawn, now: Time, db': Db)
    requires flight.call.InterruptCall? || flight.call.RespondCall?
    requires Sound(db, issued) && CopiesOK(db, issued, flight.copies) && New(ids, issued) && Proper(db)
    requires Perform(db, flight, ids, now) == Ok(db')
    ensures Proper(db')
  {
    var copies, loaded := flight.copies, flight.copies.loaded;
    match flight.call
    case InterruptCall(_) =>
      var plan := PlanInterrupt(loaded.task, copies.list, ids, now).value;
      if plan.Some? {
        InterruptOrders(copies, ids, now);
        CommandKeepsProper(db, issued, copies, ids, plan.value, db');
      }
    case RespondCall(_, response, buildable) =>
      var plan := PlanRespond(loaded.interaction, loaded.task, loaded.worker, copies.list, response, buildable, ids,
                              now).value;
      if plan.Some? {
        RespondOrders(copies, response, buildable, ids, now);
        CommandKeepsProper(db, issued, copies, ids, plan.value, db');
      }
  }

  lemma ReconcilerCallKeepsProper(db: Db, issued: set<ID>, flight: Flight, ids: Drawn, now: Time, db': Db)
    requires flight.call.ClaimCall? || flight.call.NetworkFailureCall? || flight.call.MigrateCall?
    requires Sound(db, issued) && CopiesOK(db, issued, flight.copies) && New(ids, issued) && Proper(db)
    requires Perform(db, flight, ids, now) == Ok(db')
    ensures Proper(db')
  {
    var copies, loaded := flight.copies, flight.copies.loaded;
    match flight.call
    case ClaimCall(_) => SameTablesProper(db, db');
    case NetworkFailureCall(_, _, acknowledged) =>
      VerdictKeepsProper(db, issued, copies, acknowledged, now,
                         OnNetworkFailure(loaded.round.value, loaded.intent, acknowledged, now).value, db');
    case MigrateCall(_) =>
      var plan := PlanMigration(loaded.task, copies.list, loaded.worker, now).value;
      if plan.Some? {
        MigrationKeepsTables(db, plan.value.0, loaded.task.value.version, plan.value.1,
                             if loaded.worker.Some? then loaded.worker.value.version else 0);
        SameTablesProper(db, db');
      }
  }

  lemma PerformKeepsProper(db: Db, issued: set<ID>, flight: Flight, ids: Drawn, now: Time, db': Db)
    requires Sound(db, issued) && CopiesOK(db, issued, flight.copies) && New(ids, issued) && Proper(db)
    requires Perform(db, flight, ids, now) == Ok(db')
    ensures Proper(db')
  {
    match flight.call
    case Remote(_, _, _) => UpdateCallKeepsProper(db, issued, flight, ids, now, db');
    case FailRound(_, _, _, _) => UpdateCallKeepsProper(db, issued, flight, ids, now, db');
    case StartCall(_, _) => OpeningCallKeepsProper(db, issued, flight, ids, now, db');
    case ContinueCall(_, _, _) => OpeningCallKeepsProper(db, issued, flight, ids, now, db');
    case InterruptCall(_) => SteeringCallKeepsProper(db, issued, flight, ids, now, db');
    case RespondCall(_, _, _) => SteeringCallKeepsProper(db, issued, flight, ids, now, db');
    case _ => ReconcilerCallKeepsProper(db, issued, flight, ids, now, db');
  }

  lemma DirectKeepsProper(db: Db, op: Direct, now: Time, issued: set<ID>, db': Db)
    requires Sound(db, issued) && PerformDirect(db, op, now) == Ok(db') && Proper(db)
    ensures Proper(db')
  {
    match op
    case DoDelete(taskID) => DeleteKeepsGapFree(db, taskID, issued, db');
    case _ =>
      assert LeavesRounds(db, db');
      SameTablesProper(db, db');
  }

  lemma {:induction false} RunIsProper(run: seq<State>, moves: seq<(nat, Action)>, i: nat)
    requires IsRun(run, moves) && i < |run|
    ensures Proper(run[i].db)
  {
    if i > 0 {
      RunIsProper(run, moves, i - 1);
      RunKeepsInv(run, moves, i - 1);
      var s, s', f, action := run[i - 1], run[i], moves[i - 1].0, moves[i - 1].1;
      assert Next(s, s', f, action);
      match action
      case Commit(ids, now) =>
        if Perform(s.db, s.flights[f], ids, now).Ok? {
          PerformKeepsProper(s.db, s.issued, s.flights[f], ids, now, s'.db);
        }
      case Do(op, now) =>
        if PerformDirect(s.db, op, now).Ok? {
          DirectKeepsProper(s.db, op, now, s.issued, s'.db);
        }
      case _ =>
    }
  }

  // ---------------------------------------------------------------- the inbox of an execution is 1..N

  function RowsUpTo(inbox: Inbox, executionID: ID, n: int): set<InboxKey> {
    set k | k in inbox && inbox[k].executionID == executionID && 1 <= inbox[k].Sequence() <= n
  }

  lemma RowsOneMore(inbox: Inbox, executionID: ID, n: nat, k: InboxKey)
    requires Once(inbox) && n > 0 && k in inbox && inbox[k].executionID == executionID && inbox[k].Sequence() == n
    ensures RowsUpTo(inbox, executionID, n) == RowsUpTo(inbox, executionID, n - 1) + {k}
            && k !in RowsUpTo(inbox, executionID, n - 1)
  {
    forall l | l in RowsUpTo(inbox, executionID, n) ensures l in RowsUpTo(inbox, executionID, n - 1) + {k} {
      assert inbox[l].Sequence() == n ==> l == k;
    }
  }

  lemma {:induction false} CountRows(inbox: Inbox, executionID: ID, n: nat)
    requires Once(inbox) && forall m :: 1 <= m <= n ==> HasRow(inbox, executionID, m)
    ensures |RowsUpTo(inbox, executionID, n)| == n
  {
    if n == 0 {
      assert RowsUpTo(inbox, executionID, n) == {};
    } else {
      CountRows(inbox, executionID, n - 1);
      assert HasRow(inbox, executionID, n);
      var k :| k in inbox && inbox[k].executionID == executionID && inbox[k].Sequence() == n;
      RowsOneMore(inbox, executionID, n, k);
    }
  }

  /** The largest cursor among the rounds of an execution, zero when it has none. */
  ghost predicate LargestCursor(rounds: Rounds, executionID: ID, n: nat) {
    && (forall id :: id in rounds && rounds[id].executionID == executionID ==> rounds[id].lastSequence <= n)
    && (n == 0 || exists id :: id in rounds && rounds[id].executionID == executionID && rounds[id].lastSequence == n)
  }

  lemma {:induction false} LargestCursorExists(rounds: Rounds, executionID: ID) returns (n: nat)
    ensures LargestCursor(rounds, executionID, n)
    decreases |rounds|
  {
    if rounds == map[] {
      n := 0;
    } else {
      var id :| id in rounds;
      var rest := rounds - {id};
      assert rest.Keys == rounds.Keys - {id};
      n := LargestCursorExists(rest, executionID);
      if rounds[id].executionID == executionID && rounds[id].lastSequence > n {
        n := rounds[id].lastSequence;
      }
      if n > 0 && !(rounds[id].executionID == executionID && rounds[id].lastSequence == n) {
        var other :| other in rest && rest[other].executionID == executionID && rest[other].lastSequence == n;
        assert other in rounds && rounds[other] == rest[other];
      }
      forall o | o in rounds && rounds[o].executionID == executionID ensures rounds[o].lastSequence <= n {
        assert o != id ==> o in rest && rest[o] == rounds[o];
      }
    }
  }

  /** Gap-free and exactly once. In every state of every interleaved run, the inbox of an execution holds the
      sequences 1..N and each of them in one row, where N is the largest cursor of its rounds. */
  lemma InboxIsOneToN(run: seq<State>, moves: seq<(nat, Action)>, i: nat, executionID: ID) returns (n: nat)
    requires IsRun(run, moves) && i < |run|
    ensures LargestCursor(run[i].db.rounds, executionID, n)
    ensures forall m :: HasRow(run[i].db.inbox, executionID, m) <==> 1 <= m <= n
    ensures |set k | k in run[i].db.inbox && run[i].db.inbox[k].executionID == executionID| == n
  {
    RunIsProper(run, moves, i);
    RunKeepsInv(run, moves, i);
    var rounds, inbox := run[i].db.rounds, run[i].db.inbox;
    n := LargestCursorExists(rounds, executionID);
    forall m ensures HasRow(inbox, executionID, m) <==> 1 <= m <= n {
      if HasRow(inbox, executionID, m) {
        var k :| k in inbox && inbox[k].executionID == executionID && inbox[k].Sequence() == m;
        assert rounds[k.0].lastSequence <= n;
      }
    }
    CountRows(inbox, executionID, n);
    assert RowsUpTo(inbox, executionID, n) == set k | k in inbox && inbox[k].executionID == executionID;
  }

  // ---------------------------------------------------------------- terminal pairing over runs

  lemma RemotePairing(db: Db, issued: set<ID>, copies: Copies, dispatched: bool, update: Update, now: Time,
                      c: ProjectionCommit)
    requires Sound(db, issued) && CopiesOK(db, issued, copies) && Proper(db)
    requires Plan(copies.loaded, dispatched, update, now) == Ok(c)
    requires CommitProjection(db, c).Ok? && CommitProjection(db, c).value.1.APPLIED?
    ensures c.round.id in db.rounds && Paired(db.rounds[c.round.id], c.round, c.inbox, update)
    ensures c.round.remoteStatus.Terminal() && !db.rounds[c.round.id].remoteStatus.Terminal() && update.event.Some? ==>
              c.inbox.Some? && c.inbox.value.event == update.event.value
  {
    PlanWrites(copies.loaded, dispatched, update, now);
    PlanIsPaired(copies.loaded, dispatched, update, now);
    AppliedIsCurrent(db, issued, copies, c);
  }

  /** A terminal status stays; a new one stands beside a new row with the terminal event of that status, or is a
      bare rejection of a round without events. */
  ghost predicate PairedStep(db: Db, db': Db, id: ID, update: Update)
    requires id in db.rounds && id in db'.rounds
  {
    var before, after := db.rounds[id], db'.rounds[id];
    && (before.remoteStatus.Terminal() ==> after.remoteStatus == before.remoteStatus)
    && (after.remoteStatus.Terminal() && !before.remoteStatus.Terminal() ==>
          if update.event.Some? then
            var key := (id, update.event.value.id);
            && key !in db.inbox && key in db'.inbox && db'.inbox[key].event == update.event.value
            && update.event.value.kind.EXECUTION_TERMINAL? && TerminalStatus(update.event) == after.remoteStatus
          else after.remoteStatus.REJECTED? && before.lastSequence == 0 && after.lastSequence == 0)
  }

  lemma WrittenPairs(db: Db, db': Db, c: ProjectionCommit, update: Update, id: ID)
    requires id in db.rounds && db'.rounds == db.rounds[c.round.id := c.round]
    requires db'.inbox == if c.inbox.Some? then db.inbox[(c.inbox.value.roundID,
                                                          c.inbox.value.event.id) := c.inbox.value] else db.inbox
    requires c.round.id in db.rounds && Paired(db.rounds[c.round.id], c.round, c.inbox, update)
    requires c.inbox.Some? ==> c.inbox.value.roundID == c.round.id && (c.round.id, c.inbox.value.event.id) !in db.inbox
    requires c.inbox.None? ==> c.round.lastSequence == db.rounds[c.round.id].lastSequence
    requires c.inbox.Some? ==> update.event.Some?
    requires c.round.remoteStatus.Terminal() && !db.rounds[c.round.id].remoteStatus.Terminal() && update.event.Some? ==>
               c.inbox.Some? && c.inbox.value.event == update.event.value
    ensures PairedStep(db, db', id, update)
  {
  }

  lemma AppliedPairs(db: Db, issued: set<ID>, copies: Copies, dispatched: bool, update: Update, now: Time,
                     c: ProjectionCommit, id: ID)
    requires Sound(db, issued) && CopiesOK(db, issued, copies) && Proper(db) && id in db.rounds
    requires Plan(copies.loaded, dispatched, update, now) == Ok(c)
    requires CommitProjection(db, c).Ok? && CommitProjection(db, c).value.1.APPLIED?
    ensures id in Projected(db, c).rounds && PairedStep(db, Projected(db, c), id, update)
  {
    RemotePairing(db, issued, copies, dispatched, update, now, c);
    AppliedInbox(db, c);
    ProjectedTables(db, c);
    PlanWrites(copies.loaded, dispatched, update, now);
    AppliedIsCurrent(db, issued, copies, c);
    AdvanceMovesByOne(copies.loaded.round.value, copies.loaded.intent, copies.loaded.seen, update, now);
    WrittenPairs(db, Projected(db, c), c, update, id);
  }

  lemma RemoteStepPairs(db: Db, issued: set<ID>, flight: Flight, ids: Drawn, now: Time, db': Db, id: ID)
    requires Sound(db, issued) && CopiesOK(db, issued, flight.copies) && Proper(db)
    requires flight.call.Remote? && Perform(db, flight, ids, now) == Ok(db')
    requires id in db.rounds && id in db'.rounds
    ensures PairedStep(db, db', id, flight.call.update)
  {
    var dispatched := flight.call.intentID.Some?;
    var c, d := PerformRemote(db, flight, ids, now, db');
    if d.APPLIED? {
      AppliedInbox(db, c);
      AppliedPairs(db, issued, flight.copies, dispatched, flight.call.update, now, c, id);
    }
  }

  /** Terminal pairing and irreversibility: every commit of a remote update, in every interleaved run. */
  lemma TerminalPairing(run: seq<State>, moves: seq<(nat, Action)>, i: nat, id: ID)
    requires IsRun(run, moves) && i < |moves| && moves[i].1.Commit?
    requires moves[i].0 in run[i].flights && run[i].flights[moves[i].0].call.Remote?
    requires id in run[i].db.rounds && id in run[i + 1].db.rounds
    ensures PairedStep(run[i].db, run[i + 1].db, id, run[i].flights[moves[i].0].call.update)
  {
    RunIsProper(run, moves, i);
    RunKeepsInv(run, moves, i);
    var s, s', f, ids, now := run[i], run[i + 1], moves[i].0, moves[i].1.ids, moves[i].1.now;
    if Perform(s.db, s.flights[f], ids, now).Ok? {
      RemoteStepPairs(s.db, s.issued, s.flights[f], ids, now, s'.db, id);
    }
  }
}
