/** A run in which a lease is lost: a worker is deleted and registered again under its id while a start that read it
    before is in flight, and the new worker has come to the version of the old one when that start commits. */
module ReusedWorker {
  import opened Wrappers
  import opened Domain
  import opened ManagerStore
  import opened Projection
  import opened Service
  import opened ManagerRuns
  import opened TaskInvariants
  import opened ManagerInvariants
  import opened Interleavings

  /** Two tasks of one worker, and the identities that their starts draw. */
  datatype Cast = Cast(late: ID, early: ID, worker: ID, lateIDs: Drawn, earlyIDs: Drawn)

  predicate Named(task: ID, worker: ID, ids: Drawn) {
    && !Blank(task) && !Blank(worker) && !Blank(ids.round) && !Blank(ids.command) && !Blank(ids.execution)
  }

  function Issued0(n: Cast): set<ID> {
    {n.late, n.early}
  }

  predicate Proper(n: Cast) {
    && Named(n.late, n.worker, n.lateIDs) && Named(n.early, n.worker, n.earlyIDs) && n.late != n.early
    && n.worker != "" && New(n.earlyIDs, Issued0(n)) && New(n.lateIDs, Issue(n.earlyIDs, Issued0(n)))
    && n.lateIDs.command != n.earlyIDs.command
  }

  // ---------------------------------------------------------------- records

  function Waiting(n: Cast, id: ID): Task {
    Task(id, ASSIGNED, false, "p", CODEX, n.worker, "", "", "", 1, 0)
  }

  function Started(n: Cast, id: ID): Task {
    Waiting(n, id).(status := STARTING, version := 2)
  }

  /** The worker that is deleted, and the one that takes its id: registered, connected, and with one lease. */
  function Old(n: Cast): Worker {
    Worker(n.worker, ONLINE, [CODEX], true, [], [], 3, 0)
  }

  function Registered(n: Cast): Worker {
    Worker(n.worker, REGISTERED, [CODEX], true, [], [], 1, 0)
  }

  function Connected(n: Cast): Worker {
    Worker(n.worker, ONLINE, [CODEX], true, [], [], 2, 0)
  }

  function Leasing(n: Cast): Worker {
    Worker(n.worker, ONLINE, [CODEX], true, [], [n.early], 3, 0)
  }

  function Opening(task: ID, worker: ID, ids: Drawn): Round {
    Round(ids.round, task, ids.execution, 1, 1, START, worker, ids.command, "", "", "", UNSPECIFIED, 0,
          None, None, None, None, "", "", false, 1, 0, 0, None)
  }

  function Dispatch(task: ID, worker: ID, ids: Drawn): Intent {
    Intent("dispatch_" + ids.command, ids.round, task, ids.execution, worker, ids.command, START,
           PENDING, 0, 0, None, None, "", "", 1, 0, 0)
  }

  function Order(n: Cast, task: ID, read: Worker, ids: Drawn): CommandCommit {
    CommandCommit(Started(n, task), 1, Some(read.(currentTaskIDs := [task], version := read.version + 1)),
                  read.version, Opening(task, n.worker, ids), true, Dispatch(task, n.worker, ids), None, [], false)
  }

  lemma Plans(n: Cast, task: ID, read: Worker, ids: Drawn)
    requires Named(task, n.worker, ids) && n.worker != "" && (read == Old(n) || read == Connected(n))
    ensures PlanStart(Some(Waiting(n, task)), None, Some(read), [], true, ids, 0) == Ok(Order(n, task, read, ids))
  {
    assert read.CanAccept(CODEX, "p");
    assert read.AssignTask(task, 0) == Ok(read.(currentTaskIDs := [task], version := read.version + 1)) by {
      assert [] + [task] == [task];
    }
  }

  // ---------------------------------------------------------------- the store

  function Db0(n: Cast): Db {
    EMPTY.(tasks := map[n.late := Waiting(n, n.late), n.early := Waiting(n, n.early)],
           workers := map[n.worker := Old(n)])
  }

  function WithWorker(n: Cast, worker: Worker): Db {
    Db0(n).(workers := map[n.worker := worker])
  }

  function WithoutWorker(n: Cast): Db {
    Db0(n).(workers := map[])
  }

  /** After the start that read the new worker. */
  function DbEarly(n: Cast): Db {
    Commanded(WithWorker(n, Connected(n)), Order(n, n.early, Connected(n), n.earlyIDs))
  }

  /** After the start that read the deleted worker. */
  function DbLate(n: Cast): Db {
    Commanded(DbEarly(n), Order(n, n.late, Old(n), n.lateIDs))
  }

  /** A start is accepted when the versions that it read are the stored ones and its identities are new. */
  lemma Accepted(db: Db, c: CommandCommit)
    requires c.task.id in db.tasks && db.tasks[c.task.id].version == c.expectedTask
    requires c.worker.Some? && c.worker.value.id in db.workers
             && db.workers[c.worker.value.id].version == c.expectedWorker
    requires c.createRound && c.round.id !in db.rounds && !TurnTaken(db.rounds, c.round)
    requires c.intent.id !in db.intents && !CommandTaken(db.intents, c.intent.commandID) && c.interaction.None?
    requires c.intent.roundID == c.round.id && c.intent.taskID == c.round.taskID
             && c.intent.commandID == c.round.commandID
    ensures CommitCommand(db, c) == Ok(Commanded(db, c))
  {
  }

  lemma EarlyCommits(n: Cast)
    requires Proper(n)
    ensures CommitCommand(WithWorker(n, Connected(n)), Order(n, n.early, Connected(n), n.earlyIDs)) == Ok(DbEarly(n))
  {
    Accepted(WithWorker(n, Connected(n)), Order(n, n.early, Connected(n), n.earlyIDs));
  }

  lemma EarlyRecords(n: Cast)
    requires Proper(n)
    ensures DbEarly(n).rounds == map[n.earlyIDs.round := Opening(n.early, n.worker, n.earlyIDs)]
    ensures DbEarly(n).intents == map["dispatch_" + n.earlyIDs.command := Dispatch(n.early, n.worker, n.earlyIDs)]
  {
    CommandedTables(WithWorker(n, Connected(n)), Order(n, n.early, Connected(n), n.earlyIDs));
  }

  lemma EarlyTasks(n: Cast)
    requires Proper(n)
    ensures DbEarly(n).tasks == map[n.late := Waiting(n, n.late), n.early := Started(n, n.early)]
  {
    CommandedTables(WithWorker(n, Connected(n)), Order(n, n.early, Connected(n), n.earlyIDs));
  }

  lemma EarlyWorkers(n: Cast)
    ensures DbEarly(n).workers == map[n.worker := Leasing(n)]
  {
  }

  lemma Dispatches(a: ID, b: ID)
    requires a != b
    ensures "dispatch_" + a != "dispatch_" + b
  {
    assert ("dispatch_" + a)[|"dispatch_"|..] == a && ("dispatch_" + b)[|"dispatch_"|..] == b;
  }

  lemma LateCommits(n: Cast)
    requires Proper(n)
    ensures CommitCommand(DbEarly(n), Order(n, n.late, Old(n), n.lateIDs)) == Ok(DbLate(n))
  {
    EarlyTasks(n);
    EarlyRecords(n);
    EarlyWorkers(n);
    Dispatches(n.lateIDs.command, n.earlyIDs.command);
    Accepted(DbEarly(n), Order(n, n.late, Old(n), n.lateIDs));
  }

  /** The early task runs on the worker, and the worker does not have it. */
  predicate Lost(n: Cast, db: Db) {
    && Holds(db.tasks, n.early, n.worker)
    && n.worker in db.workers && n.early !in db.workers[n.worker].currentTaskIDs
  }

  lemma LateLoses(n: Cast)
    requires Proper(n)
    ensures Lost(n, DbLate(n))
  {
    EarlyTasks(n);
    EarlyWorkers(n);
    CommandedTables(DbEarly(n), Order(n, n.late, Old(n), n.lateIDs));
  }

  // ---------------------------------------------------------------- steps

  lemma Begins(s: State, f: nat, call: Call)
    requires f !in s.flights
    ensures Next(s, s.(flights := s.flights[f := Flight(call, NOTHING)]), f, Begin(call))
  {
  }

  lemma Fetches(s: State, f: nat, load: Load, copies: Copies)
    requires f in s.flights && Loads(s.db, s.flights[f], load, copies)
    ensures Next(s, s.(flights := s.flights[f := s.flights[f].(copies := copies)]), f, Fetch(load, copies))
  {
  }

  lemma Does(s: State, f: nat, op: Direct, db': Db)
    requires !op.DoCreate? && PerformDirect(s.db, op, 0) == Ok(db')
    ensures Next(s, s.(db := db'), f, Do(op, 0))
  {
  }

  lemma Commits(s: State, f: nat, ids: Drawn, db': Db)
    requires f in s.flights && New(ids, s.issued) && Perform(s.db, s.flights[f], ids, 0) == Ok(db')
    ensures Next(s, State(db', Issue(ids, s.issued), s.flights - {f}), f, Commit(ids, 0))
  {
  }

  // ---------------------------------------------------------------- the run

  /** A run from one state to another in which only starts are called. */
  ghost predicate Leads(run: seq<State>, moves: seq<(nat, Action)>, from: State, to: State) {
    && IsRun(run, moves) && run[0] == from && run[|run| - 1] == to
    && forall i :: 0 <= i < |run| ==> OnlyStarts(run[i])
  }

  predicate OnlyStarts(s: State) {
    forall f :: f in s.flights ==> s.flights[f].call.StartCall?
  }

  lemma Extends(run: seq<State>, moves: seq<(nat, Action)>, from: State, to: State, f: nat, action: Action, s: State)
    requires Leads(run, moves, from, to) && Next(to, s, f, action) && OnlyStarts(s)
    ensures Leads(run + [s], moves + [(f, action)], from, s)
  {
    var run', moves' := run + [s], moves + [(f, action)];
    forall i | 0 <= i < |moves'| ensures Next(run'[i], run'[i + 1], moves'[i].0, moves'[i].1) {
      if i < |moves| {
        assert run'[i] == run[i] && run'[i + 1] == run[i + 1] && moves'[i] == moves[i];
      }
    }
  }

  const LATE: nat := 1
  const EARLY: nat := 2

  function Copied(n: Cast, task: ID, worker: Option<Worker>): Copies {
    NOTHING.(loaded := NOTHING.loaded.(task := Some(Waiting(n, task)), worker := worker))
  }

  function Start(task: ID, copies: Copies): Flight {
    Flight(StartCall(task, true), copies)
  }

  function Put(s: State, f: nat, flight: Flight): State {
    s.(flights := s.flights[f := flight])
  }

  lemma Fetched(run: seq<State>, moves: seq<(nat, Action)>, from: State, s: State, f: nat, load: Load, copies: Copies)
    returns (run': seq<State>, moves': seq<(nat, Action)>)
    requires Leads(run, moves, from, s) && f in s.flights && Loads(s.db, s.flights[f], load, copies)
    ensures Leads(run', moves', from, Put(s, f, s.flights[f].(copies := copies)))
  {
    var s' := Put(s, f, s.flights[f].(copies := copies));
    Fetches(s, f, load, copies);
    Extends(run, moves, from, s, f, Fetch(load, copies), s');
    run', moves' := run + [s'], moves + [(f, Fetch(load, copies))];
  }

  lemma Begun(run: seq<State>, moves: seq<(nat, Action)>, from: State, s: State, f: nat, task: ID)
    returns (run': seq<State>, moves': seq<(nat, Action)>)
    requires Leads(run, moves, from, s) && f !in s.flights
    ensures Leads(run', moves', from, Put(s, f, Start(task, NOTHING)))
  {
    Begins(s, f, StartCall(task, true));
    Extends(run, moves, from, s, f, Begin(StartCall(task, true)), Put(s, f, Start(task, NOTHING)));
    run', moves' := run + [Put(s, f, Start(task, NOTHING))], moves + [(f, Begin(StartCall(task, true)))];
  }

  /** A start reads its task and the worker. */
  lemma Reads(n: Cast, run: seq<State>, moves: seq<(nat, Action)>, from: State, s: State, f: nat, task: ID,
              worker: Worker)
    returns (run': seq<State>, moves': seq<(nat, Action)>, s': State)
    requires Leads(run, moves, from, s)
    requires f !in s.flights && task in s.db.tasks && s.db.tasks[task] == Waiting(n, task)
    requires n.worker in s.db.workers && s.db.workers[n.worker] == worker
    ensures Leads(run', moves', from, s') && s'.db == s.db && s'.issued == s.issued
    ensures s'.flights == s.flights[f := Start(task, Copied(n, task, Some(worker)))]
  {
    run', moves' := Begun(run, moves, from, s, f, task);
    s' := Put(s, f, Start(task, NOTHING));
    run', moves' := Fetched(run', moves', from, s', f, LoadTask(task), Copied(n, task, None));
    s' := Put(s', f, Start(task, Copied(n, task, None)));
    run', moves' := Fetched(run', moves', from, s', f, LoadWorker(n.worker), Copied(n, task, Some(worker)));
    s' := Put(s', f, Start(task, Copied(n, task, Some(worker))));
  }

  lemma Deletes(n: Cast)
    ensures DeleteWorker(Db0(n), n.worker) == Ok(WithoutWorker(n))
  {
    assert map[n.worker := Old(n)] - {n.worker} == map[];
  }

  lemma Registers(n: Cast)
    requires Proper(n)
    ensures Register(WithoutWorker(n), n.worker, [CODEX], true, [], 0) == Ok(WithWorker(n, Registered(n)))
  {
  }

  lemma Connects(n: Cast)
    ensures Reconfigure(WithWorker(n, Registered(n)), n.worker, ONLINE, [CODEX], true, [], 0)
            == Ok(WithWorker(n, Connected(n)))
  {
    assert map[n.worker := Registered(n)][n.worker := Connected(n)] == map[n.worker := Connected(n)];
  }

  /** A direct call is added to the run. */
  lemma Adds(run: seq<State>, moves: seq<(nat, Action)>, from: State, s: State, op: Direct, db': Db)
    returns (run': seq<State>, moves': seq<(nat, Action)>)
    requires Leads(run, moves, from, s) && !op.DoCreate? && PerformDirect(s.db, op, 0) == Ok(db')
    ensures Leads(run', moves', from, s.(db := db'))
  {
    Does(s, 0, op, db');
    Extends(run, moves, from, s, 0, Do(op, 0), s.(db := db'));
    run', moves' := run + [s.(db := db')], moves + [(0, Do(op, 0))];
  }

  lemma Leaves(n: Cast, run: seq<State>, moves: seq<(nat, Action)>, from: State, s: State)
    returns (run': seq<State>, moves': seq<(nat, Action)>)
    requires Leads(run, moves, from, s) && s.db == Db0(n)
    ensures Leads(run', moves', from, s.(db := WithoutWorker(n)))
  {
    Deletes(n);
    run', moves' := Adds(run, moves, from, s, DoDeleteWorker(n.worker), WithoutWorker(n));
  }

  lemma Comes(n: Cast, run: seq<State>, moves: seq<(nat, Action)>, from: State, s: State)
    returns (run': seq<State>, moves': seq<(nat, Action)>)
    requires Proper(n) && Leads(run, moves, from, s) && s.db == WithoutWorker(n)
    ensures Leads(run', moves', from, s.(db := WithWorker(n, Registered(n))))
  {
    Registers(n);
    run', moves' := Adds(run, moves, from, s, DoRegister(n.worker, [CODEX], true, []), WithWorker(n, Registered(n)));
  }

  lemma GoesOnline(n: Cast, run: seq<State>, moves: seq<(nat, Action)>, from: State, s: State)
    returns (run': seq<State>, moves': seq<(nat, Action)>)
    requires Leads(run, moves, from, s) && s.db == WithWorker(n, Registered(n))
    ensures Leads(run', moves', from, s.(db := WithWorker(n, Connected(n))))
  {
    Connects(n);
    run', moves' := Adds(run, moves, from, s,
                         DoReconfigure(n.worker, ONLINE, [CODEX], true, []), WithWorker(n, Connected(n)));
  }

  lemma Performs(db: Db, n: Cast, task: ID, read: Worker, ids: Drawn)
    requires Named(task, n.worker, ids) && n.worker != "" && (read == Old(n) || read == Connected(n))
    ensures Perform(db, Start(task, Copied(n, task, Some(read))), ids, 0)
            == CommitCommand(db, Order(n, task, read, ids))
  {
    Plans(n, task, read, ids);
  }

  /** A start that read the worker commits. */
  lemma Starts(n: Cast, run: seq<State>, moves: seq<(nat, Action)>, from: State, s: State, f: nat, task: ID,
               read: Worker, ids: Drawn, db': Db)
    returns (run': seq<State>, moves': seq<(nat, Action)>, s': State)
    requires Leads(run, moves, from, s) && Named(task, n.worker, ids) && n.worker != "" && New(ids, s.issued)
    requires (read == Old(n) || read == Connected(n)) && CommitCommand(s.db, Order(n, task, read, ids)) == Ok(db')
    requires f in s.flights && s.flights[f] == Start(task, Copied(n, task, Some(read)))
    ensures Leads(run', moves', from, s') && s'.db == db' && s'.issued == Issue(ids, s.issued)
    ensures s'.flights == s.flights - {f}
  {
    Performs(s.db, n, task, read, ids);
    Commits(s, f, ids, db');
    s' := State(db', Issue(ids, s.issued), s.flights - {f});
    Extends(run, moves, from, s, f, Commit(ids, 0), s');
    run', moves' := run + [s'], moves + [(f, Commit(ids, 0))];
  }

  function S0(n: Cast): State {
    State(Db0(n), Issued0(n), map[])
  }

  lemma NobodyHolds(n: Cast, tasks: Tasks)
    requires n.worker != "" && forall t :: t in tasks ==> !tasks[t].status.Active()
    ensures Leases(tasks, map[n.worker := Old(n)])
  {
    assert forall t, w :: !Holds(tasks, t, w);
  }

  lemma BeforeAll(n: Cast)
    requires Proper(n)
    ensures Before(Db0(n), {})
  {
    NobodyHolds(n, Db0(n).tasks);
  }

  lemma First(n: Cast)
    requires Proper(n)
    ensures Leads([S0(n)], [], S0(n), S0(n))
  {
    assert Initial(S0(n));
  }

  /** Both starts have read: the late one the worker that is gone, the early one the worker that took its id. */
  lemma BothRead(n: Cast) returns (run: seq<State>, moves: seq<(nat, Action)>, s: State)
    requires Proper(n)
    ensures Leads(run, moves, S0(n), s) && s.db == WithWorker(n, Connected(n))
    ensures s.issued == Issued0(n) && LATE in s.flights && EARLY in s.flights
    ensures s.flights[LATE] == Start(n.late, Copied(n, n.late, Some(Old(n))))
    ensures s.flights[EARLY] == Start(n.early, Copied(n, n.early, Some(Connected(n))))
  {
    First(n);
    run, moves, s := Reads(n, [S0(n)], [], S0(n), S0(n), LATE, n.late, Old(n));
    run, moves := Leaves(n, run, moves, S0(n), s);
    run, moves := Comes(n, run, moves, S0(n), s.(db := WithoutWorker(n)));
    run, moves := GoesOnline(n, run, moves, S0(n), s.(db := WithWorker(n, Registered(n))));
    s := s.(db := WithWorker(n, Connected(n)));
    run, moves, s := Reads(n, run, moves, S0(n), s, EARLY, n.early, Connected(n));
  }

  lemma EarlyDone(n: Cast, db': Db) returns (run: seq<State>, moves: seq<(nat, Action)>, s: State)
    requires Proper(n)
    requires CommitCommand(WithWorker(n, Connected(n)), Order(n, n.early, Connected(n), n.earlyIDs)) == Ok(db')
    ensures Leads(run, moves, S0(n), s) && s.db == db' && s.issued == Issue(n.earlyIDs, Issued0(n))
    ensures LATE in s.flights && s.flights[LATE] == Start(n.late, Copied(n, n.late, Some(Old(n))))
  {
    run, moves, s := BothRead(n);
    run, moves, s := Starts(n, run, moves, S0(n), s, EARLY, n.early, Connected(n), n.earlyIDs, db');
  }

  lemma LateDone(n: Cast, db: Db, db': Db) returns (run: seq<State>, moves: seq<(nat, Action)>, s: State)
    requires Proper(n)
    requires CommitCommand(WithWorker(n, Connected(n)), Order(n, n.early, Connected(n), n.earlyIDs)) == Ok(db)
    requires CommitCommand(db, Order(n, n.late, Old(n), n.lateIDs)) == Ok(db')
    ensures Leads(run, moves, S0(n), s) && s.db == db'
  {
    run, moves, s := EarlyDone(n, db);
    run, moves, s := Starts(n, run, moves, S0(n), s, LATE, n.late, Old(n), n.lateIDs, db');
  }

  lemma BothDone(n: Cast) returns (run: seq<State>, moves: seq<(nat, Action)>, s: State)
    requires Proper(n)
    ensures Leads(run, moves, S0(n), s) && Lost(n, s.db)
  {
    EarlyCommits(n);
    LateCommits(n);
    LateLoses(n);
    run, moves, s := LateDone(n, DbEarly(n), DbLate(n));
  }

  lemma OnlyStartsAreAimed(run: seq<State>, moves: seq<(nat, Action)>, from: State, to: State)
    requires Leads(run, moves, from, to)
    ensures forall j :: 0 <= j < |moves| ==>
                          AimedAt(run[j], moves[j].0, moves[j].1) && InformedAt(run[j], moves[j].0, moves[j].1)
  {
  }

  /** A lost lease. In an interleaving that meets every other condition of LeaseConservation, a task ends up active on a
      worker that does not have it. */
  lemma ReuseLosesLease(n: Cast) returns (run: seq<State>, moves: seq<(nat, Action)>)
    requires Proper(n)
    ensures IsRun(run, moves) && Before(run[0].db, {})
    ensures forall w :: w in run[0].db.workers ==> run[0].db.workers[w].version > 0
    ensures forall j :: 0 <= j < |moves| ==>
                          AimedAt(run[j], moves[j].0, moves[j].1) && InformedAt(run[j], moves[j].0, moves[j].1)
    ensures Lost(n, run[|moves|].db)
  {
    var s;
    run, moves, s := BothDone(n);
    BeforeAll(n);
    OnlyStartsAreAimed(run, moves, S0(n), s);
  }

  // ---------------------------------------------------------------- such names exist

  const CAST := Cast("t1", "t2", "w", Drawn("r1", "c1", "e1", "m1"), Drawn("r2", "c2", "e2", "m2"))

  lemma CastIsProper()
    ensures Proper(CAST)
  {
    NotBlank("t1");
    NotBlank("t2");
    NotBlank("w");
    NotBlank("r1");
    NotBlank("r2");
    NotBlank("c1");
    NotBlank("c2");
    NotBlank("e1");
    NotBlank("e2");
    Dispatches("c1", "c2");
  }
}
