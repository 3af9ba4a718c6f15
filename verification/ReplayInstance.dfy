/** A run in which a replay ends the wrong turn: a task is started, prepares its worktree, completes, is continued, and
    then the terminal event of its first turn is delivered again. */
module ReplayInstance {
  import opened Wrappers
  import opened Domain
  import opened Events
  import opened ManagerStore
  import opened Projection
  import opened Service
  import opened ManagerRuns
  import opened TaskInvariants
  import opened ManagerInvariants
  import opened StaleReplay

  /** The names that occur in the run. */
  datatype Cast = Cast(task: ID, worker: ID, execution: ID, context: ID, remote: ID, start: Drawn, next: Drawn,
                       tree: string, text: string, ready: ID, last: Event)

  predicate Proper(n: Cast) {
    && !Blank(n.task) && !Blank(n.worker) && !Blank(n.execution) && !Blank(n.context) && !Blank(n.remote)
    && !Blank(n.start.round) && !Blank(n.start.command) && !Blank(n.next.round) && !Blank(n.next.command)
    && !Blank(n.tree) && !Blank(n.text) && n.ready != n.last.id && Ends(n, n.last)
    && n.start.execution == n.execution && n.start.round != n.next.round && n.start.command != n.next.command
  }

  /** The second event of the first turn: it completes the turn and names the agent's session. */
  predicate Ends(n: Cast, event: Event) {
    && event.Valid() && event.sequence == 2 && event.kind.EXECUTION_TERMINAL? && event.occurredAt == 0
    && event.scope == Scope(n.task, n.execution, 1, 1, n.worker)
    && TerminalStatus(Some(event)) == COMPLETED && !Blank(event.Session())
    && PayloadString(event.payload, ["result", "content"]) == ""
  }

  lemma NotEmpty(s: string)
    requires !Blank(s)
    ensures s != ""
  {
  }

  // ---------------------------------------------------------------- the task is assigned

  function Task0(n: Cast): Task {
    Task(n.task, ASSIGNED, false, "p", CODEX, n.worker, "", "", "", 1, 0)
  }

  function Worker0(n: Cast): Worker {
    Worker(n.worker, ONLINE, [CODEX], true, [], [], 1, 0)
  }

  function Db0(n: Cast): Db {
    EMPTY.(tasks := map[n.task := Task0(n)], workers := map[n.worker := Worker0(n)])
  }

  // ---------------------------------------------------------------- start

  function Task1(n: Cast): Task {
    Task0(n).(status := STARTING, version := 2)
  }

  function Worker1(n: Cast): Worker {
    Worker0(n).(currentTaskIDs := [n.task], version := 2)
  }

  function Round1(n: Cast): Round {
    Round(n.start.round, n.task, n.execution, 1, 1, START, n.worker, n.start.command, "", "", "", UNSPECIFIED, 0,
          None, None, None, None, "", "", false, 1, 0, 0, None)
  }

  function Intent1(n: Cast): Intent {
    Intent("dispatch_" + n.start.command, n.start.round, n.task, n.execution, n.worker, n.start.command, START,
           PENDING, 0, 0, None, None, "", "", 1, 0, 0)
  }

  function Commit1(n: Cast): CommandCommit {
    CommandCommit(Task1(n), 1, Some(Worker1(n)), 1, Round1(n), true, Intent1(n), None, [], false)
  }

  function Flight1(n: Cast): Flight {
    Flight(StartCall(n.task, true), Copies(Loaded(None, None, None, Some(Task0(n)), Some(Worker0(n)), None), None, []))
  }

  lemma Plan1(n: Cast)
    requires Proper(n)
    ensures PlanStart(Some(Task0(n)), None, Some(Worker0(n)), [], true, n.start, 0) == Ok(Commit1(n))
  {
    NotEmpty(n.worker);
    assert Worker0(n).CanAccept(CODEX, "p");
    assert Worker0(n).AssignTask(n.task, 0) == Ok(Worker1(n)) by {
      assert [] + [n.task] == [n.task];
    }
  }

  function Db1(n: Cast): Db {
    Db(map[n.task := Task1(n)], map[n.worker := Worker1(n)], map[n.start.round := Round1(n)],
       map[Intent1(n).id := Intent1(n)],
       map[], map[], [], [])
  }

  lemma Commits1(n: Cast)
    ensures CommitCommand(Db0(n), Commit1(n)) == Ok(Commanded(Db0(n), Commit1(n)))
  {
  }

  lemma Leaves1(n: Cast)
    ensures Commanded(Db0(n), Commit1(n)) == Db1(n)
  {
    var db := Commanded(Db0(n), Commit1(n));
    assert db.tasks == Db1(n).tasks && db.workers == Db1(n).workers && db.rounds == Db1(n).rounds
           && db.intents == Db1(n).intents;
  }

  lemma Reads1(n: Cast)
    ensures ReadNow(Db0(n), Flight1(n))
  {
  }

  lemma Step1(n: Cast)
    requires Proper(n)
    ensures Perform(Db0(n), Flight1(n), n.start, 0) == Ok(Db1(n))
  {
    Plan1(n);
    Commits1(n);
    Leaves1(n);
  }

  // ---------------------------------------------------------------- the dispatch is claimed

  function Sent1(n: Cast): Intent {
    Intent1(n).(status := SENDING, attemptCount := 1, lastAttemptAt := Some(0), version := 2)
  }

  function Claimed1(n: Cast): Db {
    Db1(n).(intents := map[Intent1(n).id := Sent1(n)])
  }

  function Claim1(n: Cast): Flight {
    Flight(ClaimCall(Intent1(n).id), Copies(Loaded(None, Some(Intent1(n)), None, None, None, None), None, []))
  }

  lemma StepClaim(n: Cast)
    ensures ReadNow(Db1(n), Claim1(n)) && Perform(Db1(n), Claim1(n), n.start, 0) == Ok(Claimed1(n))
  {
    assert Intent1(n).StartAttempt(0) == Ok(Sent1(n));
    assert PutIntent(Db1(n), Some(Sent1(n))).intents == Claimed1(n).intents;
  }

  // ---------------------------------------------------------------- the worktree is ready

  function Event1(n: Cast): Event {
    Event(n.ready, 1, WORKSPACE_READY, 0, Scope(n.task, n.execution, 1, 1, n.worker), Some(RuntimeInfo("", n.tree)),
          Payload(map[], None), true)
  }

  function Update1(n: Cast): Update {
    Update(n.remote, n.context, WORKING, 1, Some(Event1(n)))
  }

  function Task2(n: Cast): Task {
    Task1(n).(status := RUNNING, worktreePath := n.tree, version := 3)
  }

  function Round2(n: Cast): Round {
    Round1(n).(a2aTaskID := n.remote, contextID := n.context, remoteStatus := WORKING, lastSequence := 1,
               lastSyncedAt := Some(0),
               lastNetworkAt := Some(0), version := 3)
  }

  function Intent2(n: Cast): Intent {
    Sent1(n).(status := DELIVERED, completedAt := Some(0), version := 3)
  }

  function Row1(n: Cast): InboxRow {
    InboxRow(n.start.round, n.execution, Event1(n), 0)
  }

  function Commit2(n: Cast): ProjectionCommit {
    ProjectionCommit(Some(Row1(n)), Task2(n), 2, None, 0, Round2(n), 1, Some(Intent2(n)), 2, None, [], [], false)
  }

  function Flight2(n: Cast): Flight {
    Flight(Remote(n.start.round, Some(Intent1(n).id), Update1(n)),
           Copies(Loaded(Some(Round1(n)), Some(Sent1(n)), None, Some(Task1(n)), Some(Worker1(n)), None), None, []))
  }

  lemma Advance2(n: Cast)
    requires !Blank(n.remote) && !Blank(n.context) && n.remote != "" && n.context != ""
    ensures Advance(Round1(n), Some(Sent1(n)), None, Update1(n), 0)
            == Ok(Advanced(Round2(n), Admission(1, Some(Row1(n)), Some(Event1(n)))))
  {
    assert Bind(Round1(n), Some(Sent1(n)), Update1(n), 0).Ok?;
  }

  lemma Conduct2(n: Cast)
    requires !Blank(n.tree) && n.tree != ""
    ensures Conduct(Advanced(Round2(n), Admission(1, Some(Row1(n)), Some(Event1(n)))), Task1(n), None, WORKING, 0)
            == Ok(Business(Task2(n), Round2(n), None, [], []))
  {
    assert Task1(n).MarkRunning(n.tree, 0) == Ok(Task2(n));
  }

  lemma Plan2(n: Cast)
    requires !Blank(n.remote) && !Blank(n.context) && !Blank(n.tree)
    ensures Plan(Flight2(n).copies.loaded, true, Update1(n), 0) == Ok(Commit2(n))
  {
    NotEmpty(n.remote);
    NotEmpty(n.context);
    NotEmpty(n.tree);
    Advance2(n);
    Conduct2(n);
  }

  function Db2(n: Cast): Db {
    Db(map[n.task := Task2(n)], map[n.worker := Worker1(n)], map[n.start.round := Round2(n)],
       map[Intent1(n).id := Intent2(n)],
       map[(n.start.round, n.ready) := Row1(n)], map[], [], [])
  }

  lemma Commits2(n: Cast)
    requires n.execution != ""
    ensures CommitProjection(Claimed1(n), Commit2(n)) == Ok((Projected(Claimed1(n), Commit2(n)), APPLIED))
  {
  }

  lemma Leaves2(n: Cast)
    ensures Projected(Claimed1(n), Commit2(n)) == Db2(n)
  {
    var db := Projected(Claimed1(n), Commit2(n));
    assert db.tasks == Db2(n).tasks && db.rounds == Db2(n).rounds && db.intents == Db2(n).intents
           && db.inbox == Db2(n).inbox;
  }

  lemma Reads2(n: Cast)
    ensures ReadNow(Claimed1(n), Flight2(n))
  {
  }

  lemma Step2(n: Cast)
    requires Proper(n)
    ensures Perform(Claimed1(n), Flight2(n), n.start, 0) == Ok(Db2(n))
  {
    NotEmpty(n.execution);
    Plan2(n);
    Commits2(n);
    Leaves2(n);
  }

  // ---------------------------------------------------------------- the first turn completes

  function Update2(n: Cast): Update {
    Update(n.remote, n.context, COMPLETED, 2, Some(n.last))
  }

  function Task3(n: Cast): Task {
    Task2(n).(status := FINISHED, agentSessionID := n.last.Session(), version := 4)
  }

  function Worker3(n: Cast): Worker {
    Worker1(n).(currentTaskIDs := [], version := 3)
  }

  function Round3(n: Cast): Round {
    Round2(n).(remoteStatus := COMPLETED, lastSequence := 2, version := 4, completedAt := Some(0))
  }

  function Row2(n: Cast): InboxRow {
    InboxRow(n.start.round, n.execution, n.last, 0)
  }

  function Commit3(n: Cast): ProjectionCommit {
    ProjectionCommit(Some(Row2(n)), Task3(n), 3, Some(Worker3(n)), 2, Round3(n), 3, None, 0, None, [], [], true)
  }

  function Flight3(n: Cast): Flight {
    Flight(Remote(n.start.round, None, Update2(n)),
           Copies(Loaded(Some(Round2(n)), None, None, Some(Task2(n)), Some(Worker1(n)), None), None, []))
  }

  lemma Advance3(n: Cast)
    requires !Blank(n.remote) && !Blank(n.context) && n.remote != "" && n.context != "" && Ends(n, n.last)
    ensures Advance(Round2(n), None, None, Update2(n), 0)
            == Ok(Advanced(Round3(n), Admission(2, Some(Row2(n)), Some(n.last))))
  {
    NotEmpty(n.remote);
    NotEmpty(n.context);
    assert Bind(Round2(n), None, Update2(n), 0) == Ok(Round2(n));
  }

  lemma Conduct3(n: Cast)
    requires Ends(n, n.last) && n.last.Session() != ""
    ensures Conduct(Advanced(Round3(n), Admission(2, Some(Row2(n)), Some(n.last))), Task2(n), None, COMPLETED, 0)
            == Ok(Business(Task3(n), Round3(n), None, [], []))
  {
  }

  lemma Assemble3(n: Cast)
    requires Advance(Round2(n), None, None, Update2(n), 0)
             == Ok(Advanced(Round3(n), Admission(2, Some(Row2(n)), Some(n.last))))
    requires Conduct(Advanced(Round3(n), Admission(2, Some(Row2(n)), Some(n.last))), Task2(n), None, COMPLETED, 0)
             == Ok(Business(Task3(n), Round3(n), None, [], []))
    ensures Plan(Flight3(n).copies.loaded, false, Update2(n), 0) == Ok(Commit3(n))
  {
    assert Worker1(n).ReleaseTask(n.task, 0) == Worker3(n);
  }

  lemma Plan3(n: Cast)
    requires Proper(n)
    ensures Plan(Flight3(n).copies.loaded, false, Update2(n), 0) == Ok(Commit3(n))
  {
    NotEmpty(n.remote);
    NotEmpty(n.context);
    NotEmpty(n.last.Session());
    Advance3(n);
    Conduct3(n);
    Assemble3(n);
  }

  function Db3(n: Cast): Db {
    Db(map[n.task := Task3(n)], map[n.worker := Worker3(n)], map[n.start.round := Round3(n)],
       map[Intent1(n).id := Intent2(n)],
       map[(n.start.round, n.ready) := Row1(n), (n.start.round, n.last.id) := Row2(n)], map[], [], [])
  }

  lemma Commits3(n: Cast)
    requires n.execution != "" && n.ready != n.last.id && n.last.sequence == 2
    ensures CommitProjection(Db2(n), Commit3(n)) == Ok((Projected(Db2(n), Commit3(n)), APPLIED))
  {
  }

  lemma Leaves3(n: Cast)
    requires n.ready != n.last.id
    ensures Projected(Db2(n), Commit3(n)) == Db3(n)
  {
    var db := Projected(Db2(n), Commit3(n));
    assert db.tasks == Db3(n).tasks && db.workers == Db3(n).workers && db.rounds == Db3(n).rounds
           && db.inbox == Db3(n).inbox;
    assert db.interactions == map[];
  }

  lemma Reads3(n: Cast)
    requires n.ready != n.last.id
    ensures ReadNow(Db2(n), Flight3(n))
  {
  }

  lemma Step3(n: Cast)
    requires Proper(n)
    ensures Perform(Db2(n), Flight3(n), n.start, 0) == Ok(Db3(n))
  {
    NotEmpty(n.execution);
    Plan3(n);
    Commits3(n);
    Leaves3(n);
  }

  // ---------------------------------------------------------------- the task is continued

  function Task4(n: Cast): Task {
    Task3(n).(status := STARTING, version := 6)
  }

  function Worker4(n: Cast): Worker {
    Worker3(n).(currentTaskIDs := [n.task], version := 4)
  }

  function Second(n: Cast): Round {
    Round(n.next.round, n.task, n.execution, 1, 2, CONTINUE, n.worker, n.next.command, n.start.round, "", n.context,
          UNSPECIFIED, 2,
          None, None, None, None, "", "", false, 1, 0, 0, None)
  }

  function Intent4(n: Cast): Intent {
    Intent("dispatch_" + n.next.command, n.next.round, n.task, n.execution, n.worker, n.next.command, CONTINUE,
           PENDING, 0, 0, None, None, "", "", 1, 0, 0)
  }

  function Message4(n: Cast): Message {
    Message(OfCommand(n.next.message), n.task, "user", n.text, 0)
  }

  function Commit4(n: Cast): CommandCommit {
    CommandCommit(Task4(n), 4, Some(Worker4(n)), 3, Second(n), true, Intent4(n), None, [Message4(n)], false)
  }

  function Flight4(n: Cast): Flight {
    Flight(ContinueCall(n.task, n.text, true),
           Copies(Loaded(None, None, None, Some(Task3(n)), Some(Worker3(n)), None), None, [Round3(n)]))
  }

  lemma Lease4(n: Cast)
    requires !Blank(n.task)
    ensures Worker3(n).CanAccept(CODEX, "p") && Worker3(n).AssignTask(n.task, 0) == Ok(Worker4(n))
  {
    assert [] + [n.task] == [n.task];
  }

  lemma Opens4(n: Cast)
    requires !Blank(n.task) && !Blank(n.worker) && !Blank(n.execution) && !Blank(n.next.round) && !Blank(n.next.command)
    ensures NewRound(n.next.round, n.task, n.execution, 1, 2, CONTINUE, n.worker, n.next.command, n.start.round,
                     n.context, 2, 0)
            == Ok(Second(n))
    ensures NewIntent(Second(n), CONTINUE, n.next.command, 0) == Ok(Intent4(n))
  {
  }

  lemma Moves4(n: Cast)
    requires n.worker != "" && n.tree != "" && n.last.Session() != ""
    ensures Task3(n).AppendUserConversation(0) == Ok(Task3(n).Touch(0)) && Task3(n).Touch(0).Continue(0) == Ok(Task4(n))
  {
  }

  lemma Plan4(n: Cast)
    requires !Blank(n.text) && n.remote != "" && n.context != ""
    requires Worker3(n).CanAccept(CODEX, "p") && Worker3(n).AssignTask(n.task, 0) == Ok(Worker4(n))
    requires NewRound(n.next.round, n.task, n.execution, 1, 2, CONTINUE, n.worker, n.next.command, n.start.round,
                      n.context, 2, 0)
             == Ok(Second(n))
    requires NewIntent(Second(n), CONTINUE, n.next.command, 0) == Ok(Intent4(n))
    requires Task3(n).AppendUserConversation(0) == Ok(Task3(n).Touch(0))
             && Task3(n).Touch(0).Continue(0) == Ok(Task4(n))
    ensures PlanContinue(Some(Task3(n)), [Round3(n)], Some(Worker3(n)), n.text, true, n.next, 0) == Ok(Commit4(n))
  {
  }

  function Db4(n: Cast): Db {
    Db(map[n.task := Task4(n)], map[n.worker := Worker4(n)], map[n.start.round := Round3(n), n.next.round := Second(n)],
       map[Intent1(n).id := Intent2(n), Intent4(n).id := Intent4(n)],
       map[(n.start.round, n.ready) := Row1(n), (n.start.round, n.last.id) := Row2(n)], map[], [], [Message4(n)])
  }

  lemma OtherIntent(n: Cast)
    requires n.start.command != n.next.command
    ensures Intent1(n).id != Intent4(n).id
  {
    var a, b := "dispatch_" + n.start.command, "dispatch_" + n.next.command;
    assert a[9..] == n.start.command && b[9..] == n.next.command;
  }

  lemma Commits4(n: Cast)
    requires n.start.round != n.next.round && n.start.command != n.next.command
    ensures CommitCommand(Db3(n), Commit4(n)) == Ok(Commanded(Db3(n), Commit4(n)))
  {
    OtherIntent(n);
  }

  lemma Leaves4(n: Cast)
    requires n.start.round != n.next.round && n.start.command != n.next.command
    ensures Commanded(Db3(n), Commit4(n)) == Db4(n)
  {
    OtherIntent(n);
    var db := Commanded(Db3(n), Commit4(n));
    assert db.tasks == Db4(n).tasks && db.workers == Db4(n).workers && db.rounds == Db4(n).rounds
           && db.intents == Db4(n).intents;
  }

  lemma Reads4(n: Cast)
    ensures ReadNow(Db3(n), Flight4(n))
  {
    assert Db3(n).rounds[n.start.round] in [Round3(n)];
  }

  lemma Planned4(n: Cast)
    requires Proper(n)
    ensures PlanContinue(Some(Task3(n)), [Round3(n)], Some(Worker3(n)), n.text, true, n.next, 0) == Ok(Commit4(n))
  {
    NotEmpty(n.worker);
    NotEmpty(n.tree);
    NotEmpty(n.remote);
    NotEmpty(n.context);
    NotEmpty(n.last.Session());
    Lease4(n);
    Opens4(n);
    Moves4(n);
    Plan4(n);
  }

  lemma Performs4(n: Cast)
    requires PlanContinue(Some(Task3(n)), [Round3(n)], Some(Worker3(n)), n.text, true, n.next, 0) == Ok(Commit4(n))
    requires n.start.round != n.next.round && n.start.command != n.next.command
    ensures Perform(Db3(n), Flight4(n), n.next, 0) == Ok(Db4(n))
  {
    Commits4(n);
    Leaves4(n);
  }

  lemma Step4(n: Cast)
    requires Proper(n)
    ensures Perform(Db3(n), Flight4(n), n.next, 0) == Ok(Db4(n))
  {
    Planned4(n);
    Performs4(n);
  }

  // ---------------------------------------------------------------- the replay

  lemma Db4HasOneLive(n: Cast)
    requires n.start.round != n.next.round
    ensures OneLive(Db4(n).tasks, Db4(n).rounds, {}) && !Top(Db4(n).rounds, n.start.round)
  {
    var db := Db4(n);
    assert Later(db.rounds[n.next.round], db.rounds[n.start.round])
           && !Later(db.rounds[n.start.round], db.rounds[n.next.round]);
    assert LiveOK(db.tasks, db.rounds, n.start.round);
    assert LiveOK(db.tasks, db.rounds, n.next.round);
    assert db.rounds[n.next.round].Live() && HasLive(db.rounds, n.task);
  }

  lemma Db4HasLeases(n: Cast)
    requires n.worker != ""
    ensures Leases(Db4(n).tasks, Db4(n).workers)
  {
    assert LeaseOK(Db4(n).tasks, Worker4(n));
  }

  lemma Db4IsSuperseded(n: Cast)
    requires !Top(Db4(n).rounds, n.start.round) && n.start.round != n.next.round && n.ready != n.last.id
    requires !Blank(n.remote) && !Blank(n.context) && n.remote != "" && n.context != ""
    requires n.last.Valid() && TerminalStatus(Some(n.last)) == COMPLETED
    ensures Superseded(Db4(n), n.start.round, Row2(n))
  {
  }

  lemma Db0IsBefore(n: Cast)
    requires n.worker != ""
    ensures Before(Db0(n), {})
  {
    assert LeaseOK(Db0(n).tasks, Worker0(n));
  }

  lemma Db4IsReady(n: Cast)
    requires Proper(n)
    ensures Before(Db0(n), {}) && InOrder(Db4(n), {}) && Superseded(Db4(n), n.start.round, Row2(n))
  {
    NotEmpty(n.worker);
    NotEmpty(n.remote);
    NotEmpty(n.context);
    Db0IsBefore(n);
    Db4HasOneLive(n);
    Db4HasLeases(n);
    Db4IsSuperseded(n);
  }

  // ---------------------------------------------------------------- the run

  function Db5(n: Cast): Db
    requires Superseded(Db4(n), n.start.round, Row2(n))
  {
    var done := Perform(Db4(n), ReplayFlight(Db4(n), n.start.round, Row2(n)), n.next, 0);
    if done.Ok? then done.value else Db4(n)
  }

  function TwoTurns(n: Cast): seq<Db> {
    [Db0(n)] + [Db1(n)] + [Claimed1(n)] + [Db2(n)] + [Db3(n)] + [Db4(n)]
  }

  function TwoTurnMoves(n: Cast): seq<Move> {
    [] + [Whole(Flight1(n), n.start, 0)] + [Whole(Claim1(n), n.start, 0)] + [Whole(Flight2(n), n.start, 0)]
    + [Whole(Flight3(n), n.start, 0)] + [Whole(Flight4(n), n.next, 0)]
  }

  function ReplayMove(n: Cast): Move
    requires Superseded(Db4(n), n.start.round, Row2(n))
  {
    Whole(ReplayFlight(Db4(n), n.start.round, Row2(n)), n.next, 0)
  }

  lemma Takes1(n: Cast)
    requires Proper(n)
    ensures Takes(Db0(n), Db1(n), Whole(Flight1(n), n.start, 0))
    ensures Takes(Db1(n), Claimed1(n), Whole(Claim1(n), n.start, 0))
  {
    Reads1(n);
    Step1(n);
    StepClaim(n);
  }

  lemma Takes2(n: Cast)
    requires Proper(n)
    ensures Takes(Claimed1(n), Db2(n), Whole(Flight2(n), n.start, 0))
  {
    Reads2(n);
    Step2(n);
  }

  lemma Takes34(n: Cast)
    requires Proper(n)
    ensures Takes(Db2(n), Db3(n), Whole(Flight3(n), n.start, 0)) && Takes(Db3(n), Db4(n), Whole(Flight4(n), n.next, 0))
  {
    Reads3(n);
    Step3(n);
    Reads4(n);
    Step4(n);
  }

  lemma Takes5(n: Cast)
    requires InOrder(Db4(n), {}) && Superseded(Db4(n), n.start.round, Row2(n))
    ensures Takes(Db4(n), Db5(n), ReplayMove(n)) && !InOrder(Db5(n), {})
  {
    ReplayBreaksOneLive(Db4(n), {}, n.start.round, Row2(n), n.next, 0);
  }

  lemma OneMore(run: seq<Db>, moves: seq<Move>, db: Db, move: Move)
    requires IsAtomicRun(run, moves) && Takes(run[|run| - 1], db, move)
    ensures IsAtomicRun(run + [db], moves + [move])
  {
    var run', moves' := run + [db], moves + [move];
    forall i | 0 <= i < |moves'| ensures Takes(run'[i], run'[i + 1], moves'[i]) {
      if i < |moves| {
        assert run'[i] == run[i] && run'[i + 1] == run[i + 1] && moves'[i] == moves[i];
      } else {
        assert run'[i] == run[|run| - 1] && run'[i + 1] == db && moves'[i] == move;
      }
    }
  }

  lemma TwoMore(run: seq<Db>, moves: seq<Move>, a: Db, b: Db, first: Move, second: Move)
    requires IsAtomicRun(run, moves) && Takes(run[|run| - 1], a, first) && Takes(a, b, second)
    ensures IsAtomicRun(run + [a] + [b], moves + [first] + [second])
  {
    OneMore(run, moves, a, first);
    OneMore(run + [a], moves + [first], b, second);
  }

  lemma IsDispatched(n: Cast)
    requires Proper(n)
    ensures IsAtomicRun([Db0(n)] + [Db1(n)] + [Claimed1(n)],
                        [] + [Whole(Flight1(n), n.start, 0)] + [Whole(Claim1(n), n.start, 0)])
  {
    Takes1(n);
    TwoMore([Db0(n)], [], Db1(n), Claimed1(n), Whole(Flight1(n), n.start, 0), Whole(Claim1(n), n.start, 0));
  }

  lemma IsRunning(n: Cast)
    requires Proper(n)
    ensures IsAtomicRun([Db0(n)] + [Db1(n)] + [Claimed1(n)] + [Db2(n)],
                        [] + [Whole(Flight1(n), n.start, 0)] + [Whole(Claim1(n), n.start, 0)]
                        + [Whole(Flight2(n), n.start, 0)])
  {
    IsDispatched(n);
    Takes2(n);
    OneMore([Db0(n)] + [Db1(n)] + [Claimed1(n)], [] + [Whole(Flight1(n), n.start, 0)] + [Whole(Claim1(n), n.start, 0)],
            Db2(n), Whole(Flight2(n), n.start, 0));
  }

  lemma TwoTurnsAreARun(n: Cast)
    requires Proper(n)
    ensures IsAtomicRun(TwoTurns(n), TwoTurnMoves(n))
  {
    IsRunning(n);
    Takes34(n);
    TwoMore([Db0(n)] + [Db1(n)] + [Claimed1(n)] + [Db2(n)],
            [] + [Whole(Flight1(n), n.start, 0)] + [Whole(Claim1(n), n.start, 0)] + [Whole(Flight2(n), n.start, 0)],
            Db3(n), Db4(n), Whole(Flight3(n), n.start, 0), Whole(Flight4(n), n.next, 0));
  }

  lemma LastTurn(n: Cast)
    ensures TwoTurns(n)[|TwoTurns(n)| - 1] == Db4(n)
  {
  }

  lemma ReplayFollows(n: Cast)
    requires Superseded(Db4(n), n.start.round, Row2(n))
    requires Takes(Db4(n), Db5(n), ReplayMove(n)) && IsAtomicRun(TwoTurns(n), TwoTurnMoves(n))
    ensures IsAtomicRun(TwoTurns(n) + [Db5(n)], TwoTurnMoves(n) + [ReplayMove(n)])
  {
    LastTurn(n);
    OneMore(TwoTurns(n), TwoTurnMoves(n), Db5(n), ReplayMove(n));
  }

  /** From a store without rounds: the task is started, dispatched, runs, completes and is continued, everything is in
      order; then the replay of the first turn's terminal event is accepted, and the open second turn has no active
      task. */
  lemma ReplayEndsRunningTurn(n: Cast)
    requires Proper(n)
    ensures Superseded(Db4(n), n.start.round, Row2(n))
    ensures IsAtomicRun(TwoTurns(n) + [Db5(n)], TwoTurnMoves(n) + [ReplayMove(n)])
    ensures Before(Db0(n), {}) && InOrder(Db4(n), {}) && !InOrder(Db5(n), {})
  {
    Db4IsReady(n);
    Takes5(n);
    TwoTurnsAreARun(n);
    ReplayFollows(n);
  }

  // ---------------------------------------------------------------- such names exist

  const LAST := Event("v2", 2, EXECUTION_TERMINAL, 0, Scope("t", "e", 1, 1, "w"), Some(RuntimeInfo("s", "")),
                      Payload(map["status" := "COMPLETED"], None), true)
  const CAST := Cast("t", "w", "e", "x", "a", Drawn("r1", "c1", "e", "m1"), Drawn("r2", "c2", "e2", "m2"), "/tree",
                     "go", "v1", LAST)

  lemma UpperCompleted()
    ensures StatusFromText("COMPLETED") == COMPLETED
  {
    assert UpperText("ED") == "ED";
    assert UpperText("TED") == "TED";
    assert UpperText("ETED") == "ETED";
    assert UpperText("LETED") == "LETED";
    assert UpperText("PLETED") == "PLETED";
    assert UpperText("MPLETED") == "MPLETED";
    assert UpperText("OMPLETED") == "OMPLETED";
    assert UpperText("COMPLETED") == "COMPLETED";
  }

  lemma LastIsTerminal()
    ensures TerminalStatus(Some(LAST)) == COMPLETED
  {
    UpperCompleted();
  }

  lemma LastHasNoResult()
    ensures PayloadString(LAST.payload, ["result", "content"]) == ""
  {
    assert "result"[0] != "status"[0] && "content"[0] != "status"[0];
    assert ["result", "content"][1..] == ["content"] && ["content"][1..] == [];
  }

  lemma ShortNames()
    ensures !Blank("t") && !Blank("w") && !Blank("e") && !Blank("x") && !Blank("a") && !Blank("s")
  {
    NotBlank("t");
    NotBlank("w");
    NotBlank("e");
    NotBlank("x");
    NotBlank("a");
    NotBlank("s");
  }

  lemma LongNames()
    ensures !Blank("r1") && !Blank("c1") && !Blank("r2") && !Blank("c2") && !Blank("/tree") && !Blank("go")
    ensures "r1" != "r2" && "c1" != "c2" && "v1" != "v2"
  {
    NotBlank("r1");
    NotBlank("c1");
    NotBlank("r2");
    NotBlank("c2");
    NotBlank("/tree");
    NotBlank("go");
    assert "r1"[1] != "r2"[1] && "c1"[1] != "c2"[1] && "v1"[1] != "v2"[1];
  }

  lemma CastIsProper()
    ensures Proper(CAST)
  {
    ShortNames();
    LongNames();
    LastIsTerminal();
    LastHasNoResult();
  }
}
