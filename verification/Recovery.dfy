/** Startup recovery: RecoverStartup and its helpers in worker/internal/a2astore/maintenance.go, and the CONTINUE path
    of worker/internal/a2aruntime/runtime.go that it undoes. */
module Recovery {
  import opened Bytes
  import opened Wrappers
  import opened WorkerStore

  // ---------------------------------------------------------------- the interrupted CONTINUE of a binding

  predicate Orphan(t: Tables, b: Binding) {
    b.taskID !in t.tasks
  }

  /** The command is a stored CONTINUE for the binding's missing task. */
  predicate IsContinue(b: Binding, c: Command) {
    && c.executionID == b.executionID && c.taskID == b.taskID && c.contextID == b.contextID
    && c.request.Some? && c.request.value.continues
  }

  function Continues(t: Tables, b: Binding): set<ID> {
    set id | id in t.commands && IsContinue(b, t.commands[id])
  }

  /** The request is valid for the binding's worker and says what the binding says. Paths are compared as text. */
  predicate Agrees(b: Binding, q: Request) {
    && q.valid && q.workerID == b.workerID
    && q.executionID == b.executionID && q.localTaskID == b.localTaskID && q.attempt == b.attempt && q.turn == b.turn
    && q.agentType == b.agentType && q.resume.Some? && b.turn > 1
    && (b.agentSessionID != [] ==> q.resume.value.agentSessionID == b.agentSessionID)
    && (b.worktreePath != [] ==> q.resume.value.worktreePath == b.worktreePath)
  }

  ghost predicate Consistent(t: Tables, b: Binding) {
    && (forall id :: id in Continues(t, b) ==> Agrees(b, t.commands[id].request.value))
    && (forall x, y :: x in Continues(t, b) && y in Continues(t, b) ==> x == y)
  }

  /** interruptedContinueRequestTx. */
  method InterruptedContinueRequest(t: Tables, b: Binding) returns (r: Result<Option<Request>>)
    ensures r.Ok? <==> Consistent(t, b)
    ensures r.Ok? ==> (r.value.None? <==> Continues(t, b) == {})
    ensures r.Ok? && r.value.Some? ==> exists id :: id in Continues(t, b) && t.commands[id].request == r.value
  {
    var selected: Option<Request> := None;
    ghost var chosen: ID := [];
    var todo := t.commands.Keys;
    while todo != {}
      invariant todo <= t.commands.Keys
      invariant selected.None? ==> forall id :: id in Continues(t, b) ==> id in todo
      invariant selected.Some? ==>
                  chosen in Continues(t, b) && chosen !in todo && t.commands[chosen].request == selected
                  && Agrees(b, selected.value)
      invariant selected.Some? ==> forall id :: id in Continues(t, b) ==> id in todo || id == chosen
      decreases |todo|
    {
      var id :| id in todo;
      todo := todo - {id};
      var c := t.commands[id];
      if IsContinue(b, c) {
        assert id in Continues(t, b);
        if !Agrees(b, c.request.value) || selected.Some? {
          return Err(Conflict);
        }
        selected, chosen := c.request, id;
      }
    }
    return Ok(selected);
  }

  // ---------------------------------------------------------------- the task of the turn before

  /** A stored command of the binding's turn that is bound to a task. */
  predicate OpenedTurn(b: Binding, c: Command) {
    && c.executionID == b.executionID && c.contextID == b.contextID && c.taskID != []
    && c.request.Some? && c.request.value.executionID == b.executionID && c.request.value.localTaskID == b.localTaskID
    && c.request.value.workerID == b.workerID && c.request.value.attempt == b.attempt
    && c.request.value.turn == b.turn && c.request.value.agentType == b.agentType
  }

  /** A stored command of the turn before q, bound to another task than the binding's. */
  predicate OpenedPrevious(b: Binding, q: Request, c: Command) {
    OpenedTurn(b.(turn := q.turn - 1), c) && c.taskID != b.taskID
  }

  function CommandTasks(t: Tables, b: Binding, q: Request): set<ID> {
    set id | id in t.commands && OpenedPrevious(b, q, t.commands[id]) :: t.commands[id].taskID
  }

  predicate EndedInContext(b: Binding, task: Task) {
    task.contextID == b.contextID && task.terminal
  }

  predicate IsPrevious(t: Tables, b: Binding, q: Request, id: ID)
    requires id in t.tasks
  {
    EndedInContext(b, t.tasks[id])
    && (id in CommandTasks(t, b, q) || t.tasks[id].turns == {TurnID(b.executionID, q.turn - 1)})
  }

  function Previous(t: Tables, b: Binding, q: Request): set<ID> {
    set id | id in t.tasks && IsPrevious(t, b, q, id)
  }

  /** No ended task of the context names two turns. */
  predicate TurnsClear(t: Tables, b: Binding) {
    forall id :: id in t.tasks && EndedInContext(b, t.tasks[id]) ==> |t.tasks[id].turns| <= 1
  }

  /** previousTerminalTaskTx. */
  method PreviousTerminalTask(t: Tables, b: Binding, q: Request) returns (r: Result<ID>)
    ensures r.Ok? <==> TurnsClear(t, b) && exists id :: Previous(t, b, q) == {id}
    ensures r.Ok? ==> Previous(t, b, q) == {r.value}
  {
    var commandTasks := CommandTaskIDs(t, b, q);
    var candidates: set<ID> := {};
    var todo := t.tasks.Keys;
    while todo != {}
      invariant todo <= t.tasks.Keys
      invariant forall id :: id in t.tasks && id !in todo && EndedInContext(b, t.tasks[id]) ==> |t.tasks[id].turns| <= 1
      invariant forall id :: id in candidates <==> id in t.tasks && id !in todo && IsPrevious(t, b, q, id)
      decreases |todo|
    {
      var id :| id in todo;
      todo := todo - {id};
      var task := t.tasks[id];
      if EndedInContext(b, task) {
        if |task.turns| > 1 {
          return Err(Conflict);
        }
        if id in commandTasks || task.turns == {TurnID(b.executionID, q.turn - 1)} {
          candidates := candidates + {id};
        }
      }
    }
    assert candidates == Previous(t, b, q);
    if |candidates| != 1 {
      return Err(Conflict);
    }
    var id :| id in candidates;
    Single(candidates, id);
    return Ok(id);
  }

  lemma Single(s: set<ID>, x: ID)
    requires |s| == 1 && x in s
    ensures s == {x}
  {
    assert |s - {x}| == 0;
  }

  method CommandTaskIDs(t: Tables, b: Binding, q: Request) returns (ids: set<ID>)
    ensures ids == CommandTasks(t, b, q)
  {
    ids := {};
    var todo := t.commands.Keys;
    while todo != {}
      invariant todo <= t.commands.Keys
      invariant ids == set id | id in t.commands && id !in todo
                && OpenedPrevious(b, q, t.commands[id]) :: t.commands[id].taskID
      decreases |todo|
    {
      var id :| id in todo;
      todo := todo - {id};
      if OpenedPrevious(b, q, t.commands[id]) {
        ids := ids + {t.commands[id].taskID};
      }
    }
  }

  // ---------------------------------------------------------------- RecoverStartup

  /** The binding is not in the way: it has its task, or no CONTINUE, or exactly one with exactly one previous task. */
  ghost predicate Recoverable(t: Tables, b: Binding) {
    Orphan(t, b) ==>
      && Consistent(t, b)
      && (forall id :: id in Continues(t, b) ==>
                         TurnsClear(t, b) && exists p :: Previous(t, b, t.commands[id].request.value) == {p})
  }

  /** Every binding of the tables can be recovered. */
  ghost predicate AllRecoverable(t: Tables) {
    forall e :: e in t.bindings ==> Recoverable(t, t.bindings[e])
  }

  /** b is the binding before, b' after the rollback. */
  ghost predicate RolledBack(t: Tables, b: Binding, b': Binding, now: Time) {
    if !Orphan(t, b) || Continues(t, b) == {} then b' == b
    else exists id, p :: id in Continues(t, b) && p in t.tasks && t.commands[id].request.value.resume.Some?
                         && Previous(t, b, t.commands[id].request.value) == {p}
                         && b' == Restore(b, t.commands[id].request.value, p, t.tasks[p].state, now)
  }

  function Restore(b: Binding, q: Request, taskID: ID, state: Text, now: Time): Binding
    requires q.resume.Some?
  {
    b.(taskID := taskID, turn := q.turn - 1, agentSessionID := q.resume.value.agentSessionID,
       worktreePath := q.resume.value.worktreePath, state := state, updatedAt := now)
  }

  /** Commands without a stored task are freed. */
  function LiveCommands(t: Tables): map<ID, Command> {
    map id | id in t.commands && t.commands[id].taskID != [] && t.commands[id].taskID in t.tasks :: t.commands[id]
  }

  /** The bindings that are left: rolled back, or as they were. */
  ghost predicate Left(t: Tables, done: set<ID>, bindings: map<ID, Binding>, now: Time) {
    && (forall e :: e in bindings ==>
                      e in t.bindings && e in done && RolledBack(t, t.bindings[e], bindings[e], now)
                      && bindings[e].taskID in t.tasks)
    && (forall e :: e in t.bindings && e in done && e !in bindings ==>
                      Orphan(t, t.bindings[e]) && Continues(t, t.bindings[e]) == {})
  }

  ghost predicate Recovered(t: Tables, t': Tables, now: Time) {
    && t'.tasks == t.tasks && t'.journal == t.journal && t'.commands == LiveCommands(t)
    && Left(t, t.bindings.Keys, t'.bindings, now)
  }

  method RollBack(t: Tables, b: Binding, now: Time) returns (r: Result<Binding>)
    requires Orphan(t, b)
    ensures r.Ok? <==> Recoverable(t, b)
    ensures r.Ok? ==> RolledBack(t, b, r.value, now)
    ensures r.Ok? ==> (r.value.taskID in t.tasks <==> Continues(t, b) != {})
  {
    var request := InterruptedContinueRequest(t, b);
    if request.Err? {
      return Err(request.error);
    }
    if request.value.None? {
      return Ok(b);
    }
    ghost var id :| id in Continues(t, b) && t.commands[id].request == request.value;
    var q := request.value.value;
    var previous := PreviousTerminalTask(t, b, q);
    if previous.Err? {
      return Err(previous.error);
    }
    assert previous.value in Previous(t, b, q);
    return Ok(Restore(b, q, previous.value, t.tasks[previous.value].state, now));
  }

  /** rollbackInterruptedContinuesTx, and the deletion of what stays an orphan. */
  method RollBackAll(t: Tables, now: Time) returns (r: Result<map<ID, Binding>>)
    ensures r.Ok? <==> AllRecoverable(t)
    ensures r.Ok? ==> Left(t, t.bindings.Keys, r.value, now)
  {
    var bindings: map<ID, Binding> := map[];
    var todo := t.bindings.Keys;
    while todo != {}
      invariant todo <= t.bindings.Keys
      invariant forall e :: e in t.bindings && e !in todo ==> Recoverable(t, t.bindings[e])
      invariant Left(t, t.bindings.Keys - todo, bindings, now)
      decreases |todo|
    {
      var e :| e in todo;
      todo := todo - {e};
      if Orphan(t, t.bindings[e]) {
        var done := RollBack(t, t.bindings[e], now);
        if done.Err? {
          return Err(done.error);
        }
        if done.value.taskID in t.tasks {
          bindings := bindings[e := done.value];
        }
      } else {
        bindings := bindings[e := t.bindings[e]];
      }
    }
    return Ok(bindings);
  }

  /** StartupRecoveryStats: how many rows recovery deleted. */
  datatype Stats = Stats(commands: nat, bindings: nat)

  predicate Counts(t: Tables, t': Tables, stats: Stats) {
    && stats.commands == |t.commands.Keys - t'.commands.Keys|
    && stats.bindings == |t.bindings.Keys - t'.bindings.Keys|
  }

  /** RecoverStartup: it succeeds exactly when no binding is in the way, and then every orphan is rolled back or gone.
      */
  method RecoverStartup(t: Tables, now: Time) returns (r: Result<(Tables, Stats)>)
    ensures r.Ok? <==> AllRecoverable(t)
    ensures r.Ok? ==> Recovered(t, r.value.0, now) && Counts(t, r.value.0, r.value.1)
  {
    var left := RollBackAll(t, now);
    if left.Err? {
      return Err(left.error);
    }
    var after := t.(bindings := left.value, commands := LiveCommands(t));
    return Ok((after, Stats(|t.commands.Keys - after.commands.Keys|, |t.bindings.Keys - after.bindings.Keys|)));
  }

  // ---------------------------------------------------------------- a CONTINUE up to the crash

  /** ValidateWorktreePath: the real path inside the work directory, or None, as for the empty path. */
  type Resolver = resolve: Text -> Option<Text> | resolve([]) == None witness (_: Text) => None

  /** validateResume. */
  predicate ResumeValid(resolve: Resolver, q: Request, b: Binding, contextID: ID) {
    && q.resume.Some? && resolve(q.resume.value.worktreePath).Some? && resolve(b.worktreePath).Some?
    && resolve(q.resume.value.worktreePath) == resolve(b.worktreePath)
    && q.resume.value.agentSessionID == b.agentSessionID && contextID == b.contextID
    && q.turn == b.turn + 1 && q.attempt == b.attempt
  }

  /** The text "SUBMITTED". */
  const SUBMITTED: Text := [83, 85, 66, 77, 73, 84, 84, 69, 68]

  /** Begin for a CONTINUE, up to its SaveBinding. */
  function BeginContinue(resolve: Resolver, t: Tables, q: Request, workerID: ID, taskID: ID, contextID: ID,
                         now: Time): Result<Tables> {
    var _ :- Require(q.valid && q.workerID == workerID && q.continues, Invalid);
    var _ :- Require(q.executionID in t.bindings, NotFound);
    var existing := t.bindings[q.executionID];
    var _ :- Require(ResumeValid(resolve, q, existing, contextID), Conflict);
    SaveBinding(t, Binding(q.executionID, q.localTaskID, workerID, taskID, contextID, q.attempt, q.turn, q.agentType,
                           existing.agentSessionID, existing.worktreePath, SUBMITTED, existing.lastSequence, now), now)
  }

  /** Reserve, bind, begin: the tables when the Worker stops before the Task exists. */
  function Interrupted(resolve: Resolver, t: Tables, q: Request, workerID: ID, taskID: ID, contextID: ID,
                       now: Time): Result<Tables> {
    var reserved :- Reserve(t, q, now);
    var _ :- Require(reserved.1, Conflict);
    var bound :- Bind(reserved.0, q, taskID, contextID);
    BeginContinue(resolve, bound, q, workerID, taskID, contextID, now)
  }

  /** Bindings are stored under their execution, and SaveBinding refuses a turn below one. */
  predicate Stored(t: Tables) {
    forall e :: e in t.bindings ==> t.bindings[e].executionID == e && t.bindings[e].turn >= 1
  }

  /** An ended task of the binding's turn: its events say so, or a stored command does. */
  predicate EndedTurn(t: Tables, b: Binding, id: ID) {
    && id in t.tasks && EndedInContext(b, t.tasks[id])
    && (t.tasks[id].turns == {TurnID(b.executionID, b.turn)}
        || exists c :: c in t.commands && OpenedTurn(b, t.commands[c]) && t.commands[c].taskID == id)
  }

  function TurnTasks(t: Tables, b: Binding): set<ID> {
    set id | id in t.tasks && EndedTurn(t, b, id)
  }

  predicate NewTask(t: Tables, taskID: ID) {
    taskID != [] && taskID !in t.tasks && (forall id :: id in t.commands ==> t.commands[id].taskID != taskID)
    && (forall e :: e in t.bindings ==> t.bindings[e].taskID != taskID)
  }

  /** What the interrupted CONTINUE left behind. */
  lemma WhatIsLeft(resolve: Resolver, t: Tables, q: Request, workerID: ID, taskID: ID, contextID: ID, now: Time,
                   t': Tables)
    requires Interrupted(resolve, t, q, workerID, taskID, contextID, now) == Ok(t')
    ensures q.executionID in t.bindings && q.commandID !in t.commands
    ensures ResumeValid(resolve, q, t.bindings[q.executionID], contextID)
    ensures var b := t.bindings[q.executionID];
            && t'.tasks == t.tasks && t'.journal == t.journal
            && t'.commands == t.commands[q.commandID := Command(q, Some(q), taskID, contextID, q.executionID, now)]
            && t'.bindings == t.bindings[q.executionID := b.(taskID := taskID, turn := q.turn, state := SUBMITTED,
                                                             updatedAt := now)]
            && q.valid && q.continues && q.workerID == b.workerID && q.localTaskID == b.localTaskID
            && q.agentType == b.agentType
  {
  }

  lemma OnlyContinue(t: Tables, t': Tables, q: Request, taskID: ID, contextID: ID, now: Time, b': Binding)
    requires NewTask(t, taskID) && q.continues
    requires t'.commands == t.commands[q.commandID := Command(q, Some(q), taskID, contextID, q.executionID, now)]
    requires b'.taskID == taskID && b'.executionID == q.executionID && b'.contextID == contextID
    ensures Continues(t', b') == {q.commandID}
  {
    forall id | id in t'.commands && IsContinue(b', t'.commands[id]) ensures id == q.commandID {
    }
  }

  /** What the lookup finds after the interrupted CONTINUE are the ended tasks of the binding's turn before it. */
  lemma PreviousAreTurnTasks(t: Tables, t': Tables, q: Request, taskID: ID, contextID: ID, now: Time, b: Binding,
                             b': Binding)
    requires NewTask(t, taskID) && q.commandID !in t.commands && t'.tasks == t.tasks
    requires t'.commands == t.commands[q.commandID := Command(q, Some(q), taskID, contextID, q.executionID, now)]
    requires q.turn == b.turn + 1
             && b' == b.(taskID := taskID, turn := q.turn, state := b'.state, updatedAt := b'.updatedAt)
    ensures Previous(t', b', q) == TurnTasks(t, b) && (TurnsClear(t', b') <==> TurnsClear(t, b))
  {
    forall c | c in t.commands ensures OpenedPrevious(b', q, t'.commands[c]) <==> OpenedTurn(b, t.commands[c]) {
    }
    assert !OpenedPrevious(b', q, t'.commands[q.commandID]);
    forall id | id in t.tasks ensures IsPrevious(t', b', q, id) <==> EndedTurn(t, b, id) {
      if c :| c in t.commands && OpenedTurn(b, t.commands[c]) && t.commands[c].taskID == id {
        assert c in t'.commands && t'.commands[c].taskID in CommandTasks(t', b', q);
      }
    }
    assert TurnsClear(t', b') <==> TurnsClear(t, b);
  }

  /** The binding can be rolled back exactly when the request spells the worktree as the binding did, no ended task of
      the context names two turns, and exactly one ended task is of the binding's turn. All of it can be told before the
      CONTINUE. */
  lemma InterruptedRecoverableIff(resolve: Resolver, t: Tables, q: Request, workerID: ID, taskID: ID, contextID: ID,
                                  now: Time, t': Tables)
    requires Interrupted(resolve, t, q, workerID, taskID, contextID, now) == Ok(t') && Stored(t) && NewTask(t, taskID)
    ensures q.executionID in t'.bindings && q.executionID in t.bindings && q.resume.Some?
    ensures Recoverable(t', t'.bindings[q.executionID]) <==> CanUndo(t, q)
  {
    WhatIsLeft(resolve, t, q, workerID, taskID, contextID, now, t');
    var b, b' := t.bindings[q.executionID], t'.bindings[q.executionID];
    OnlyContinue(t, t', q, taskID, contextID, now, b');
    PreviousAreTurnTasks(t, t', q, taskID, contextID, now, b, b');
    assert b.worktreePath != [];
    assert Agrees(b', q) <==> q.resume.value.worktreePath == b.worktreePath;
    assert Orphan(t', b');
    assert t'.commands[q.commandID].request == Some(q);
    assert q.commandID in Continues(t', b');
    if |TurnTasks(t, b)| == 1 {
      var p :| p in TurnTasks(t, b);
      Single(TurnTasks(t, b), p);
    }
  }

  /** What the tables before a CONTINUE must say for recovery to undo it. */
  predicate CanUndo(t: Tables, q: Request)
    requires q.executionID in t.bindings && q.resume.Some?
  {
    var b := t.bindings[q.executionID];
    q.resume.value.worktreePath == b.worktreePath && TurnsClear(t, b) && |TurnTasks(t, b)| == 1
  }

  /** The other bindings are as recoverable as they were. */
  lemma OthersAsBefore(t: Tables, t': Tables, q: Request, c: Command, e: ID)
    requires q.commandID !in t.commands && t'.tasks == t.tasks && t'.commands == t.commands[q.commandID := c]
             && c.executionID == q.executionID
    requires e in t.bindings && t.bindings[e].executionID == e && e != q.executionID
    ensures Recoverable(t', t.bindings[e]) <==> Recoverable(t, t.bindings[e])
  {
    var b := t.bindings[e];
    assert Continues(t', b) == Continues(t, b);
    forall r: Request ensures Previous(t', b, r) == Previous(t, b, r) {
      assert CommandTasks(t', b, r) == CommandTasks(t, b, r) by {
        CommandTasksSame(t, t', q, c, b, r);
      }
    }
  }

  lemma CommandTasksSame(t: Tables, t': Tables, q: Request, c: Command, b: Binding, r: Request)
    requires q.commandID !in t.commands && t'.commands == t.commands[q.commandID := c] && c.executionID != b.executionID
    ensures CommandTasks(t', b, r) == CommandTasks(t, b, r)
  {
    forall x ensures x in CommandTasks(t', b, r) <==> x in CommandTasks(t, b, r) {
      if x in CommandTasks(t, b, r) {
        var id :| id in t.commands && OpenedPrevious(b, r, t.commands[id]) && t.commands[id].taskID == x;
        assert t'.commands[id] == t.commands[id];
      }
    }
  }

  /** Recovery after an interrupted CONTINUE succeeds exactly when the other bindings were recoverable before it and it
      can be undone. */
  lemma RecoverySucceedsIff(resolve: Resolver, t: Tables, q: Request, workerID: ID, taskID: ID, contextID: ID,
                            now: Time, t': Tables)
    requires Interrupted(resolve, t, q, workerID, taskID, contextID, now) == Ok(t') && Stored(t) && NewTask(t, taskID)
    ensures q.executionID in t.bindings && q.resume.Some?
    ensures AllRecoverable(t') <==>
              CanUndo(t, q) && forall e :: e in t.bindings && e != q.executionID ==> Recoverable(t, t.bindings[e])
  {
    InterruptedRecoverableIff(resolve, t, q, workerID, taskID, contextID, now, t');
    WhatIsLeft(resolve, t, q, workerID, taskID, contextID, now, t');
    forall e | e in t.bindings && e != q.executionID ensures Recoverable(t', t'.bindings[e]) <==>
      Recoverable(t, t.bindings[e]) {
      OthersAsBefore(t, t', q, t'.commands[q.commandID], e);
    }
  }

  /** Crash recovery undoes an interrupted CONTINUE: the binding has its turn, session, worktree and cursor back and
      stands on the one ended task of its turn, the command is free, and the same CONTINUE is accepted again. */
  lemma RecoveryUndoesContinue(resolve: Resolver, t: Tables, q: Request, workerID: ID, taskID: ID, contextID: ID,
                               now: Time, t': Tables,
                               later: Time, t'': Tables)
    requires Interrupted(resolve, t, q, workerID, taskID, contextID, now) == Ok(t') && Stored(t) && NewTask(t, taskID)
    requires AllRecoverable(t') && Recovered(t', t'', later)
    ensures q.executionID in t.bindings && q.executionID in t''.bindings
    ensures var b, b'' := t.bindings[q.executionID], t''.bindings[q.executionID];
            && TurnTasks(t, b) == {b''.taskID}
            && b'' == b.(taskID := b''.taskID, state := t.tasks[b''.taskID].state, updatedAt := later)
    ensures q.commandID !in t''.commands
    ensures ResumeValid(resolve, q, t''.bindings[q.executionID], contextID)
    ensures Interrupted(resolve, t'', q, workerID, taskID, contextID, later).Ok?
  {
    InterruptedRecoverableIff(resolve, t, q, workerID, taskID, contextID, now, t');
    WhatIsLeft(resolve, t, q, workerID, taskID, contextID, now, t');
    var e := q.executionID;
    PreviousAreTurnTasks(t, t', q, taskID, contextID, now, t.bindings[e], t'.bindings[e]);
    OnlyContinue(t, t', q, taskID, contextID, now, t'.bindings[e]);
    assert Recoverable(t', t'.bindings[e]);
    assert e in t''.bindings;
    var id, p :| id in Continues(t', t'.bindings[e]) && p in t'.tasks && t'.commands[id].request.value.resume.Some?
                 && Previous(t', t'.bindings[e], t'.commands[id].request.value) == {p}
                 && t''.bindings[e] == Restore(t'.bindings[e], t'.commands[id].request.value, p, t'.tasks[p].state,
                                               later);
    assert id == q.commandID && TurnTasks(t, t.bindings[e]) == {p};
    AcceptedAgain(resolve, t, q, workerID, taskID, contextID, now, t'', later);
  }

  /** The binding is restored to its own task exactly when that task is stored, has ended in its context, and is known
      to be of its turn by its events or by a stored command. */
  lemma OwnTaskRestoredIff(resolve: Resolver, t: Tables, q: Request, workerID: ID, taskID: ID, contextID: ID, now: Time,
                           t': Tables,
                           later: Time, t'': Tables)
    requires Interrupted(resolve, t, q, workerID, taskID, contextID, now) == Ok(t') && Stored(t) && NewTask(t, taskID)
    requires AllRecoverable(t') && Recovered(t', t'', later)
    ensures q.executionID in t.bindings && q.executionID in t''.bindings
    ensures var b := t.bindings[q.executionID];
            t''.bindings[q.executionID].taskID == b.taskID <==> EndedTurn(t, b, b.taskID)
  {
    RecoveryUndoesContinue(resolve, t, q, workerID, taskID, contextID, now, t', later, t'');
    var b := t.bindings[q.executionID];
    assert EndedTurn(t, b, b.taskID) <==> b.taskID in TurnTasks(t, b);
  }

  lemma AcceptedAgain(resolve: Resolver, t: Tables, q: Request, workerID: ID, taskID: ID, contextID: ID, now: Time,
                      t'': Tables, later: Time)
    requires Interrupted(resolve, t, q, workerID, taskID, contextID, now).Ok?
    requires q.commandID !in t''.commands && q.executionID in t''.bindings && q.executionID in t.bindings
    requires var b, b'' := t.bindings[q.executionID], t''.bindings[q.executionID];
             b'' == b.(taskID := b''.taskID, state := b''.state, updatedAt := later)
    ensures Interrupted(resolve, t'', q, workerID, taskID, contextID, later).Ok?
  {
  }

  /** A path spelled differently but resolving to the same worktree is accepted by Begin, and then blocks every later
      start. */
  lemma RespelledWorktreeBlocksStartup(resolve: Resolver, t: Tables, q: Request, workerID: ID, taskID: ID,
                                       contextID: ID, now: Time, t': Tables)
    requires Interrupted(resolve, t, q, workerID, taskID, contextID, now) == Ok(t') && Stored(t) && NewTask(t, taskID)
    requires q.executionID in t.bindings && q.resume.Some?
             && q.resume.value.worktreePath != t.bindings[q.executionID].worktreePath
    ensures !AllRecoverable(t')
  {
    InterruptedRecoverableIff(resolve, t, q, workerID, taskID, contextID, now, t');
  }

  // ---------------------------------------------------------------- an instance

  const E: ID := [1]
  const ENDED_TASK: ID := [2]
  const NEXT_TASK: ID := [3]
  const CONTEXT: ID := [4]
  const WORKER: ID := [5]
  const COMMAND: ID := [6]
  const LOCAL_TASK: ID := [7]
  const AGENT: Text := [8]
  const SESSION: Text := [9]

  /** "/w" and "/./w". */
  const PATH: Text := [47, 119]
  const RESPELLED: Text := [47, 46, 47, 119]

  /** "COMPLETED". */
  const COMPLETED: Text := [67, 79, 77, 80, 76, 69, 84, 69, 68]

  const START := Request([10], false, E, LOCAL_TASK, 1, 1, WORKER, AGENT, None, true, [])
  const ACCEPTED_EVENT := Event([11], E, 1, 1, 0, true, [])
  const TERMINAL_EVENT := Event([12], E, 1, 2, 1, true, [])
  const BOUND := Binding(E, LOCAL_TASK, WORKER, ENDED_TASK, CONTEXT, 1, 1, AGENT, SESSION, PATH, COMPLETED, 2, 1)
  const TABLES := Tables(
                    map[ENDED_TASK := Task(CONTEXT, COMPLETED, true, {TurnID(E, 1)})],
                    map[START.commandID := Command(START, Some(START), ENDED_TASK, CONTEXT, E, 0)],
                    map[E := BOUND],
                    [RowOf(ACCEPTED_EVENT), RowOf(TERMINAL_EVENT)])
  const REQUEST := Request(COMMAND, true, E, LOCAL_TASK, 1, 2, WORKER, AGENT, Some(Resume(SESSION, RESPELLED)), true,
                           [])

  const BEGUN := BOUND.(agentSessionID := [], worktreePath := [], state := SUBMITTED, lastSequence := 0, updatedAt := 0)

  /** A START: reserved, bound, begun. */
  function FirstBegin(): Result<Tables> {
    var reserved :- Reserve(Tables(map[], map[], map[], []), START, 0);
    var bound :- Bind(reserved.0, START, ENDED_TASK, CONTEXT);
    SaveBinding(bound, BEGUN, 0)
  }

  /** Then two events, with the workspace and the session saved in between; the task row is written with its events. */
  function FirstTurn(): Result<Tables> {
    var begun :- FirstBegin();
    var accepted :- Append(begun, ACCEPTED_EVENT, Some(SUBMITTED), 0);
    var running :- SaveBinding(accepted.0, BOUND, 0);
    var ended :- Append(running, TERMINAL_EVENT, Some(COMPLETED), 1);
    Ok(ended.0.(tasks := TABLES.tasks))
  }

  lemma FirstBeginLeaves()
    ensures FirstBegin() == Ok(Tables(map[], TABLES.commands, map[E := BEGUN], []))
  {
    var reserved := Reserve(Tables(map[], map[], map[], []), START, 0).value.0;
    var bound := Bind(reserved, START, ENDED_TASK, CONTEXT).value;
    assert bound.commands == TABLES.commands;
    assert SaveBinding(bound, BEGUN, 0).value.bindings == map[E := BEGUN];
  }

  lemma FirstTurnLeaves()
    ensures FirstTurn() == Ok(TABLES)
  {
    FirstBeginLeaves();
    FirstEvent(FirstBegin().value);
    SecondEvent(FirstEventLeaves());
  }

  function FirstEventLeaves(): Tables {
    Tables(map[], TABLES.commands, map[E := BOUND.(lastSequence := 1, updatedAt := 0)], [RowOf(ACCEPTED_EVENT)])
  }

  lemma FirstEvent(t: Tables)
    requires t == Tables(map[], TABLES.commands, map[E := BEGUN], [])
    ensures var accepted := Append(t, ACCEPTED_EVENT, Some(SUBMITTED), 0);
            accepted.Ok? && SaveBinding(accepted.value.0, BOUND, 0) == Ok(FirstEventLeaves())
  {
    var accepted := Append(t, ACCEPTED_EVENT, Some(SUBMITTED), 0).value.0;
    assert accepted == t.(journal := [RowOf(ACCEPTED_EVENT)], bindings := map[E := BEGUN.(lastSequence := 1)]);
    assert SaveBinding(accepted, BOUND, 0).value.bindings == FirstEventLeaves().bindings;
  }

  lemma SecondEvent(t: Tables)
    requires t.journal == [RowOf(ACCEPTED_EVENT)] && t.bindings == map[E := BOUND.(lastSequence := 1, updatedAt := 0)]
    ensures Append(t, TERMINAL_EVENT, Some(COMPLETED),
                   1) == Ok((t.(journal := TABLES.journal, bindings := TABLES.bindings), ACCEPTED))
  {
    assert ACCEPTED_EVENT.id[0] != TERMINAL_EVENT.id[0];
    assert Lookup(t.journal, E, TERMINAL_EVENT.id) == 1;
    assert !SequenceUsed(t.journal, E, 2);
    assert InsertRow(t.journal, RowOf(TERMINAL_EVENT)) == TABLES.journal;
    assert t.bindings[E := BOUND] == TABLES.bindings;
  }

  function RealPath(p: Text): Option<Text> {
    if p == PATH || p == RESPELLED then Some(PATH) else None
  }

  const REAL_PATH: Resolver := RealPath

  /** Turn 2 with the other spelling, up to the crash. */
  function SecondTurn(now: Time): Result<Tables> {
    Interrupted(REAL_PATH, TABLES, REQUEST, WORKER, NEXT_TASK, CONTEXT, now)
  }

  lemma RespelledIsAccepted(now: Time)
    ensures SecondTurn(now).Ok?
    ensures Stored(TABLES) && NewTask(TABLES, NEXT_TASK) && AllRecoverable(TABLES)
  {
    assert ENDED_TASK[0] != NEXT_TASK[0] && COMMAND[0] != START.commandID[0];
  }

  lemma RespelledIsBlocked(now: Time, t': Tables)
    requires SecondTurn(now) == Ok(t')
    ensures !AllRecoverable(t')
  {
    RespelledIsAccepted(now);
    assert |PATH| != |RESPELLED|;
    RespelledWorktreeBlocksStartup(REAL_PATH, TABLES, REQUEST, WORKER, NEXT_TASK, CONTEXT, now, t');
  }

  /** After a first turn, turn 2 is begun with the other spelling, and recovery refuses to start. */
  lemma RespelledInstance(now: Time)
    ensures FirstTurn() == Ok(TABLES) && AllRecoverable(TABLES)
    ensures SecondTurn(now).Ok? && !AllRecoverable(SecondTurn(now).value)
  {
    FirstTurnLeaves();
    RespelledIsAccepted(now);
    RespelledIsBlocked(now, SecondTurn(now).value);
  }
}
