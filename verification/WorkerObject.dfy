/** The Worker's store as an object: worker/internal/a2astore. Each method is one transaction: it commits what its
    specification says or leaves every table alone. */
module WorkerObject {
  import opened Bytes
  import opened Wrappers
  import opened WorkerStore
  import C = Compaction
  import A = Acceptance
  import R = Recovery

  /** A row with a new key goes to its place in the index. */
  lemma {:induction false} InsertKeepsOrder(journal: seq<Row>, row: Row)
    requires Ordered(journal) && C.NoneIs(journal, row.executionID, row.eventID)
    ensures Ordered(InsertRow(journal, row))
  {
    if journal != [] {
      var head, tail := journal[0], journal[1..];
      assert !IsRow(head, row.executionID, row.eventID);
      BeforeTotal(head, row);
      TailOrdered(journal);
      forall i | 0 <= i < |tail| ensures Before(head, tail[i]) {
        assert Before(journal[0], journal[i + 1]);
      }
      if Before(row, head) {
        forall i | 0 <= i < |tail| ensures Before(row, tail[i]) {
          BeforeTransitive(row, head, tail[i]);
        }
        assert journal == [head] + tail;
        HeadOrdered(row, journal);
      } else {
        InsertKeepsOrder(tail, row);
        forall i | 0 <= i < |InsertRow(tail, row)| ensures Before(head, InsertRow(tail, row)[i]) {
          InsertHas(tail, row, InsertRow(tail, row)[i]);
        }
        HeadOrdered(head, InsertRow(tail, row));
      }
    }
  }

  lemma TailOrdered(journal: seq<Row>)
    requires Ordered(journal) && journal != []
    ensures Ordered(journal[1..])
  {
    forall i, j | 0 <= i < j < |journal[1..]| ensures Before(journal[1..][i], journal[1..][j]) {
      assert Before(journal[i + 1], journal[j + 1]);
    }
  }

  lemma HeadOrdered(head: Row, rest: seq<Row>)
    requires Ordered(rest) && forall i :: 0 <= i < |rest| ==> Before(head, rest[i])
    ensures Ordered([head] + rest)
  {
    forall i, j | 0 <= i < j < |[head] + rest| ensures Before(([head] + rest)[i], ([head] + rest)[j]) {
      if i > 0 {
        assert Before(rest[i - 1], rest[j - 1]);
      }
    }
  }

  lemma {:induction false} InsertKeepsUnique(journal: seq<Row>, row: Row)
    requires C.Unique(journal) && C.NoneIs(journal, row.executionID, row.eventID)
    ensures C.Unique(InsertRow(journal, row))
  {
    if journal != [] && !Before(row, journal[0]) {
      var head, tail := journal[0], journal[1..];
      TailUnique(journal);
      InsertKeepsUnique(tail, row);
      var rest := InsertRow(tail, row);
      forall i | 0 <= i < |rest| ensures !IsRow(head, rest[i].executionID, rest[i].eventID) {
        InsertHas(tail, row, rest[i]);
        if rest[i] != row {
          var k :| 0 <= k < |tail| && tail[k] == rest[i];
          assert !IsRow(journal[0], journal[k + 1].executionID, journal[k + 1].eventID);
        }
      }
      HeadUnique(head, rest);
    } else {
      HeadUnique(row, journal);
    }
  }

  lemma TailUnique(journal: seq<Row>)
    requires C.Unique(journal) && journal != []
    ensures C.Unique(journal[1..])
  {
    forall i, j | 0 <= i < j < |journal[1..]| ensures !IsRow(journal[1..][i], journal[1..][j].executionID,
                                                             journal[1..][j].eventID) {
      assert !IsRow(journal[i + 1], journal[j + 1].executionID, journal[j + 1].eventID);
    }
  }

  lemma HeadUnique(head: Row, rest: seq<Row>)
    requires C.Unique(rest) && forall i :: 0 <= i < |rest| ==> !IsRow(head, rest[i].executionID, rest[i].eventID)
    ensures C.Unique([head] + rest)
  {
    forall i, j | 0 <= i < j < |[head] + rest|
      ensures !IsRow(([head] + rest)[i], ([head] + rest)[j].executionID, ([head] + rest)[j].eventID)
    {
      if i > 0 {
        assert !IsRow(rest[i - 1], rest[j - 1].executionID, rest[j - 1].eventID);
      }
    }
  }

  lemma AppendKeepsJournal(t: Tables, event: Event, state: Option<Text>, now: Time)
    requires Ordered(t.journal) && C.Unique(t.journal) && Append(t, event, state, now).Ok?
    ensures Ordered(Append(t, event, state, now).value.0.journal)
            && C.Unique(Append(t, event, state, now).value.0.journal)
  {
    if Append(t, event, state, now).value.1.ACCEPTED? {
      InsertKeepsOrder(t.journal, RowOf(event));
      InsertKeepsUnique(t.journal, RowOf(event));
    }
  }

  lemma {:induction false} KeptIsUnique(journal: seq<Row>, n: nat, cutoff: Time, turns: set<TurnID>)
    requires C.Unique(journal) && n <= |journal|
    ensures C.Unique(C.Kept(journal, n, cutoff, turns))
  {
    if n > 0 {
      KeptIsUnique(journal, n - 1, cutoff, turns);
      C.OthersDiffer(journal, n - 1, cutoff, turns);
    }
  }

  class Store {
    var tasks: map<ID, Task>
    var commands: map<ID, Command>
    var bindings: map<ID, Binding>
    var journal: seq<Row>

    constructor ()
      ensures Valid() && View() == Tables(map[], map[], map[], [])
    {
      tasks, commands, bindings, journal := map[], map[], map[], [];
    }

    function View(): Tables
      reads this
    {
      Tables(tasks, commands, bindings, journal)
    }

    /** The journal is in index order and its key is unique. */
    ghost predicate Valid()
      reads this
    {
      Ordered(journal) && C.Unique(journal)
    }

    method ReserveCommand(request: Request, now: Time) returns (r: Result<bool>)
      modifies this`commands
      ensures match Reserve(old(View()), request, now)
              case Ok(done) => View() == done.0 && r == Ok(done.1)
              case Err(e) => View() == old(View()) && r == Err(e)
    {
      if request.commandID in commands {
        if commands[request.commandID].payload != request {
          return Err(Conflict);
        }
        return Ok(false);
      }
      commands := commands[request.commandID := Command(request, Some(request), [], [], request.executionID, now)];
      return Ok(true);
    }

    method BindCommand(request: Request, taskID: ID, contextID: ID) returns (r: Result<()>)
      modifies this`commands
      ensures match Bind(old(View()), request, taskID, contextID)
              case Ok(t) => View() == t && r.Ok?
              case Err(e) => View() == old(View()) && r == Err(e)
    {
      if taskID == [] || contextID == [] {
        return Err(Invalid);
      }
      if request.commandID !in commands {
        return Err(NotFound);
      }
      var command := commands[request.commandID];
      if command.payload != request || (command.taskID != []
                                        && (command.taskID != taskID || command.contextID != contextID)) {
        return Err(Conflict);
      }
      if command.taskID == [] {
        commands := commands[request.commandID := command.(taskID := taskID, contextID := contextID)];
      }
      return Ok(());
    }

    method SaveRuntimeBinding(b: Binding, now: Time) returns (r: Result<()>)
      modifies this`bindings
      ensures match SaveBinding(old(View()), b, now)
              case Ok(t) => View() == t && r.Ok?
              case Err(e) => View() == old(View()) && r == Err(e)
    {
      if !Complete(b) {
        return Err(Invalid);
      }
      if b.executionID !in bindings {
        bindings := bindings[b.executionID := b.(updatedAt := now)];
        return Ok(());
      }
      var existing := bindings[b.executionID];
      if existing.localTaskID != b.localTaskID || existing.workerID != b.workerID || existing.contextID != b.contextID
         || existing.attempt != b.attempt || existing.agentType != b.agentType || b.turn < existing.turn {
        return Err(Conflict);
      }
      var session := if b.agentSessionID == [] then existing.agentSessionID else b.agentSessionID;
      var worktree := if b.worktreePath == [] then existing.worktreePath else b.worktreePath;
      bindings := bindings[b.executionID := existing.(taskID := b.taskID, turn := b.turn, agentSessionID := session,
                                                      worktreePath := worktree, state := b.state, updatedAt := now)];
      return Ok(());
    }

    /** AppendEvent, and appendJournalEventTx when a state is given. */
    method AppendEvent(event: Event, state: Option<Text>, now: Time) returns (r: Result<Acceptance>)
      requires Valid()
      modifies this`bindings, this`journal
      ensures Valid()
      ensures match Append(old(View()), event, state, now)
              case Ok(done) => View() == done.0 && r == Ok(done.1)
              case Err(e) => View() == old(View()) && r == Err(e)
    {
      if !event.valid {
        return Err(Invalid);
      }
      var i := Lookup(journal, event.executionID, event.id);
      if i < |journal| {
        if journal[i].event != Some(event) {
          return Err(Conflict);
        }
        return Ok(DUPLICATE);
      }
      if event.executionID !in bindings {
        return Err(NotFound);
      }
      var b := bindings[event.executionID];
      if event.sequence != b.lastSequence + 1 || SequenceUsed(journal, event.executionID, event.sequence) {
        return Err(Conflict);
      }
      AppendKeepsJournal(View(), event, state, now);
      journal := InsertRow(journal, RowOf(event));
      var moved := b.(lastSequence := event.sequence, updatedAt := now);
      bindings := bindings[event.executionID := if state.Some? then moved.(state := state.value) else moved];
      return Ok(ACCEPTED);
    }

    /** syncTaskEventTx on the events of one trigger, in sequence order: all of them or none. */
    method SyncTaskEvents(events: seq<Event>, state: Text, now: Time) returns (r: Result<()>)
      requires Valid()
      modifies this`bindings, this`journal
      ensures Valid()
      ensures match AppendAll(old(View()), events, state, now)
              case Ok(t) => View() == t && r.Ok?
              case Err(_) => View() == old(View()) && r.Err?
    {
      var wasJournal, wasBindings := journal, bindings;
      for i := 0 to |events|
        invariant Valid() && AppendAll(old(View()), events[..i], state, now) == Ok(View())
      {
        assert events[..i + 1][..i] == events[..i];
        var done := AppendEvent(events[i], Some(state), now);
        if done.Err? {
          FailsEarly(old(View()), events, i + 1, state, now);
          journal, bindings := wasJournal, wasBindings;
          return Err(done.error);
        }
      }
      assert events[..|events|] == events;
      return Ok(());
    }

    /** The journal and command part of CompactBefore. */
    method CompactBefore(cutoff: Time) returns (r: Result<nat>)
      requires Valid()
      modifies this`journal, this`commands
      ensures Valid()
      ensures match A.Compact(old(View()), cutoff)
              case Ok(t) => View() == t && r == Ok(|old(journal)| - |journal|)
              case Err(_) => View() == old(View()) && r.Err?
    {
      var turns := C.RetentionTargets(View());
      if turns.Err? {
        return Err(turns.error);
      }
      var deleted, kept, visited := C.DeleteExpiredTerminalTurnEvents(journal, cutoff, turns.value);
      if deleted.Err? {
        return Err(deleted.error);
      }
      C.KeptStaysOrdered(journal, |journal|, cutoff, turns.value);
      KeptIsUnique(journal, |journal|, cutoff, turns.value);
      var compacted := map id | id in commands :: A.CompactCommand(View(), commands[id], cutoff);
      journal, commands := kept, compacted;
      return deleted;
    }

    method RecoverStartup(now: Time) returns (r: Result<R.Stats>)
      modifies this`bindings, this`commands
      ensures r.Ok? <==> R.AllRecoverable(old(View()))
      ensures r.Ok? ==> R.Recovered(old(View()), View(), now) && R.Counts(old(View()), View(), r.value)
      ensures r.Err? ==> View() == old(View())
    {
      var done := R.RecoverStartup(View(), now);
      if done.Err? {
        return Err(done.error);
      }
      bindings, commands := done.value.0.bindings, done.value.0.commands;
      return Ok(done.value.1);
    }
  }

  lemma {:induction false} FailsEarly(t: Tables, events: seq<Event>, n: nat, state: Text, now: Time)
    requires n <= |events| && AppendAll(t, events[..n], state, now).Err?
    ensures AppendAll(t, events, state, now).Err?
    decreases |events| - n
  {
    if n < |events| {
      assert events[..n + 1][..n] == events[..n];
      FailsEarly(t, events, n + 1, state, now);
    } else {
      assert events[..n] == events;
    }
  }
}
