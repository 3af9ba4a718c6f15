/** The Worker's tables and their transactions: worker/internal/a2astore/extensions.go and journal.go.
    One transaction is one function; every table belongs to one owner. */
module WorkerStore {
  import opened Bytes
  import opened Wrappers

  type ID = Text
  type Time = int

  // ---------------------------------------------------------------- tables

  /** An execution event; content stands for the rest of its JSON, valid for ValidateEvent. */
  datatype Event = Event(id: ID, executionID: ID, turn: int, sequence: int, occurredAt: Time, valid: bool,
                         content: Text)

  /** A row of the journal in index order; event is None when its JSON does not decode. */
  datatype Row = Row(executionID: ID, eventID: ID, createdAt: Time, event: Option<Event>)

  datatype TurnID = TurnID(executionID: ID, turn: int)

  /** turns are the execution turns named by the task's events and artifacts. */
  datatype Task = Task(contextID: ID, state: Text, terminal: bool, turns: set<TurnID>)

  datatype Resume = Resume(agentSessionID: Text, worktreePath: Text)

  /** valid stands for the field checks of ValidateRequest, rest for the other fields. */
  datatype Request = Request(commandID: ID, continues: bool, executionID: ID, localTaskID: ID, attempt: int, turn: int,
                             workerID: ID, agentType: Text, resume: Option<Resume>, valid: bool, rest: Text)

  /** The payload hash is taken as the request; request is None once it was compacted away. */
  datatype Command = Command(payload: Request, request: Option<Request>, taskID: ID, contextID: ID, executionID: ID,
                             createdAt: Time)

  datatype Binding = Binding(executionID: ID, localTaskID: ID, workerID: ID, taskID: ID, contextID: ID, attempt: int,
                             turn: int,
                             agentType: Text, agentSessionID: Text, worktreePath: Text, state: Text,
                             lastSequence: int, updatedAt: Time)

  datatype Tables = Tables(tasks: map<ID, Task>, commands: map<ID, Command>, bindings: map<ID, Binding>,
                           journal: seq<Row>)

  // ---------------------------------------------------------------- commands

  /** ReserveCommand: true when the reservation is new. */
  function Reserve(t: Tables, request: Request, now: Time): Result<(Tables, bool)> {
    if request.commandID in t.commands then
      var _ :- Require(t.commands[request.commandID].payload == request, Conflict);
      Ok((t, false))
    else
      Ok((t.(commands := t.commands[request.commandID := Command(request, Some(request), [], [], request.executionID,
                                                                 now)]), true))
  }

  /** BindCommand. */
  function Bind(t: Tables, request: Request, taskID: ID, contextID: ID): Result<Tables> {
    var _ :- Require(taskID != [] && contextID != [], Invalid);
    var _ :- Require(request.commandID in t.commands, NotFound);
    var command := t.commands[request.commandID];
    var _ :- Require(command.payload == request
                     && (command.taskID == [] || (command.taskID == taskID
                                                  && command.contextID == contextID)), Conflict);
    Ok(t.(commands := t.commands[request.commandID := command.(taskID := taskID, contextID := contextID)]))
  }

  // ---------------------------------------------------------------- bindings

  predicate Complete(b: Binding) {
    && b.executionID != [] && b.localTaskID != [] && b.workerID != [] && b.taskID != [] && b.contextID != []
    && b.attempt >= 1 && b.turn >= 1 && b.agentType != []
  }

  /** SaveBinding never touches the cursor of a binding that exists. */
  function SaveBinding(t: Tables, b: Binding, now: Time): Result<Tables> {
    var _ :- Require(Complete(b), Invalid);
    if b.executionID in t.bindings then
      var old' := t.bindings[b.executionID];
      var _ :- Require(old'.localTaskID == b.localTaskID && old'.workerID == b.workerID && old'.contextID == b.contextID
                       && old'.attempt == b.attempt && old'.agentType == b.agentType && old'.turn <= b.turn, Conflict);
      Ok(t.(bindings := t.bindings[b.executionID := old'.(
        taskID := b.taskID,
        turn := b.turn,
        agentSessionID := if b.agentSessionID == [] then old'.agentSessionID else b.agentSessionID,
        worktreePath := if b.worktreePath == [] then old'.worktreePath else b.worktreePath,
        state := b.state,
        updatedAt := now)]))
    else Ok(t.(bindings := t.bindings[b.executionID := b.(updatedAt := now)]))
  }

  // ---------------------------------------------------------------- the journal

  /** The index order of the journal: created_at, execution_id, event_id. */
  predicate Before(a: Row, b: Row) {
    || a.createdAt < b.createdAt
    || (a.createdAt == b.createdAt && Less(a.executionID, b.executionID))
    || (a.createdAt == b.createdAt && a.executionID == b.executionID && Less(a.eventID, b.eventID))
  }

  lemma BeforeTransitive(a: Row, b: Row, c: Row)
    requires Before(a, b) && Before(b, c)
    ensures Before(a, c)
  {
    LessIrreflexive(b.executionID);
    if a.createdAt == b.createdAt == c.createdAt {
      if a.executionID == b.executionID && b.executionID == c.executionID {
        LessTransitive(a.eventID, b.eventID, c.eventID);
      } else if Less(a.executionID, b.executionID) && Less(b.executionID, c.executionID) {
        LessTransitive(a.executionID, b.executionID, c.executionID);
      }
    }
  }

  lemma BeforeTotal(a: Row, b: Row)
    requires a.executionID != b.executionID || a.eventID != b.eventID
    ensures Before(a, b) || Before(b, a)
  {
    LessTotal(a.executionID, b.executionID);
    LessTotal(a.eventID, b.eventID);
  }

  lemma BeforeAsymmetric(a: Row, b: Row)
    requires Before(a, b)
    ensures !Before(b, a)
  {
    if Less(a.executionID, b.executionID) {
      LessAsymmetric(a.executionID, b.executionID);
    }
    if Less(a.eventID, b.eventID) {
      LessAsymmetric(a.eventID, b.eventID);
    }
    LessIrreflexive(a.executionID);
  }

  predicate Ordered(journal: seq<Row>) {
    forall i, j {:trigger Before(journal[i], journal[j])} :: 0 <= i < j < |journal| ==> Before(journal[i], journal[j])
  }

  function InsertRow(journal: seq<Row>, row: Row): seq<Row> {
    if journal == [] then [row]
    else if Before(row, journal[0]) then [row] + journal
    else [journal[0]] + InsertRow(journal[1..], row)
  }

  lemma {:induction false} InsertHas(journal: seq<Row>, row: Row, x: Row)
    ensures x in InsertRow(journal, row) <==> x in journal || x == row
  {
    if journal != [] && !Before(row, journal[0]) {
      InsertHas(journal[1..], row, x);
      assert journal == [journal[0]] + journal[1..];
    }
  }

  predicate IsRow(row: Row, executionID: ID, eventID: ID) {
    row.executionID == executionID && row.eventID == eventID
  }

  /** The position of the row with this primary key, or the length. */
  function Lookup(journal: seq<Row>, executionID: ID, eventID: ID): (i: nat)
    ensures i <= |journal|
    ensures i < |journal| ==> IsRow(journal[i], executionID, eventID)
    ensures i == |journal| ==> forall j :: 0 <= j < |journal| ==> !IsRow(journal[j], executionID, eventID)
  {
    if journal == [] then 0
    else if IsRow(journal[0], executionID, eventID) then 0
    else
      var i := Lookup(journal[1..], executionID, eventID);
      assert forall j :: 0 < j < |journal| ==> journal[j] == journal[1..][j - 1];
      i + 1
  }

  datatype Acceptance = ACCEPTED | DUPLICATE

  function RowOf(event: Event): Row {
    Row(event.executionID, event.id, event.occurredAt, Some(event))
  }

  /** The unique index on execution and sequence. */
  predicate SequenceUsed(journal: seq<Row>, executionID: ID, sequence: int) {
    exists i :: 0 <= i < |journal| && journal[i].executionID == executionID && journal[i].event.Some?
                && journal[i].event.value.sequence == sequence
  }

  /** AppendEvent, and appendJournalEventTx with the task's state: a known event is a duplicate if its content agrees,
      and a new one must continue the cursor of its binding. */
  function Append(t: Tables, event: Event, state: Option<Text>, now: Time): Result<(Tables, Acceptance)> {
    var _ :- Require(event.valid, Invalid);
    var i := Lookup(t.journal, event.executionID, event.id);
    if i < |t.journal| then
      var _ :- Require(t.journal[i].event == Some(event), Conflict);
      Ok((t, DUPLICATE))
    else
      var _ :- Require(event.executionID in t.bindings, NotFound);
      var b := t.bindings[event.executionID];
      var _ :- Require(event.sequence == b.lastSequence + 1
                       && !SequenceUsed(t.journal, event.executionID, event.sequence), Conflict);
      var moved := b.(lastSequence := event.sequence, updatedAt := now,
                      state := if state.Some? then state.value else b.state);
      Ok((t.(journal := InsertRow(t.journal, RowOf(event)), bindings := t.bindings[event.executionID := moved]),
          ACCEPTED))
  }

  /** The journal part of syncTaskEventTx: the events of one trigger in order, all or nothing. */
  function AppendAll(t: Tables, events: seq<Event>, state: Text, now: Time): Result<Tables> {
    if events == [] then Ok(t) else
      var before :- AppendAll(t, events[..|events| - 1], state, now);
      var after :- Append(before, events[|events| - 1], Some(state), now);
      Ok(after.0)
  }
}
