/** Replay of a GetTask snapshot: emitA2ATask, emitA2ATerminalTask and emitExecutionEvents in
    manager/internal/httpapi/a2a_transport.go. */
module Snapshots {
  import opened Wrappers
  import opened Domain
  import opened Events
  import opened ManagerStore
  import opened Projection
  import opened Service
  import opened ManagerRuns
  import opened ExactlyOnce
  import opened Delivery
  import opened DeliveryRuns

  // ---------------------------------------------------------------- sorting by sequence

  /** Insert behind every event with the same or a smaller sequence. */
  function Insert(sorted: seq<Event>, event: Event): seq<Event> {
    if sorted != [] && sorted[|sorted| - 1].sequence > event.sequence then
      Insert(sorted[..|sorted| - 1], event) + [sorted[|sorted| - 1]]
    else sorted + [event]
  }

  function SortBySequence(events: seq<Event>): seq<Event> {
    if events == [] then [] else Insert(SortBySequence(events[..|events| - 1]), events[|events| - 1])
  }

  predicate Ascending(events: seq<Event>) {
    forall i, j :: 0 <= i < j < |events| ==> events[i].sequence <= events[j].sequence
  }

  lemma {:induction false} InsertAdds(sorted: seq<Event>, event: Event)
    ensures multiset(Insert(sorted, event)) == multiset(sorted) + multiset{event}
  {
    if sorted != [] && sorted[|sorted| - 1].sequence > event.sequence {
      InsertAdds(sorted[..|sorted| - 1], event);
      assert sorted == sorted[..|sorted| - 1] + [sorted[|sorted| - 1]];
    }
  }

  lemma {:induction false} InsertHas(sorted: seq<Event>, event: Event, e: Event)
    ensures e in Insert(sorted, event) <==> e in sorted || e == event
  {
    InsertAdds(sorted, event);
    assert e in Insert(sorted, event) <==> e in multiset(Insert(sorted, event));
  }

  lemma AscendingSnoc(sorted: seq<Event>, event: Event)
    requires Ascending(sorted) && forall e :: e in sorted ==> e.sequence <= event.sequence
    ensures Ascending(sorted + [event])
  {
  }

  lemma {:induction false} InsertSorts(sorted: seq<Event>, event: Event)
    requires Ascending(sorted)
    ensures Ascending(Insert(sorted, event))
  {
    if sorted != [] && sorted[|sorted| - 1].sequence > event.sequence {
      var front, last := sorted[..|sorted| - 1], sorted[|sorted| - 1];
      InsertSorts(front, event);
      forall e | e in Insert(front, event) ensures e.sequence <= last.sequence {
        InsertHas(front, event, e);
      }
      AscendingSnoc(Insert(front, event), last);
    } else {
      AscendingSnoc(sorted, event);
    }
  }

  /** The replay visits the same events in ascending order. */
  lemma {:induction false} SortBySequenceSorts(events: seq<Event>)
    ensures Ascending(SortBySequence(events)) && multiset(SortBySequence(events)) == multiset(events)
  {
    if events != [] {
      SortBySequenceSorts(events[..|events| - 1]);
      InsertSorts(SortBySequence(events[..|events| - 1]), events[|events| - 1]);
      InsertAdds(SortBySequence(events[..|events| - 1]), events[|events| - 1]);
      assert events == events[..|events| - 1] + [events[|events| - 1]];
    }
  }

  lemma SortBySequenceHas(events: seq<Event>, event: Event)
    ensures event in SortBySequence(events) <==> event in events
  {
    SortBySequenceSorts(events);
    assert event in SortBySequence(events) <==> event in multiset(SortBySequence(events));
    assert event in events <==> event in multiset(events);
  }

  // ---------------------------------------------------------------- what a snapshot hands to the projection

  /** The events decoded from the status message, the history and the artifacts of a remote task. */
  datatype Snapshot = Snapshot(taskID: ID, contextID: ID, status: RemoteStatus, statusEvents: seq<Event>,
                               historyEvents: seq<Event>,
                               artifactEvents: seq<Event>, artifacts: nat)
  {
    function All(): seq<Event> {
      statusEvents + historyEvents + artifactEvents
    }
  }

  predicate HasTerminal(events: seq<Event>) {
    exists e :: e in events && e.kind.EXECUTION_TERMINAL?
  }

  function NonTerminal(events: seq<Event>): seq<Event> {
    if events == [] then [] else
      NonTerminal(events[..|events| - 1])
      + if events[|events| - 1].kind.EXECUTION_TERMINAL? then [] else [events[|events| - 1]]
  }

  /** mapA2ATerminalEventStatus reads the key "status" only. */
  function TransportStatus(event: Event): RemoteStatus {
    var upper := UpperText(PayloadString(event.payload, ["status"]));
    if !event.kind.EXECUTION_TERMINAL? then UNSPECIFIED
    else if upper == "COMPLETED" then COMPLETED
    else if upper == "FAILED" then FAILED
    else if upper == "REJECTED" then REJECTED
    else if upper == "CANCELED" then CANCELED
    else UNSPECIFIED
  }

  /** emitExecutionEvents. */
  function EventUpdates(taskID: ID, contextID: ID, sorted: seq<Event>): seq<Update> {
    if sorted == [] then [] else
      EventUpdates(taskID, contextID, sorted[..|sorted| - 1])
      + [Update(taskID, contextID, NONE, sorted[|sorted| - 1].sequence, Some(sorted[|sorted| - 1]))]
  }

  /** A candidate beside the terminal event is an earlier event or a copy of it. */
  predicate Agrees(terminal: Event, candidate: Event) {
    if candidate.kind.EXECUTION_TERMINAL? then candidate == terminal else candidate.sequence < terminal.sequence
  }

  /** emitA2ATerminalTask. */
  function TerminalUpdates(snap: Snapshot, lastSequence: nat): Result<seq<Update>> {
    if !HasTerminal(snap.All()) then
      var _ :- Require(snap.status.REJECTED? && lastSequence == 0 && snap.All() == [] && snap.artifacts == 0, Conflict);
      Ok([Update(snap.taskID, snap.contextID, snap.status, 0, None)])
    else
      var _ :- Require(|snap.statusEvents| == 1 && snap.statusEvents[0].kind.EXECUTION_TERMINAL?, Conflict);
      var terminal := snap.statusEvents[0];
      var _ :- Require(TransportStatus(terminal) == snap.status, Conflict);
      var others := snap.historyEvents + snap.artifactEvents;
      var _ :- Require(forall e :: e in others ==> Agrees(terminal, e), Conflict);
      var _ :- Require(HasTerminal(snap.artifactEvents), Conflict);
      Ok(EventUpdates(snap.taskID, snap.contextID, SortBySequence(NonTerminal(others)))
         + [Update(snap.taskID, snap.contextID, snap.status, terminal.sequence, Some(terminal))])
  }

  /** emitA2ATask after the identity checks. */
  function SnapshotUpdates(snap: Snapshot, lastSequence: nat): Result<seq<Update>> {
    if snap.status.Terminal() then TerminalUpdates(snap, lastSequence)
    else
      var _ :- Require(!HasTerminal(snap.All()), Conflict);
      Ok(EventUpdates(snap.taskID, snap.contextID,
                      SortBySequence(snap.All())) + [Update(snap.taskID, snap.contextID, snap.status, 0, None)])
  }

  predicate Carries(updates: seq<Update>, event: Event) {
    exists k :: 0 <= k < |updates| && updates[k].event == Some(event)
  }

  lemma {:induction false} EventUpdatesCarry(taskID: ID, contextID: ID, sorted: seq<Event>, event: Event)
    requires event in sorted
    ensures Carries(EventUpdates(taskID, contextID, sorted), event)
  {
    var rest, last := sorted[..|sorted| - 1], sorted[|sorted| - 1];
    var updates := EventUpdates(taskID, contextID, sorted);
    if event == last {
      assert updates[|updates| - 1].event == Some(event);
    } else {
      assert sorted == rest + [last];
      EventUpdatesCarry(taskID, contextID, rest, event);
      var k :| 0 <= k < |updates| - 1 && EventUpdates(taskID, contextID, rest)[k].event == Some(event);
      assert updates[k].event == Some(event);
    }
  }

  lemma {:induction false} NonTerminalKeeps(events: seq<Event>, event: Event)
    requires event in events && !event.kind.EXECUTION_TERMINAL?
    ensures event in NonTerminal(events)
  {
    if event != events[|events| - 1] {
      assert events == events[..|events| - 1] + [events[|events| - 1]];
      NonTerminalKeeps(events[..|events| - 1], event);
    }
  }

  lemma CarriesMore(updates: seq<Update>, more: seq<Update>, event: Event)
    requires Carries(updates, event)
    ensures Carries(updates + more, event)
  {
    var k :| 0 <= k < |updates| && updates[k].event == Some(event);
    assert (updates + more)[k].event == Some(event);
  }

  /** A replay that is let through hands over every event of the snapshot. */
  lemma SnapshotCarriesAll(snap: Snapshot, lastSequence: nat, event: Event)
    requires SnapshotUpdates(snap, lastSequence).Ok? && event in snap.All()
    ensures Carries(SnapshotUpdates(snap, lastSequence).value, event)
  {
    var updates := SnapshotUpdates(snap, lastSequence).value;
    var others := snap.historyEvents + snap.artifactEvents;
    if !snap.status.Terminal() {
      SortBySequenceHas(snap.All(), event);
      EventUpdatesCarry(snap.taskID, snap.contextID, SortBySequence(snap.All()), event);
      CarriesMore(EventUpdates(snap.taskID, snap.contextID, SortBySequence(snap.All())), [updates[|updates| - 1]],
                  event);
    } else if event == snap.statusEvents[0] {
      assert updates[|updates| - 1].event == Some(event);
    } else {
      assert event in others && Agrees(snap.statusEvents[0], event);
      NonTerminalKeeps(others, event);
      SortBySequenceHas(NonTerminal(others), event);
      EventUpdatesCarry(snap.taskID, snap.contextID, SortBySequence(NonTerminal(others)), event);
      CarriesMore(EventUpdates(snap.taskID, snap.contextID, SortBySequence(NonTerminal(others))),
                  [updates[|updates| - 1]], event);
    }
  }

  // ---------------------------------------------------------------- the history of a round, part by part

  lemma {:induction false} EventsGrow(h: seq<Entry>, h': seq<Entry>)
    requires h <= h'
    ensures EventsOf(h) <= EventsOf(h')
    decreases |h'|
  {
    if |h| < |h'| {
      EventsGrow(h, h'[..|h'| - 1]);
    } else {
      assert h == h';
    }
  }

  /** The inbox and the cursor determine what is recorded. */
  lemma RecordedOnce(db: Db, o: Origin, h: seq<Entry>, h': seq<Entry>)
    requires Faithful(db, o, h) && Faithful(db, o, h')
    ensures EventsOf(h) == EventsOf(h')
  {
    var es, es' := EventsOf(h), EventsOf(h');
    forall j | 0 <= j < |es| ensures es[j] == es'[j] {
      assert db.inbox[(o.roundID, es[j].id)].event in es';
    }
  }

  lemma {:induction false} CalmPart(run: seq<State>, moves: seq<(nat, Action)>, o: Origin, E: seq<Event>,
                                    V: seq<Entry>, k: nat, n: nat, i: nat, quiet: bool)
    requires k <= n <= i <= |moves| && i <= |run| && CalmRun(run, moves, o, E, V, k, i, quiet)
    ensures CalmRun(run, moves, o, E, V, k, n, quiet) && CalmRun(run, moves, o, E, V, n, i, quiet)
    decreases i
  {
    if n < i {
      CalmPart(run, moves, o, E, V, k, n, i - 1, quiet);
    }
  }

  // ---------------------------------------------------------------- replaying

  /** The step commits the update to the round, and the commit is accepted. */
  ghost predicate Commits(s: State, f: nat, action: Action, o: Origin, update: Update) {
    && action.Commit? && f in s.flights && s.flights[f].call.Remote?
    && s.flights[f].call.roundID == o.roundID && s.flights[f].call.update == update
    && Perform(s.db, s.flights[f], action.ids, action.now).Ok?
  }

  /** The update is committed to the round between the steps k and i. */
  ghost predicate Handed(run: seq<State>, moves: seq<(nat, Action)>, o: Origin, k: nat, i: nat, update: Update) {
    exists n :: k <= n < i && n < |moves| && n < |run| && Commits(run[n], moves[n].0, moves[n].1, o, update)
  }

  /** The round's inbox has the event. */
  ghost predicate Has(db: Db, o: Origin, event: Event) {
    (o.roundID, event.id) in db.inbox && db.inbox[(o.roundID, event.id)].event == event
  }

  lemma HadIsRecorded(db: Db, o: Origin, h: seq<Entry>, event: Event)
    requires Faithful(db, o, h) && Has(db, o, event)
    ensures event in EventsOf(h)
  {
    assert db.inbox[(o.roundID, event.id)].event in EventsOf(h);
  }

  lemma AppliedRow(db: Db, c: ProjectionCommit, db': Db)
    requires CommitProjection(db, c) == Ok((db', APPLIED))
    ensures db'.inbox == if c.inbox.Some? then db.inbox[(c.inbox.value.roundID,
                                                         c.inbox.value.event.id) := c.inbox.value]
                         else db.inbox
  {
    AppliedInbox(db, c);
    ProjectedTables(db, c);
  }

  lemma DuplicateRow(db: Db, c: ProjectionCommit, db': Db)
    requires CommitProjection(db, c) == Ok((db', DUPLICATE))
    ensures db' == db && c.inbox.Some?
    ensures var key := (c.inbox.value.roundID, c.inbox.value.event.id);
            key in db.inbox && db.inbox[key].event == c.inbox.value.event
  {
  }

  /** After an accepted update its event is in the inbox, new or not. */
  lemma CommitLeavesRow(s: State, flight: Flight, ids: Drawn, now: Time, db': Db, o: Origin, event: Event)
    requires Linked(flight) && CopiesOK(s.db, s.issued, flight.copies) && Perform(s.db, flight, ids, now) == Ok(db')
    requires flight.call.Remote? && flight.call.roundID == o.roundID && flight.call.update.event == Some(event)
    ensures Has(db', o, event)
  {
    var loaded, update, dispatched := flight.copies.loaded, flight.call.update, flight.call.intentID.Some?;
    var c, d := RemoteIsCurrent(s.db, s.issued, flight, ids, now, db');
    PlanWrites(loaded, dispatched, update, now);
    PlanIsPaired(loaded, dispatched, update, now);
    if d.APPLIED? {
      AppliedRow(s.db, c, db');
    } else {
      DuplicateRow(s.db, c, db');
    }
  }

  lemma CommitHas(s: State, s': State, f: nat, action: Action, o: Origin, update: Update)
    requires Tidy(s) && Next(s, s', f, action) && Commits(s, f, action, o, update) && update.event.Some?
    ensures Has(s'.db, o, update.event.value)
  {
    CommitLeavesRow(s, s.flights[f], action.ids, action.now, s'.db, o, update.event.value);
  }

  lemma HandedHas(run: seq<State>, moves: seq<(nat, Action)>, o: Origin, k: nat, i: nat, update: Update)
    returns (n: nat)
    requires IsRun(run, moves) && LinesOwned(run[0].db) && Handed(run, moves, o, k, i, update) && update.event.Some?
    ensures k <= n <= i && n < |run| && Has(run[n].db, o, update.event.value)
  {
    var m :| k <= m < i && m < |moves| && m < |run| && Commits(run[m], moves[m].0, moves[m].1, o, update);
    RunIsTidy(run, moves, m);
    CommitHas(run[m], run[m + 1], moves[m].0, moves[m].1, o, update);
    n := m + 1;
  }

  lemma StaysRecorded(run: seq<State>, moves: seq<(nat, Action)>, o: Origin, h: seq<Entry>, E: seq<Event>,
                      V: seq<Entry>, k: nat, i: nat, quiet: bool, event: Event, h': seq<Entry>)
    requires IsRun(run, moves) && LinesOwned(run[0].db) && k <= i < |run| && Stands(run[k].db, o, h, E, V, quiet)
    requires CalmRun(run, moves, o, E, V, k, i, quiet) && event in EventsOf(h) && Faithful(run[i].db, o, h')
    ensures event in EventsOf(h')
  {
    var last := RunIsFaithful(run, moves, o, h, E, V, k, i, quiet);
    EventsGrow(h, last);
    RecordedOnce(run[i].db, o, last, h');
  }

  /** What is in the inbox somewhere between k and i is recorded at i. */
  lemma HadStaysRecorded(run: seq<State>, moves: seq<(nat, Action)>, o: Origin, h: seq<Entry>, E: seq<Event>,
                         V: seq<Entry>, k: nat, n: nat, i: nat, quiet: bool, event: Event, h': seq<Entry>)
    requires IsRun(run, moves) && LinesOwned(run[0].db) && k <= n <= i < |run| && Stands(run[k].db, o, h, E, V, quiet)
    requires CalmRun(run, moves, o, E, V, k, i, quiet) && Has(run[n].db, o, event) && Faithful(run[i].db, o, h')
    ensures event in EventsOf(h')
  {
    CalmPart(run, moves, o, E, V, k, n, i, quiet);
    var mid := RunIsFaithful(run, moves, o, h, E, V, k, n, quiet);
    HadIsRecorded(run[n].db, o, mid, event);
    StaysRecorded(run, moves, o, mid, E, V, n, i, quiet, event, h');
  }

  /** Every update of the snapshot is committed between k and i. */
  ghost predicate Replayed(run: seq<State>, moves: seq<(nat, Action)>, o: Origin, k: nat, i: nat,
                           updates: seq<Update>) {
    forall j :: 0 <= j < |updates| ==> Handed(run, moves, o, k, i, updates[j])
  }

  lemma RecordedIsBehindCursor(db: Db, o: Origin, h: seq<Entry>, e: Event)
    requires Faithful(db, o, h) && e in EventsOf(h)
    ensures e.sequence <= db.rounds[o.roundID].lastSequence
  {
  }

  lemma TerminalDecides(db: Db, o: Origin, h: seq<Entry>, terminal: Event)
    requires Faithful(db, o, h) && Settled(db, o, EventsOf(h)) && terminal in EventsOf(h)
    requires terminal.kind.EXECUTION_TERMINAL?
    ensures TerminalStatus(Some(terminal)).Terminal()
            && db.tasks[o.taskID].status == FinalStatus(TerminalStatus(Some(terminal)))
  {
    var i :| 0 <= i < |EventsOf(h)| && EventsOf(h)[i] == terminal;
  }

  lemma EventIsRecorded(run: seq<State>, moves: seq<(nat, Action)>, o: Origin, h: seq<Entry>, E: seq<Event>,
                        V: seq<Entry>, k: nat, i: nat, quiet: bool, snap: Snapshot, lastSequence: nat, e: Event,
                        h': seq<Entry>)
    requires IsRun(run, moves) && LinesOwned(run[0].db) && k <= i < |run| && Stands(run[k].db, o, h, E, V, quiet)
    requires CalmRun(run, moves, o, E, V, k, i, quiet) && Faithful(run[i].db, o, h')
    requires SnapshotUpdates(snap, lastSequence).Ok? && e in snap.All()
    requires Replayed(run, moves, o, k, i, SnapshotUpdates(snap, lastSequence).value)
    ensures e in EventsOf(h') && e.sequence <= run[i].db.rounds[o.roundID].lastSequence
  {
    var updates := SnapshotUpdates(snap, lastSequence).value;
    SnapshotCarriesAll(snap, lastSequence, e);
    var j :| 0 <= j < |updates| && updates[j].event == Some(e);
    var n := HandedHas(run, moves, o, k, i, updates[j]);
    HadStaysRecorded(run, moves, o, h, E, V, k, n, i, quiet, e, h');
    RecordedIsBehindCursor(run[i].db, o, h', e);
  }

  /** A snapshot whose updates are all committed, within any interleaved run, brings the round up to it: every event it
      contains is recorded, the cursor has passed it, and a terminal snapshot with its event has ended the task
      accordingly unless the task was moved on meanwhile. */
  lemma SnapshotCatchesUp(run: seq<State>, moves: seq<(nat, Action)>, o: Origin, h: seq<Entry>, E: seq<Event>,
                          V: seq<Entry>, k: nat, i: nat, quiet: bool, snap: Snapshot, lastSequence: nat)
    returns (h': seq<Entry>)
    requires IsRun(run, moves) && LinesOwned(run[0].db) && k <= i < |run| && Stands(run[k].db, o, h, E, V, quiet)
    requires CalmRun(run, moves, o, E, V, k, i, quiet) && SnapshotUpdates(snap, lastSequence).Ok?
    requires Replayed(run, moves, o, k, i, SnapshotUpdates(snap, lastSequence).value)
    ensures Stands(run[i].db, o, h', E, V, quiet) && h <= h'
    ensures forall e :: e in snap.All() ==>
                          e in EventsOf(h') && e.sequence <= run[i].db.rounds[o.roundID].lastSequence
    ensures quiet && HasTerminal(snap.All()) ==>
              snap.status.Terminal() && run[i].db.tasks[o.taskID].status == FinalStatus(snap.status)
  {
    h' := RunIsFaithful(run, moves, o, h, E, V, k, i, quiet);
    forall e | e in snap.All()
      ensures e in EventsOf(h') && e.sequence <= run[i].db.rounds[o.roundID].lastSequence
    {
      EventIsRecorded(run, moves, o, h, E, V, k, i, quiet, snap, lastSequence, e, h');
    }
    if quiet && HasTerminal(snap.All()) {
      TerminalIsAgreed(snap, lastSequence);
      assert snap.statusEvents[0] in snap.All();
      TerminalDecides(run[i].db, o, h', snap.statusEvents[0]);
    }
  }

  lemma UpperAgrees(event: Event)
    ensures TransportStatus(event).Terminal() ==> TerminalStatus(Some(event)) == TransportStatus(event)
  {
    if "status" !in event.payload.text {
      assert PayloadString(event.payload, ["status"]) == "";
    }
  }

  lemma TerminalIsAgreed(snap: Snapshot, lastSequence: nat)
    requires SnapshotUpdates(snap, lastSequence).Ok? && HasTerminal(snap.All())
    ensures snap.status.Terminal() && |snap.statusEvents| == 1 && snap.statusEvents[0].kind.EXECUTION_TERMINAL?
    ensures TerminalStatus(Some(snap.statusEvents[0])) == snap.status
  {
    UpperAgrees(snap.statusEvents[0]);
  }
}
