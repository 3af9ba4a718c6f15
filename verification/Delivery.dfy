/** Delivery convergence: whatever the schedule of live events, duplicates, status updates and snapshot replays, what a
    round has projected is the fold of its event prefix. */
module Delivery {
  import opened Wrappers
  import opened Domain
  import opened Events
  import opened ManagerStore
  import opened Projection
  import opened Service
  import opened ManagerRuns
  import opened ExactlyOnce
  import opened ManagerInvariants

  // ---------------------------------------------------------------- the reference: folds over events

  datatype Diagnosis = Diagnosis(code: string, message: string, retryable: bool)

  function DiagnosisOf(round: Round): Diagnosis {
    Diagnosis(round.errorCode, round.errorMessage, round.retryable)
  }

  /** Diagnostics, and terminal events of a failure, update the diagnosis; blank entries keep the old ones. */
  function Learn(d: Diagnosis, event: Event): Diagnosis {
    var status := TerminalStatus(Some(event));
    if event.kind.EXECUTION_DIAGNOSTIC? || (event.kind.EXECUTION_TERMINAL? && (status.FAILED? || status.REJECTED?)) then
      var code := Trim(PayloadString(event.payload, ["errorCode"]));
      var message := Trim(PayloadString(event.payload, ["message"]));
      Diagnosis(if code != "" then code else d.code, if message != "" then message else d.message,
                if event.payload.retryable.Some? then event.payload.retryable.value else d.retryable)
    else d
  }

  /** What happens to a round: an event of it is recorded, or the Manager fails it on its own. */
  datatype Entry = Came(event: Event) | Ruled(code: string, message: string)

  /** A ruling replaces the diagnosis. */
  function Heed(d: Diagnosis, entry: Entry): Diagnosis {
    match entry
    case Came(event) => Learn(d, event)
    case Ruled(code, message) => Diagnosis(code, message, d.retryable)
  }

  function FoldDiagnosis(d: Diagnosis, h: seq<Entry>): Diagnosis {
    if h == [] then d else Heed(FoldDiagnosis(d, h[..|h| - 1]), h[|h| - 1])
  }

  /** The recorded events of a history. */
  function EventsOf(h: seq<Entry>): seq<Event> {
    if h == [] then [] else
      EventsOf(h[..|h| - 1]) + if h[|h| - 1].Came? then [h[|h| - 1].event] else []
  }

  /** The log lines of one event, given the diagnosis before it. */
  function LinesOf(roundID: ID, taskID: ID, d: Diagnosis, event: Event): seq<Log> {
    if event.kind.LOG_CHUNK? then
      [Log(OfEvent(roundID, event.id), taskID, StreamOf(event), ContentOf(event), event.occurredAt)]
    else if event.kind.EXECUTION_DIAGNOSTIC? then
      var after := Learn(d, event);
      [Log(OfEvent(roundID, event.id), taskID, "system", FormatDiagnostic(after.code, after.message), event.occurredAt)]
    else []
  }

  function LinesOfEntry(roundID: ID, taskID: ID, d: Diagnosis, entry: Entry): seq<Log> {
    if entry.Came? then LinesOf(roundID, taskID, d, entry.event) else []
  }

  function FoldLogs(roundID: ID, taskID: ID, d: Diagnosis, h: seq<Entry>): seq<Log> {
    if h == [] then [] else
      FoldLogs(roundID, taskID, d, h[..|h| - 1])
      + LinesOfEntry(roundID, taskID, FoldDiagnosis(d, h[..|h| - 1]), h[|h| - 1])
  }

  function SaidBy(roundID: ID, taskID: ID, event: Event): seq<Message> {
    if event.kind.CONVERSATION_MESSAGE? then
      [Message(OfEvent(roundID, event.id), taskID, RoleOf(event), ContentOf(event), event.occurredAt)]
    else []
  }

  function FoldMessages(roundID: ID, taskID: ID, es: seq<Event>): seq<Message> {
    if es == [] then [] else FoldMessages(roundID, taskID, es[..|es| - 1]) + SaidBy(roundID, taskID, es[|es| - 1])
  }

  // ---------------------------------------------------------------- what a round has projected

  function LogsOf(logs: seq<Log>, roundID: ID): seq<Log> {
    if logs == [] then [] else
      var log := logs[|logs| - 1];
      LogsOf(logs[..|logs| - 1], roundID) + if log.id.OfEvent? && log.id.roundID == roundID then [log] else []
  }

  function MessagesOf(messages: seq<Message>, roundID: ID): seq<Message> {
    if messages == [] then [] else
      var message := messages[|messages| - 1];
      MessagesOf(messages[..|messages| - 1], roundID) + if message.id.OfEvent?
      && message.id.roundID == roundID then [message] else []
  }

  lemma LogsOfAppend(logs: seq<Log>, more: seq<Log>, roundID: ID)
    requires |more| <= 1
    ensures LogsOf(logs + more, roundID) == LogsOf(logs, roundID) + LogsOf(more, roundID)
  {
    if more == [] {
      assert logs + more == logs;
    } else {
      assert (logs + more)[..|logs + more| - 1] == logs;
      assert more[..0] == [];
    }
  }

  lemma MessagesOfAppend(messages: seq<Message>, more: seq<Message>, roundID: ID)
    requires |more| <= 1
    ensures MessagesOf(messages + more, roundID) == MessagesOf(messages, roundID) + MessagesOf(more, roundID)
  {
    if more == [] {
      assert messages + more == messages;
    } else {
      assert (messages + more)[..|messages + more| - 1] == messages;
      assert more[..0] == [];
    }
  }

  // ---------------------------------------------------------------- one update

  /** What an update adds for a new event, and that it adds nothing otherwise. */
  ghost predicate Adds(before: Round, task: Task, c: ProjectionCommit) {
    var d := DiagnosisOf(before);
    match c.inbox
    case None => c.logs == [] && c.messages == [] && DiagnosisOf(c.round) == d
    case Some(row) =>
      && c.logs == LinesOf(before.id, task.id, d, row.event) && c.messages == SaidBy(before.id, task.id, row.event)
      && DiagnosisOf(c.round) == Learn(d, row.event)
  }

  lemma EventDiagnoses(task: Task, round: Round, event: Event, existing: Option<Interaction>, now: Time)
    requires ProjectEvent(task, round, event, existing, now).Ok?
    ensures DiagnosisOf(ProjectEvent(task, round, event, existing, now).value.round) == Learn(DiagnosisOf(round), event)
  {
    if !event.kind.EXECUTION_DIAGNOSTIC? && !event.kind.EXECUTION_TERMINAL? {
      PlainEventKeepsRound(task, round, event, existing, now);
    }
  }

  lemma EventLogs(task: Task, round: Round, event: Event, existing: Option<Interaction>, now: Time)
    requires ProjectEvent(task, round, event, existing, now).Ok?
    ensures ProjectEvent(task, round, event, existing,
                         now).value.logs == LinesOf(round.id, task.id, DiagnosisOf(round), event)
  {
  }

  lemma EventSays(task: Task, round: Round, event: Event, existing: Option<Interaction>, now: Time)
    requires ProjectEvent(task, round, event, existing, now).Ok?
    ensures ProjectEvent(task, round, event, existing, now).value.messages == SaidBy(round.id, task.id, event)
  {
  }

  lemma ProjectEventAdds(task: Task, round: Round, event: Event, existing: Option<Interaction>, now: Time)
    requires ProjectEvent(task, round, event, existing, now).Ok?
    ensures var b := ProjectEvent(task, round, event, existing, now).value;
            && b.logs == LinesOf(round.id, task.id, DiagnosisOf(round), event)
            && b.messages == SaidBy(round.id, task.id, event)
            && DiagnosisOf(b.round) == Learn(DiagnosisOf(round), event)
  {
    EventDiagnoses(task, round, event, existing, now);
    EventLogs(task, round, event, existing, now);
    EventSays(task, round, event, existing, now);
  }

  lemma AdvanceKeepsDiagnosis(round: Round, intent: Option<Intent>, seen: Option<InboxRow>, update: Update, now: Time)
    requires Advance(round, intent, seen, update, now).Ok?
    ensures DiagnosisOf(Advance(round, intent, seen, update, now).value.round) == DiagnosisOf(round)
  {
    BindKeeps(round, intent, update, now);
  }

  lemma PlanAdds(loaded: Loaded, dispatched: bool, update: Update, now: Time)
    requires Plan(loaded, dispatched, update, now).Ok?
    ensures Adds(loaded.round.value, loaded.task.value, Plan(loaded, dispatched, update, now).value)
  {
    var round, task := loaded.round.value, loaded.task.value;
    AdvanceMovesByOne(round, loaded.intent, loaded.seen, update, now);
    AdvanceKeepsDiagnosis(round, loaded.intent, loaded.seen, update, now);
    var advanced := Advance(round, loaded.intent, loaded.seen, update, now).value;
    if advanced.admission.news.Some? {
      ProjectEventAdds(task, advanced.round, advanced.admission.news.value, loaded.interaction, now);
    }
  }

  // ---------------------------------------------------------------- the invariant of a round

  /** The round was opened at cursor base with diagnosis d for task t. */
  datatype Origin = Origin(roundID: ID, taskID: ID, base: nat, d: Diagnosis)

  /** es are the recorded events of the round, in order, and nothing else. */
  ghost predicate Recorded(inbox: Inbox, o: Origin, es: seq<Event>) {
    && (forall i :: 0 <= i < |es| ==> es[i].sequence == o.base + 1 + i && (o.roundID, es[i].id) in inbox
                                      && inbox[(o.roundID, es[i].id)].event == es[i])
    && (forall k :: k in inbox && k.0 == o.roundID ==> k.1 == inbox[k].event.id && inbox[k].event in es)
  }

  /** What is stored of the round is the fold of its history. */
  ghost predicate Faithful(db: Db, o: Origin, h: seq<Entry>) {
    && o.roundID in db.rounds && db.rounds[o.roundID].id == o.roundID && db.rounds[o.roundID].taskID == o.taskID
    && o.taskID in db.tasks && db.tasks[o.taskID].id == o.taskID
    && db.rounds[o.roundID].lastSequence == o.base + |EventsOf(h)|
    && Recorded(db.inbox, o, EventsOf(h))
    && LogsOf(db.logs, o.roundID) == FoldLogs(o.roundID, o.taskID, o.d, h)
    && MessagesOf(db.messages, o.roundID) == FoldMessages(o.roundID, o.taskID, EventsOf(h))
    && DiagnosisOf(db.rounds[o.roundID]) == FoldDiagnosis(o.d, h)
  }

  lemma RecordNext(inbox: Inbox, o: Origin, es: seq<Event>, row: InboxRow)
    requires Recorded(inbox, o, es) && row.roundID == o.roundID && row.Sequence() == o.base + |es| + 1
    requires (o.roundID, row.event.id) !in inbox
    ensures Recorded(inbox[(o.roundID, row.event.id) := row], o, es + [row.event])
  {
    var inbox', es' := inbox[(o.roundID, row.event.id) := row], es + [row.event];
    forall k | k in inbox' && k.0 == o.roundID ensures k.1 == inbox'[k].event.id && inbox'[k].event in es' {
      if k != (o.roundID, row.event.id) {
        assert inbox[k].event in es;
      } else {
        assert es'[|es|] == row.event;
      }
    }
  }

  /** The tables a projection leaves, as far as deliveries look at them. */
  lemma ProjectedLines(db: Db, c: ProjectionCommit)
    ensures Projected(db, c).logs == db.logs + c.logs && Projected(db, c).messages == db.messages + c.messages
  {
  }

  lemma LinesAreOwn(roundID: ID, taskID: ID, d: Diagnosis, event: Event)
    ensures LogsOf(LinesOf(roundID, taskID, d, event), roundID) == LinesOf(roundID, taskID, d, event)
    ensures MessagesOf(SaidBy(roundID, taskID, event), roundID) == SaidBy(roundID, taskID, event)
  {
    var lines, said := LinesOf(roundID, taskID, d, event), SaidBy(roundID, taskID, event);
    if lines != [] {
      assert lines[..0] == [];
    }
    if said != [] {
      assert said[..0] == [];
    }
  }

  lemma FoldSnoc(o: Origin, h: seq<Entry>, entry: Entry)
    ensures FoldDiagnosis(o.d, h + [entry]) == Heed(FoldDiagnosis(o.d, h), entry)
    ensures FoldLogs(o.roundID, o.taskID, o.d, h + [entry])
            == FoldLogs(o.roundID, o.taskID, o.d, h)
               + LinesOfEntry(o.roundID, o.taskID, FoldDiagnosis(o.d, h), entry)
    ensures EventsOf(h + [entry]) == EventsOf(h) + if entry.Came? then [entry.event] else []
  {
    assert (h + [entry])[..|h + [entry]| - 1] == h;
  }

  lemma MessagesSnoc(o: Origin, es: seq<Event>, event: Event)
    ensures FoldMessages(o.roundID, o.taskID, es + [event])
            == FoldMessages(o.roundID, o.taskID, es) + SaidBy(o.roundID, o.taskID, event)
  {
    assert (es + [event])[..|es + [event]| - 1] == es;
  }

  lemma AppendedFold(db: Db, o: Origin, h: seq<Entry>, event: Event, logs: seq<Log>, messages: seq<Message>)
    requires LogsOf(db.logs, o.roundID) == FoldLogs(o.roundID, o.taskID, o.d, h)
    requires MessagesOf(db.messages, o.roundID) == FoldMessages(o.roundID, o.taskID, EventsOf(h))
    requires logs == LinesOf(o.roundID, o.taskID, FoldDiagnosis(o.d, h), event)
             && messages == SaidBy(o.roundID, o.taskID, event)
    ensures LogsOf(db.logs + logs, o.roundID) == FoldLogs(o.roundID, o.taskID, o.d, h + [Came(event)])
    ensures EventsOf(h + [Came(event)]) == EventsOf(h) + [event]
    ensures MessagesOf(db.messages + messages, o.roundID)
            == FoldMessages(o.roundID, o.taskID, EventsOf(h + [Came(event)]))
    ensures FoldDiagnosis(o.d, h + [Came(event)]) == Learn(FoldDiagnosis(o.d, h), event)
  {
    FoldSnoc(o, h, Came(event));
    MessagesSnoc(o, EventsOf(h), event);
    LinesAreOwn(o.roundID, o.taskID, FoldDiagnosis(o.d, h), event);
    LogsOfAppend(db.logs, logs, o.roundID);
    MessagesOfAppend(db.messages, messages, o.roundID);
  }

  /** The history after a projection. */
  function After(h: seq<Entry>, row: Option<InboxRow>): seq<Entry> {
    if row.Some? then h + [Came(row.value.event)] else h
  }

  lemma WrittenIsFaithful(db: Db, db': Db, o: Origin, h: seq<Entry>, c: ProjectionCommit)
    requires Faithful(db, o, h) && c.round.id == o.roundID && db.rounds[o.roundID].SameIdentity(c.round)
             && c.task.id == o.taskID
    requires Adds(db.rounds[o.roundID], db.tasks[o.taskID], c)
    requires c.inbox.None? ==> c.round.lastSequence == db.rounds[o.roundID].lastSequence
    requires c.inbox.Some? ==>
               Extends(db.rounds[o.roundID], c.round, c.inbox.value) && (o.roundID, c.inbox.value.event.id) !in db.inbox
    requires db'.rounds == db.rounds[c.round.id := c.round] && db'.tasks == db.tasks[c.task.id := c.task]
    requires db'.inbox == if c.inbox.Some? then db.inbox[(c.inbox.value.roundID,
                                                          c.inbox.value.event.id) := c.inbox.value] else db.inbox
    requires db'.logs == db.logs + c.logs && db'.messages == db.messages + c.messages
    ensures Faithful(db', o, After(h, c.inbox))
  {
    if c.inbox.Some? {
      RecordNext(db.inbox, o, EventsOf(h), c.inbox.value);
      AppendedFold(db, o, h, c.inbox.value.event, c.logs, c.messages);
    } else {
      assert db.logs + [] == db.logs && db.messages + [] == db.messages;
    }
  }

  lemma CommittedIsFaithful(db: Db, db': Db, o: Origin, h: seq<Entry>, loaded: Loaded, c: ProjectionCommit)
    requires Faithful(db, o, h) && loaded.round == Some(db.rounds[o.roundID])
             && loaded.task == Some(db.tasks[o.taskID])
    requires Writes(loaded, c) && Adds(loaded.round.value, loaded.task.value, c)
             && CommitProjection(db, c) == Ok((db', APPLIED))
    ensures Faithful(db', o, After(h, c.inbox))
  {
    AppliedInbox(db, c);
    ProjectedTables(db, c);
    ProjectedLines(db, c);
    WrittenIsFaithful(db, db', o, h, c);
  }

  lemma PlanRecordsItsEvent(loaded: Loaded, dispatched: bool, update: Update, now: Time)
    requires Plan(loaded, dispatched, update, now).Ok?
    ensures var c := Plan(loaded, dispatched, update, now).value;
            c.inbox.Some? ==> update.event == Some(c.inbox.value.event)
  {
    AdvanceMovesByOne(loaded.round.value, loaded.intent, loaded.seen, update, now);
  }

  // ---------------------------------------------------------------- the task follows the terminal event

  /** The task status a terminal remote status stands for. */
  function FinalStatus(status: RemoteStatus): TaskStatus
    requires status.Terminal()
  {
    match status
    case COMPLETED => FINISHED
    case CANCELED => INTERRUPTED
    case _ => BROKEN
  }

  ghost predicate Follows(round: Round, task: Task) {
    if round.remoteStatus.Terminal() then task.status == FinalStatus(round.remoteStatus) else task.status.Active()
  }

  ghost predicate Settled(db: Db, o: Origin, es: seq<Event>) {
    && o.roundID in db.rounds && o.taskID in db.tasks && Follows(db.rounds[o.roundID], db.tasks[o.taskID])
    && forall i :: 0 <= i < |es| && es[i].kind.EXECUTION_TERMINAL? ==>
                     db.rounds[o.roundID].remoteStatus.Terminal()
                     && db.rounds[o.roundID].remoteStatus == TerminalStatus(Some(es[i]))
  }

  lemma ConductEnds(advanced: Advanced, task: Task, interaction: Option<Interaction>, status: RemoteStatus, now: Time)
    requires Conduct(advanced, task, interaction, status, now).Ok? && task.status.Active() && status.Terminal()
    ensures Conduct(advanced, task, interaction, status, now).value.task.status == FinalStatus(status)
  {
    if advanced.admission.news.Some? {
      ProjectEventKeeps(task, advanced.round, advanced.admission.news.value, interaction, now);
    }
  }

  lemma PlanFollows(loaded: Loaded, dispatched: bool, update: Update, now: Time)
    requires Plan(loaded, dispatched, update, now).Ok? && Follows(loaded.round.value, loaded.task.value)
    ensures var c := Plan(loaded, dispatched, update, now).value; Follows(c.round, c.task)
  {
    PlanIsPlanned(loaded, dispatched, update, now);
    PlanIsPaired(loaded, dispatched, update, now);
    if loaded.task.value.status.Active() && update.status.Terminal() {
      var advanced := Advance(loaded.round.value, loaded.intent, loaded.seen, update, now).value;
      ConductEnds(advanced, loaded.task.value, loaded.interaction, update.status, now);
    }
  }

  lemma SettledAfter(db: Db, db': Db, o: Origin, h: seq<Entry>, c: ProjectionCommit, update: Update)
    requires Settled(db, o, EventsOf(h)) && Follows(c.round, c.task)
             && Paired(db.rounds[o.roundID], c.round, c.inbox, update)
    requires db'.rounds == db.rounds[o.roundID := c.round] && db'.tasks == db.tasks[o.taskID := c.task]
    ensures Settled(db', o, EventsOf(After(h, c.inbox)))
  {
    if c.inbox.Some? {
      FoldSnoc(o, h, Came(c.inbox.value.event));
    }
  }

  lemma CommittedSettles(db: Db, db': Db, o: Origin, h: seq<Entry>, loaded: Loaded, update: Update, c: ProjectionCommit)
    requires Faithful(db, o, h) && Settled(db, o, EventsOf(h))
    requires loaded.round == Some(db.rounds[o.roundID]) && loaded.task == Some(db.tasks[o.taskID]) && Writes(loaded, c)
    requires CommitProjection(db, c) == Ok((db', APPLIED)) && Follows(c.round, c.task)
             && Paired(loaded.round.value, c.round, c.inbox, update)
    ensures Settled(db', o, EventsOf(After(h, c.inbox)))
  {
    AppliedInbox(db, c);
    ProjectedTables(db, c);
    SettledAfter(db, db', o, h, c, update);
  }

  // ---------------------------------------------------------------- what leaves the round alone

  /** The round and its records are as they were. */
  ghost predicate RoundUntouched(db: Db, db': Db, o: Origin)
    requires o.roundID in db.rounds && o.taskID in db.tasks
  {
    && o.roundID in db'.rounds && o.taskID in db'.tasks && db'.tasks[o.taskID].id == o.taskID
    && var r, r' := db.rounds[o.roundID], db'.rounds[o.roundID];
    && r.SameIdentity(r') && r'.lastSequence == r.lastSequence && r'.remoteStatus == r.remoteStatus
    && DiagnosisOf(r') == DiagnosisOf(r)
    && (forall k :: k in db.inbox && k.0 == o.roundID ==> k in db'.inbox && db'.inbox[k] == db.inbox[k])
    && (forall k :: k in db'.inbox && k.0 == o.roundID ==> k in db.inbox)
    && LogsOf(db'.logs, o.roundID) == LogsOf(db.logs, o.roundID)
    && MessagesOf(db'.messages, o.roundID) == MessagesOf(db.messages, o.roundID)
  }

  /** The task's status is as it was, or moved between active ones. */
  ghost predicate StatusUntouched(db: Db, db': Db, taskID: ID)
    requires taskID in db.tasks && taskID in db'.tasks
  {
    || db'.tasks[taskID].status == db.tasks[taskID].status
    || (db.tasks[taskID].status.Active() && db'.tasks[taskID].status.Active())
  }

  /** Whatever else happens in between leaves the round, its records and, apart from moves between active statuses,
      its task alone. */
  ghost predicate Untouched(db: Db, db': Db, o: Origin)
    requires o.roundID in db.rounds && o.taskID in db.tasks
  {
    RoundUntouched(db, db', o) && StatusUntouched(db, db', o.taskID)
  }

  /** The round as CommitA2ACommand leaves it: nothing recorded or projected, an active task. */
  ghost predicate Opened(db: Db, o: Origin) {
    Faithful(db, o, []) && Settled(db, o, [])
  }

  lemma RoundUntouchedStays(db: Db, db': Db, o: Origin, h: seq<Entry>)
    requires Faithful(db, o, h) && RoundUntouched(db, db', o)
    ensures Faithful(db', o, h)
  {
    assert Recorded(db'.inbox, o, EventsOf(h));
  }

  lemma UntouchedStays(db: Db, db': Db, o: Origin, h: seq<Entry>)
    requires Faithful(db, o, h) && Settled(db, o, EventsOf(h)) && Untouched(db, db', o)
    ensures Faithful(db', o, h) && Settled(db', o, EventsOf(h))
  {
    RoundUntouchedStays(db, db', o, h);
  }

  // ---------------------------------------------------------------- streams

  /** The history h has recorded the stream E up to the round's cursor, and the round's logs, messages and diagnosis are
      its folds. */
  ghost predicate RecordsConverged(db: Db, o: Origin, E: seq<Event>, h: seq<Entry>) {
    && o.roundID in db.rounds && o.taskID in db.tasks
    && var n := db.rounds[o.roundID].lastSequence - o.base;
    && 0 <= n <= |E| && EventsOf(h) == E[..n]
    && LogsOf(db.logs, o.roundID) == FoldLogs(o.roundID, o.taskID, o.d, h)
    && MessagesOf(db.messages, o.roundID) == FoldMessages(o.roundID, o.taskID, E[..n])
    && DiagnosisOf(db.rounds[o.roundID]) == FoldDiagnosis(o.d, h)
  }

  /** A terminal event within that prefix has decided the task's status. */
  ghost predicate Decided(db: Db, o: Origin, E: seq<Event>)
    requires o.roundID in db.rounds && o.taskID in db.tasks
  {
    forall j :: 0 <= j < |E| && j < db.rounds[o.roundID].lastSequence - o.base && E[j].kind.EXECUTION_TERMINAL? ==>
                  TerminalStatus(Some(E[j])).Terminal()
                  && db.tasks[o.taskID].status == FinalStatus(TerminalStatus(Some(E[j])))
  }

  lemma PrefixConverged(db: Db, o: Origin, h: seq<Entry>, E: seq<Event>)
    requires Faithful(db, o, h) && |EventsOf(h)| <= |E| && EventsOf(h) == E[..|EventsOf(h)|]
    ensures RecordsConverged(db, o, E, h) && (Settled(db, o, EventsOf(h)) ==> Decided(db, o, E))
  {
    forall j | 0 <= j < |EventsOf(h)| && E[j].kind.EXECUTION_TERMINAL? && Settled(db, o, EventsOf(h))
      ensures TerminalStatus(Some(E[j])).Terminal()
              && db.tasks[o.taskID].status == FinalStatus(TerminalStatus(Some(E[j])))
    {
      assert EventsOf(h)[j] == E[j];
    }
  }

  /** The history in which the Manager ruled nothing. */
  function Plainly(es: seq<Event>): seq<Entry> {
    if es == [] then [] else Plainly(es[..|es| - 1]) + [Came(es[|es| - 1])]
  }

  lemma {:induction false} UnruledIsPlain(h: seq<Entry>)
    requires forall i :: 0 <= i < |h| ==> h[i].Came?
    ensures h == Plainly(EventsOf(h))
  {
    if h != [] {
      UnruledIsPlain(h[..|h| - 1]);
      var es, event := EventsOf(h[..|h| - 1]), h[|h| - 1].event;
      assert EventsOf(h) == es + [event] && (es + [event])[..|es + [event]| - 1] == es;
    }
  }

  /** The stream is numbered from the cursor the round was opened at. */
  ghost predicate Numbered(E: seq<Event>, base: nat) {
    forall j :: 0 <= j < |E| ==> E[j].sequence == base + 1 + j
  }

  /** Consecutively numbered events of a numbered stream are its prefix. */
  lemma PrefixOfStream(E: seq<Event>, es: seq<Event>, base: nat)
    requires Numbered(E, base) && Numbered(es, base) && forall j :: 0 <= j < |es| ==> es[j] in E
    ensures |es| <= |E| && es == E[..|es|]
  {
    forall j | 0 <= j < |es| ensures j < |E| && es[j] == E[j] {
      assert es[j] in E;
    }
    if |es| > 0 {
      var last := es[|es| - 1];
      assert last in es;
    }
  }
}
