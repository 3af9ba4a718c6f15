/** The store as an object: pkg/store/a2a_memory.go and DeleteTask of pkg/store/memory.go, method by method, each proved
    to compute the function that specifies it. A method runs under the store's mutex. */
module StoreObject {
  import opened Wrappers
  import opened Domain
  import Tables = ManagerStore
  import opened Service

  class MemoryStore {
    var tasks: map<ID, Task>
    var workers: map<ID, Worker>
    var rounds: map<ID, Round>
    var intents: map<ID, Intent>
    var inbox: map<Tables.InboxKey, Tables.InboxRow>
    var interactions: map<ID, Interaction>
    var logs: seq<Log>
    var messages: seq<Message>

    constructor ()
      ensures View() == Tables.EMPTY
    {
      tasks, workers, rounds, intents := map[], map[], map[], map[];
      inbox, interactions, logs, messages := map[], map[], [], [];
    }

    function View(): Tables.Db
      reads this
    {
      Tables.Db(tasks, workers, rounds, intents, inbox, interactions, logs, messages)
    }

    /** Rounds and workers stand under their own ids. */
    ghost predicate Keyed()
      reads this
    {
      && (forall id :: id in rounds ==> rounds[id].id == id)
      && (forall id :: id in workers ==> workers[id].id == id)
    }

    // -------------------------------------------------------------- scans

    method SequenceTaken(row: Tables.InboxRow) returns (taken: bool)
      ensures taken == Tables.SequenceTaken(inbox, row)
    {
      var todo := inbox.Keys;
      while todo != {}
        invariant todo <= inbox.Keys
        invariant forall k :: k in inbox && k !in todo ==>
                                !(inbox[k].executionID == row.executionID && inbox[k].Sequence() == row.Sequence()
                                  && (inbox[k].roundID != row.roundID || inbox[k].event.id != row.event.id))
        decreases |todo|
      {
        var k :| k in todo;
        todo := todo - {k};
        if inbox[k].executionID == row.executionID && inbox[k].Sequence() == row.Sequence()
           && (inbox[k].roundID != row.roundID || inbox[k].event.id != row.event.id) {
          return true;
        }
      }
      return false;
    }

    method RemoteTaken(round: Round) returns (taken: bool)
      ensures taken == Tables.RemoteTaken(rounds, round)
    {
      var todo := rounds.Keys;
      while todo != {}
        invariant todo <= rounds.Keys
        invariant forall id :: id in rounds && id !in todo ==>
                                 !(rounds[id].id != round.id && rounds[id].workerID == round.workerID
                                   && rounds[id].a2aTaskID == round.a2aTaskID)
        decreases |todo|
      {
        var id :| id in todo;
        todo := todo - {id};
        if rounds[id].id != round.id && rounds[id].workerID == round.workerID
           && rounds[id].a2aTaskID == round.a2aTaskID {
          return true;
        }
      }
      return false;
    }

    method TurnTaken(round: Round) returns (taken: bool)
      ensures taken == Tables.TurnTaken(rounds, round)
    {
      var todo := rounds.Keys;
      while todo != {}
        invariant todo <= rounds.Keys
        invariant forall id :: id in rounds && id !in todo ==>
                                 !(rounds[id].taskID == round.taskID && rounds[id].attempt == round.attempt
                                   && rounds[id].turn == round.turn)
        decreases |todo|
      {
        var id :| id in todo;
        todo := todo - {id};
        if rounds[id].taskID == round.taskID && rounds[id].attempt == round.attempt && rounds[id].turn == round.turn {
          return true;
        }
      }
      return false;
    }

    method CommandTaken(commandID: ID) returns (taken: bool)
      ensures taken == Tables.CommandTaken(intents, commandID)
    {
      var todo := intents.Keys;
      while todo != {}
        invariant todo <= intents.Keys
        invariant forall id :: id in intents && id !in todo ==> intents[id].commandID != commandID
        decreases |todo|
      {
        var id :| id in todo;
        todo := todo - {id};
        if intents[id].commandID == commandID {
          return true;
        }
      }
      return false;
    }

    method HasRound(taskID: ID) returns (found: bool)
      ensures found == Tables.HasRound(rounds, taskID)
    {
      var todo := rounds.Keys;
      while todo != {}
        invariant todo <= rounds.Keys
        invariant forall id :: id in rounds && id !in todo ==> rounds[id].taskID != taskID
        decreases |todo|
      {
        var id :| id in todo;
        todo := todo - {id};
        if rounds[id].taskID == taskID {
          return true;
        }
      }
      return false;
    }

    /** validateTaskLogIDsLocked. */
    method LogIDsFree(added: seq<Log>) returns (ok: bool)
      ensures ok == Tables.LogIDsFree(logs, added)
    {
      var seen: set<RecordID> := {};
      for i := 0 to |logs|
        invariant seen == set j | 0 <= j < i :: logs[j].id
      {
        seen := seen + {logs[i].id};
      }
      for i := 0 to |added|
        invariant seen == (set j | 0 <= j < |logs| :: logs[j].id) + set j | 0 <= j < i :: added[j].id
        invariant Tables.LogIDsFree(logs, added[..i])
      {
        if added[i].id in seen {
          return false;
        }
        seen := seen + {added[i].id};
      }
      assert added[..|added|] == added;
      return true;
    }

    /** validateConversationIDsLocked. */
    method MessageIDsFree(added: seq<Message>) returns (ok: bool)
      ensures ok == Tables.MessageIDsFree(messages, added)
    {
      var seen: set<RecordID> := {};
      for i := 0 to |messages|
        invariant seen == set j | 0 <= j < i :: messages[j].id
      {
        seen := seen + {messages[i].id};
      }
      for i := 0 to |added|
        invariant seen == (set j | 0 <= j < |messages| :: messages[j].id) + set j | 0 <= j < i :: added[j].id
        invariant Tables.MessageIDsFree(messages, added[..i])
      {
        if added[i].id in seen {
          return false;
        }
        seen := seen + {added[i].id};
      }
      assert added[..|added|] == added;
      return true;
    }

    // -------------------------------------------------------------- writes

    /** The cancelling loop of applyA2ACommonLocked. */
    method CancelPending(taskID: ID, now: Time)
      modifies this`interactions
      ensures interactions == Tables.CancelPending(old(interactions), taskID, now)
    {
      ghost var was := interactions;
      var todo := interactions.Keys;
      while todo != {}
        invariant interactions.Keys == was.Keys && todo <= was.Keys
        invariant forall id :: id in todo ==> interactions[id] == was[id]
        invariant forall id :: id in was && id !in todo ==>
                                 interactions[id] == Tables.CancelPending(was, taskID, now)[id]
        decreases |todo|
      {
        var id :| id in todo;
        todo := todo - {id};
        var item := interactions[id];
        if item.taskID == taskID && item.status.ASKED? {
          interactions := interactions[id := Tables.Canceled(item, now)];
        }
      }
    }

    /** applyA2ACommonLocked. */
    method Common(task: Option<Task>, worker: Option<Worker>, interaction: Option<Interaction>,
                  newMessages: seq<Message>, newLogs: seq<Log>, cancelPending: bool)
      modifies this
      ensures View() == Tables.Common(old(View()), task, worker, interaction, newMessages, newLogs, cancelPending)
    {
      if task.Some? {
        tasks := tasks[task.value.id := task.value];
      }
      if worker.Some? {
        workers := workers[worker.value.id := worker.value];
      }
      if interaction.Some? {
        interactions := interactions[interaction.value.id := interaction.value];
      }
      if cancelPending && task.Some? {
        CancelPending(task.value.id, task.value.updatedAt);
      }
      logs := logs + newLogs;
      messages := messages + newMessages;
    }

    /** validateA2AOCCLocked. */
    method CheckVersions(task: Option<Task>, expectedTask: nat, worker: Option<Worker>, expectedWorker: nat,
                         round: Option<Round>, expectedRound: nat,
                         intent: Option<Intent>, expectedIntent: nat) returns (r: Result<()>)
      ensures r == Tables.CheckVersions(View(), task, expectedTask, worker, expectedWorker, round, expectedRound,
                                        intent, expectedIntent)
    {
      if task.Some? && expectedTask > 0 {
        if task.value.id !in tasks || tasks[task.value.id].version != expectedTask {
          return Err(ConcurrentModification);
        }
      }
      if worker.Some? && expectedWorker > 0 {
        if worker.value.id !in workers || workers[worker.value.id].version != expectedWorker {
          return Err(ConcurrentModification);
        }
      }
      if round.Some? {
        if round.value.id !in rounds {
          return Err(NotFound);
        }
        if rounds[round.value.id].version != expectedRound {
          return Err(ConcurrentModification);
        }
        if round.value.a2aTaskID != "" {
          var taken := RemoteTaken(round.value);
          if taken {
            return Err(Conflict);
          }
        }
      }
      if intent.Some? {
        if intent.value.id !in intents {
          return Err(NotFound);
        }
        if intents[intent.value.id].version != expectedIntent {
          return Err(ConcurrentModification);
        }
      }
      return Ok(());
    }

    /** CommitA2AProjection. */
    method CommitProjection(c: Tables.ProjectionCommit) returns (r: Result<Tables.Disposition>)
      modifies this
      ensures match Tables.CommitProjection(old(View()), c)
              case Ok(done) => View() == done.0 && r == Ok(done.1)
              case Err(e) => View() == old(View()) && r == Err(e)
    {
      if c.inbox.Some? {
        var row := c.inbox.value;
        var key := (row.roundID, row.event.id);
        if key in inbox {
          if inbox[key].event != row.event {
            return Err(Conflict);
          }
          if c.intent.Some? {
            return Err(ConcurrentModification);
          }
          return Ok(Tables.DUPLICATE);
        }
        if row.executionID == "" || row.executionID != c.round.executionID {
          return Err(Conflict);
        }
        var taken := SequenceTaken(row);
        if taken {
          return Err(Conflict);
        }
      }
      assert Tables.CheckInbox(View(), c) == Ok(Tables.APPLIED);
      var versions := CheckVersions(Some(c.task), c.expectedTask, c.worker, c.expectedWorker, Some(c.round),
                                    c.expectedRound, c.intent, c.expectedIntent);
      if versions.Err? {
        return Err(versions.error);
      }
      if c.interaction.Some? && c.interaction.value.id in interactions
         && interactions[c.interaction.value.id].taskID != c.interaction.value.taskID {
        return Err(Conflict);
      }
      var messagesOk := MessageIDsFree(c.messages);
      var logsOk := LogIDsFree(c.logs);
      if !messagesOk || !logsOk {
        return Err(Conflict);
      }
      WriteProjection(c);
      return Ok(Tables.APPLIED);
    }

    method WriteProjection(c: Tables.ProjectionCommit)
      modifies this
      ensures View() == Tables.Projected(old(View()), c)
    {
      Common(Some(c.task), c.worker, c.interaction, c.messages, c.logs, c.cancelPending);
      rounds := rounds[c.round.id := c.round];
      if c.intent.Some? {
        intents := intents[c.intent.value.id := c.intent.value];
      }
      if c.inbox.Some? {
        inbox := inbox[(c.inbox.value.roundID, c.inbox.value.event.id) := c.inbox.value];
      }
    }

    /** validateA2ACommitLocked after the version checks. */
    method CheckCommand(c: Tables.CommandCommit) returns (r: Result<()>)
      ensures r == Tables.CheckCommand(View(), c)
    {
      if c.intent.roundID != c.round.id || c.intent.taskID != c.round.taskID
         || (c.intent.operation.CreatesRound() && c.intent.commandID != c.round.commandID) {
        return Err(Conflict);
      }
      if c.createRound {
        var taken := TurnTaken(c.round);
        if c.round.id in rounds || taken {
          return Err(Conflict);
        }
      } else if c.round.id !in rounds || rounds[c.round.id].taskID != c.round.taskID
                || rounds[c.round.id].executionID != c.round.executionID {
        return Err(Conflict);
      }
      var used := CommandTaken(c.intent.commandID);
      if c.intent.id in intents || used {
        return Err(Conflict);
      }
      return Ok(());
    }

    /** CommitA2ACommand. */
    method CommitCommand(c: Tables.CommandCommit) returns (r: Result<()>)
      modifies this
      ensures match Tables.CommitCommand(old(View()), c)
              case Ok(db) => View() == db && r.Ok?
              case Err(e) => View() == old(View()) && r == Err(e)
    {
      var versions := CheckVersions(Some(c.task), c.expectedTask, c.worker, c.expectedWorker, None, 0, None, 0);
      if versions.Err? {
        return Err(versions.error);
      }
      var command := CheckCommand(c);
      if command.Err? {
        return Err(command.error);
      }
      if c.interaction.Some? && c.interaction.value.id in interactions
         && interactions[c.interaction.value.id].taskID != c.interaction.value.taskID {
        return Err(Conflict);
      }
      Common(Some(c.task), c.worker, c.interaction, c.messages, [], c.cancelPending);
      if c.createRound {
        rounds := rounds[c.round.id := c.round];
      }
      intents := intents[c.intent.id := c.intent];
      return Ok(());
    }

    /** CommitA2ADispatchResult. */
    method CommitDispatchResult(round: Round, expectedRound: nat, intent: Intent, expectedIntent: nat)
      returns (r: Result<()>)
      modifies this
      ensures match Tables.CommitDispatchResult(old(View()), round, expectedRound, intent, expectedIntent)
              case Ok(db) => View() == db && r.Ok?
              case Err(e) => View() == old(View()) && r == Err(e)
    {
      var versions := CheckVersions(None, 0, None, 0, Some(round), expectedRound, Some(intent), expectedIntent);
      if versions.Err? {
        return Err(versions.error);
      }
      rounds := rounds[round.id := round];
      intents := intents[intent.id := intent];
      return Ok(());
    }

    /** UpdateA2ARound. */
    method UpdateRound(round: Round, expected: nat) returns (r: Result<()>)
      modifies this`rounds
      ensures match Tables.UpdateRound(old(View()), round, expected)
              case Ok(db) => View() == db && r.Ok?
              case Err(e) => View() == old(View()) && r == Err(e)
    {
      if round.id !in rounds {
        return Err(NotFound);
      }
      if rounds[round.id].version != expected {
        return Err(ConcurrentModification);
      }
      rounds := rounds[round.id := round];
      return Ok(());
    }

    /** UpdateA2ADispatchIntent. */
    method UpdateIntent(intent: Intent, expected: nat) returns (r: Result<()>)
      modifies this`intents
      ensures match Tables.UpdateIntent(old(View()), intent, expected)
              case Ok(db) => View() == db && r.Ok?
              case Err(e) => View() == old(View()) && r == Err(e)
    {
      if intent.id !in intents {
        return Err(NotFound);
      }
      if intents[intent.id].version != expected {
        return Err(ConcurrentModification);
      }
      intents := intents[intent.id := intent];
      return Ok(());
    }

    /** CommitA2AMigrationFailure. */
    method CommitMigration(task: Task, expectedTask: nat, worker: Option<Worker>, expectedWorker: nat)
      returns (r: Result<bool>)
      modifies this
      ensures match Tables.CommitMigration(old(View()), task, expectedTask, worker, expectedWorker)
              case Ok(done) => View() == done.0 && r == Ok(done.1)
              case Err(e) => View() == old(View()) && r == Err(e)
    {
      if worker.Some? && task.workerID != worker.value.id {
        return Err(Conflict);
      }
      var found := HasRound(task.id);
      if found {
        return Ok(false);
      }
      var versions := CheckVersions(Some(task), expectedTask, worker, expectedWorker, None, 0, None, 0);
      if versions.Err? {
        return Err(versions.error);
      }
      Common(Some(task), worker, None, [], [], true);
      return Ok(true);
    }

    // -------------------------------------------------------------- queries

    /** TaskA2ARounds: collect, then keep sorted by attempt and turn. */
    method TaskRounds(taskID: ID) returns (list: seq<Round>)
      requires Keyed()
      ensures Listing(rounds, taskID, list)
    {
      list := [];
      var todo := rounds.Keys;
      while todo != {}
        invariant todo <= rounds.Keys && Sorted(list) && Distinct(list)
        invariant forall x :: x in list ==> x.id !in todo && x.id in rounds && rounds[x.id] == x && x.taskID == taskID
        invariant forall id :: id in rounds && id !in todo && rounds[id].taskID == taskID ==> rounds[id] in list
        decreases |todo|
      {
        var id :| id in todo;
        todo := todo - {id};
        if rounds[id].taskID == taskID {
          list := Insert(list, rounds[id]);
        }
      }
    }

    /** One step of sortA2ARounds. */
    static method Insert(list: seq<Round>, round: Round) returns (r: seq<Round>)
      requires Sorted(list) && Distinct(list) && forall x :: x in list ==> x.id != round.id
      ensures Sorted(r) && Distinct(r) && forall x :: x in r <==> x in list || x == round
    {
      var i := |list|;
      while i > 0 && Tables.Later(list[i - 1], round)
        invariant 0 <= i <= |list|
        invariant forall j :: i <= j < |list| ==> Tables.Later(list[j], round)
      {
        i := i - 1;
      }
      r := list[..i] + [round] + list[i..];
      InsertedHas(list, i, round, r);
      InsertedSorted(list, i, round, r);
      InsertedDistinct(list, i, round, r);
    }

    /** The first worker, in map order, that can take the task. */
    method FindCandidate(agent: Agent, projectID: ID) returns (candidate: Option<Worker>)
      ensures candidate.Some? ==> candidate.value in workers.Values && candidate.value.CanAccept(agent, projectID)
      ensures candidate.None? ==> forall w :: w in workers ==> !workers[w].CanAccept(agent, projectID)
    {
      var todo := workers.Keys;
      while todo != {}
        invariant todo <= workers.Keys
        invariant forall w :: w in workers && w !in todo ==> !workers[w].CanAccept(agent, projectID)
        decreases |todo|
      {
        var w :| w in todo;
        todo := todo - {w};
        if workers[w].CanAccept(agent, projectID) {
          return Some(workers[w]);
        }
      }
      return None;
    }

    // -------------------------------------------------------------- DeleteTask

    method DeleteTask(id: ID) returns (r: Result<()>)
      modifies this
      ensures match Tables.DeleteTask(old(View()), id)
              case Ok(db) => View() == db && r.Ok?
              case Err(e) => View() == old(View()) && r == Err(e)
    {
      if id !in tasks {
        return Err(NotFound);
      }
      tasks := tasks - {id};
      DeleteLines(id);
      DeleteInteractions(id);
      DeleteRemote(id);
      return Ok(());
    }

    method DeleteRemote(id: ID)
      modifies this`inbox, this`intents, this`rounds
      ensures inbox == map k | k in old(inbox) && !Tables.RowDeleted(old(rounds), id, old(inbox)[k]) :: old(inbox)[k]
      ensures intents == map i | i in old(intents) && old(intents)[i].taskID != id :: old(intents)[i]
      ensures rounds == map i | i in old(rounds) && old(rounds)[i].taskID != id :: old(rounds)[i]
    {
      DeleteInbox(id);
      DeleteIntents(id);
      DeleteRounds(id);
    }

    method DeleteLines(id: ID)
      modifies this`logs, this`messages
      ensures logs == Tables.LogsWithout(old(logs), id) && messages == Tables.MessagesWithout(old(messages), id)
    {
      logs := LogsLeft(logs, id);
      messages := MessagesLeft(messages, id);
    }

    static method LogsLeft(logs: seq<Log>, id: ID) returns (kept: seq<Log>)
      ensures kept == Tables.LogsWithout(logs, id)
    {
      kept := [];
      for i := 0 to |logs|
        invariant kept + Tables.LogsWithout(logs[i..], id) == Tables.LogsWithout(logs, id)
      {
        assert logs[i..][1..] == logs[i + 1..];
        if logs[i].taskID != id {
          kept := kept + [logs[i]];
        }
      }
    }

    static method MessagesLeft(messages: seq<Message>, id: ID) returns (kept: seq<Message>)
      ensures kept == Tables.MessagesWithout(messages, id)
    {
      kept := [];
      for i := 0 to |messages|
        invariant kept + Tables.MessagesWithout(messages[i..], id) == Tables.MessagesWithout(messages, id)
      {
        assert messages[i..][1..] == messages[i + 1..];
        if messages[i].taskID != id {
          kept := kept + [messages[i]];
        }
      }
    }

    method DeleteInteractions(id: ID)
      modifies this`interactions
      ensures interactions == map i | i in old(interactions)
              && old(interactions)[i].taskID != id :: old(interactions)[i]
    {
      ghost var was := interactions;
      var todo := interactions.Keys;
      while todo != {}
        invariant todo <= was.Keys && interactions.Keys <= was.Keys
        invariant forall i :: i in interactions ==> interactions[i] == was[i]
        invariant forall i :: i in was ==> (i in interactions <==> i in todo || was[i].taskID != id)
        decreases |todo|
      {
        var i :| i in todo;
        todo := todo - {i};
        if interactions[i].taskID == id {
          interactions := interactions - {i};
        }
      }
    }

    method DeleteIntents(id: ID)
      modifies this`intents
      ensures intents == map i | i in old(intents) && old(intents)[i].taskID != id :: old(intents)[i]
    {
      ghost var was := intents;
      var todo := intents.Keys;
      while todo != {}
        invariant todo <= was.Keys && intents.Keys <= was.Keys
        invariant forall i :: i in intents ==> intents[i] == was[i]
        invariant forall i :: i in was ==> (i in intents <==> i in todo || was[i].taskID != id)
        decreases |todo|
      {
        var i :| i in todo;
        todo := todo - {i};
        if intents[i].taskID == id {
          intents := intents - {i};
        }
      }
    }

    method DeleteRounds(id: ID)
      modifies this`rounds
      ensures rounds == map i | i in old(rounds) && old(rounds)[i].taskID != id :: old(rounds)[i]
    {
      ghost var was := rounds;
      var todo := rounds.Keys;
      while todo != {}
        invariant todo <= was.Keys && rounds.Keys <= was.Keys
        invariant forall i :: i in rounds ==> rounds[i] == was[i]
        invariant forall i :: i in was ==> (i in rounds <==> i in todo || was[i].taskID != id)
        decreases |todo|
      {
        var i :| i in todo;
        todo := todo - {i};
        if rounds[i].taskID == id {
          rounds := rounds - {i};
        }
      }
    }

    /** The rounds and executions of the task, and then every row of either. */
    method DeleteInbox(id: ID)
      modifies this`inbox
      ensures inbox == map k | k in old(inbox) && !Tables.RowDeleted(rounds, id, old(inbox)[k]) :: old(inbox)[k]
    {
      var deletedRounds, deletedExecutions := Doomed(id);
      ghost var was := inbox;
      var todo := inbox.Keys;
      while todo != {}
        invariant todo <= was.Keys && inbox.Keys <= was.Keys
        invariant forall k :: k in inbox ==> inbox[k] == was[k]
        invariant forall k :: k in was ==> (k in inbox <==> k in todo || !Tables.RowDeleted(rounds, id, was[k]))
        decreases |todo|
      {
        var k :| k in todo;
        todo := todo - {k};
        if inbox[k].roundID in deletedRounds || inbox[k].executionID in deletedExecutions {
          inbox := inbox - {k};
        }
      }
    }

    method Doomed(id: ID) returns (deletedRounds: set<ID>, deletedExecutions: set<ID>)
      ensures forall r :: r in deletedRounds <==> r in rounds && rounds[r].taskID == id
      ensures forall e :: e in deletedExecutions <==>
                            exists r :: r in rounds && rounds[r].taskID == id && rounds[r].executionID == e
    {
      deletedRounds, deletedExecutions := {}, {};
      var todo := rounds.Keys;
      while todo != {}
        invariant todo <= rounds.Keys
        invariant forall r :: r in deletedRounds <==> r in rounds && r !in todo && rounds[r].taskID == id
        invariant forall e :: e in deletedExecutions <==>
                                exists r :: r in rounds && r !in todo && rounds[r].taskID == id
                                            && rounds[r].executionID == e
        decreases |todo|
      {
        var r :| r in todo;
        todo := todo - {r};
        if rounds[r].taskID == id {
          deletedRounds := deletedRounds + {r};
          deletedExecutions := deletedExecutions + {rounds[r].executionID};
        }
      }
    }
  }

  predicate Sorted(list: seq<Round>) {
    forall i, j :: 0 <= i < j < |list| ==> !Tables.Later(list[i], list[j])
  }

  lemma InsertedHas(list: seq<Round>, i: nat, round: Round, r: seq<Round>)
    requires i <= |list| && r == list[..i] + [round] + list[i..]
    ensures forall x :: x in r <==> x in list || x == round
  {
    assert list == list[..i] + list[i..];
  }

  lemma InsertedDistinct(list: seq<Round>, i: nat, round: Round, r: seq<Round>)
    requires i <= |list| && r == list[..i] + [round] + list[i..]
    requires Distinct(list) && forall x :: x in list ==> x.id != round.id
    ensures Distinct(r)
  {
    forall a, b | 0 <= a < b < |r| ensures r[a].id != r[b].id {
      assert a != i ==> r[a] == list[if a < i then a else a - 1];
      assert b != i ==> r[b] == list[if b < i then b else b - 1];
    }
  }

  lemma InsertedSorted(list: seq<Round>, i: nat, round: Round, r: seq<Round>)
    requires i <= |list| && Sorted(list) && r == list[..i] + [round] + list[i..]
    requires i > 0 ==> !Tables.Later(list[i - 1], round)
    requires forall j :: i <= j < |list| ==> Tables.Later(list[j], round)
    ensures Sorted(r)
  {
    forall a | 0 <= a < i ensures !Tables.Later(list[a], round) {
      assert a < i - 1 ==> !Tables.Later(list[a], list[i - 1]);
    }
    forall a, b | 0 <= a < b < |r| ensures !Tables.Later(r[a], r[b]) {
      var a', b' := if a < i then a else a - 1, if b < i then b else b - 1;
      assert a != i ==> r[a] == list[a'];
      assert b != i ==> r[b] == list[b'];
    }
  }
}
