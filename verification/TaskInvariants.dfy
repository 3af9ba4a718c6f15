/** The invariants that tie tasks to rounds, leases and questions, and how each kind of table change keeps them. */
module TaskInvariants {
  import opened Wrappers
  import opened Domain
  import opened ManagerStore

  type Tasks = map<ID, Task>
  type Rounds = map<ID, Round>
  type Workers = map<ID, Worker>
  type Interactions = map<ID, Interaction>

  // ---------------------------------------------------------------- one live round

  /** The round comes after every other round of its task. */
  ghost predicate Top(rounds: Rounds, id: ID)
    requires id in rounds
  {
    forall other :: other in rounds && other != id && rounds[other].taskID == rounds[id].taskID ==>
                      Later(rounds[id], rounds[other])
  }

  ghost predicate LiveOK(tasks: Tasks, rounds: Rounds, id: ID)
    requires id in rounds
  {
    var r := rounds[id];
    && r.id == id && r.Consistent() && r.taskID in tasks
    && (r.Live() ==> tasks[r.taskID].status.Active() && r.workerID == tasks[r.taskID].workerID && Top(rounds, id))
  }

  ghost predicate HasLive(rounds: Rounds, taskID: ID) {
    exists id :: id in rounds && rounds[id].taskID == taskID && rounds[id].Live()
  }

  /** legacy are the tasks that were active before rounds existed. */
  ghost predicate OneLive(tasks: Tasks, rounds: Rounds, legacy: set<ID>) {
    && (forall id :: id in tasks ==> tasks[id].id == id)
    && (forall id :: id in rounds ==> LiveOK(tasks, rounds, id))
    && (forall t :: t in tasks && tasks[t].status.Active() ==>
                      HasLive(rounds, t) || (t in legacy && !HasRound(rounds, t)))
  }

  /** What the invariant says: an active task has exactly one open round, its last one and on its own worker;
      any other task has none. */
  lemma OneLiveMeans(tasks: Tasks, rounds: Rounds, legacy: set<ID>, t: ID)
    requires OneLive(tasks, rounds, legacy) && t in tasks
    ensures tasks[t].status.Active() && (t !in legacy || HasRound(rounds, t)) ==>
              exists id :: id in rounds && rounds[id].taskID == t && rounds[id].Live()
                           && rounds[id].workerID == tasks[t].workerID
                           && (forall o :: o in rounds && o != id && rounds[o].taskID == t ==>
                                             Later(rounds[id], rounds[o]) && !rounds[o].Live())
    ensures !tasks[t].status.Active() ==> forall o :: o in rounds && rounds[o].taskID == t ==> !rounds[o].Live()
  {
    if tasks[t].status.Active() && (t !in legacy || HasRound(rounds, t)) {
      var id :| id in rounds && rounds[id].taskID == t && rounds[id].Live();
      assert LiveOK(tasks, rounds, id);
      forall o | o in rounds && o != id && rounds[o].taskID == t ensures Later(rounds[id], rounds[o])
      && !rounds[o].Live() {
        assert LiveOK(tasks, rounds, o);
      }
    }
    forall o | o in rounds && rounds[o].taskID == t && !tasks[t].status.Active() ensures !rounds[o].Live() {
      assert LiveOK(tasks, rounds, o);
    }
  }

  /** Overwrite a task: its activity and, while active, its worker stay. */
  lemma TaskKeepsOneLive(tasks: Tasks, rounds: Rounds, legacy: set<ID>, task: Task)
    requires OneLive(tasks, rounds, legacy) && task.id in tasks
    requires task.status.Active() == tasks[task.id].status.Active()
    requires task.status.Active() ==> task.workerID == tasks[task.id].workerID
    ensures OneLive(tasks[task.id := task], rounds, legacy)
  {
    forall id | id in rounds ensures LiveOK(tasks[task.id := task], rounds, id) {
      assert LiveOK(tasks, rounds, id);
    }
  }

  /** Overwrite a round that stays open or stays closed. */
  lemma RoundKeepsOneLive(tasks: Tasks, rounds: Rounds, legacy: set<ID>, round: Round)
    requires OneLive(tasks, rounds, legacy) && round.id in rounds && rounds[round.id].SameIdentity(round)
    requires round.Consistent() && round.Live() == rounds[round.id].Live()
    ensures OneLive(tasks, rounds[round.id := round], legacy)
  {
    var rounds' := rounds[round.id := round];
    forall id | id in rounds' ensures LiveOK(tasks, rounds', id) {
      assert LiveOK(tasks, rounds, id);
      if rounds'[id].Live() {
        assert Top(rounds, id);
      }
    }
    forall t | t in tasks
    && tasks[t].status.Active() ensures HasLive(rounds', t) || (t in legacy && !HasRound(rounds', t)) {
      if HasLive(rounds, t) {
        var id :| id in rounds && rounds[id].taskID == t && rounds[id].Live();
        assert rounds'[id].taskID == t && rounds'[id].Live();
      }
    }
  }

  /** End a task together with its open round. */
  lemma FinishKeepsOneLive(tasks: Tasks, rounds: Rounds, legacy: set<ID>, task: Task, round: Round)
    requires OneLive(tasks, rounds, legacy) && task.id in tasks && !task.status.Active()
    requires round.id in rounds && rounds[round.id].SameIdentity(round) && rounds[round.id].taskID == task.id
    requires rounds[round.id].Live() && round.Consistent() && !round.Live()
    ensures OneLive(tasks[task.id := task], rounds[round.id := round], legacy)
  {
    var tasks', rounds' := tasks[task.id := task], rounds[round.id := round];
    assert LiveOK(tasks, rounds, round.id);
    forall id | id in rounds' ensures LiveOK(tasks', rounds', id) {
      assert LiveOK(tasks, rounds, id);
    }
    forall t | t in tasks'
    && tasks'[t].status.Active() ensures HasLive(rounds', t) || (t in legacy && !HasRound(rounds', t)) {
      if HasLive(rounds, t) {
        var id :| id in rounds && rounds[id].taskID == t && rounds[id].Live();
        assert rounds'[id].taskID == t && rounds'[id].Live();
      }
    }
  }

  /** End a task that has no round. */
  lemma RetireKeepsOneLive(tasks: Tasks, rounds: Rounds, legacy: set<ID>, task: Task)
    requires OneLive(tasks, rounds, legacy) && task.id in tasks && !task.status.Active() && !HasRound(rounds, task.id)
    ensures OneLive(tasks[task.id := task], rounds, legacy)
  {
    forall id | id in rounds ensures LiveOK(tasks[task.id := task], rounds, id) {
      assert LiveOK(tasks, rounds, id);
    }
  }

  /** Ending an active task without closing its open round breaks the invariant. */
  lemma OrphanBreaksOneLive(tasks: Tasks, rounds: Rounds, legacy: set<ID>, task: Task, round: Round)
    requires OneLive(tasks, rounds, legacy) && task.id in tasks && tasks[task.id].status.Active()
             && !task.status.Active()
    requires round.id in rounds && rounds[round.id].taskID == task.id && !Top(rounds, round.id)
    ensures !OneLive(tasks[task.id := task], rounds[round.id := round], legacy)
  {
    var rounds' := rounds[round.id := round];
    assert HasRound(rounds, task.id);
    var id :| id in rounds && rounds[id].taskID == task.id && rounds[id].Live();
    assert LiveOK(tasks, rounds, id);
    assert id != round.id && rounds'[id].Live();
    assert !LiveOK(tasks[task.id := task], rounds', id);
  }

  /** Start a task with a new last round. */
  lemma LaunchKeepsOneLive(tasks: Tasks, rounds: Rounds, legacy: set<ID>, task: Task, round: Round)
    requires OneLive(tasks, rounds, legacy) && task.id in tasks && !tasks[task.id].status.Active()
             && task.status.Active()
    requires round.id !in rounds && round.taskID == task.id && round.workerID == task.workerID && round.Live()
             && round.Consistent()
    requires forall o :: o in rounds && rounds[o].taskID == task.id ==> Later(round, rounds[o])
    ensures OneLive(tasks[task.id := task], rounds[round.id := round], legacy)
  {
    var tasks', rounds' := tasks[task.id := task], rounds[round.id := round];
    forall id | id in rounds' ensures LiveOK(tasks', rounds', id) {
      if id != round.id {
        assert LiveOK(tasks, rounds, id);
      }
    }
    forall t | t in tasks'
    && tasks'[t].status.Active() ensures HasLive(rounds', t) || (t in legacy && !HasRound(rounds', t)) {
      if t == task.id {
        assert rounds'[round.id].Live();
      } else if HasLive(rounds, t) {
        var id :| id in rounds && rounds[id].taskID == t && rounds[id].Live();
        assert rounds'[id] == rounds[id];
      }
    }
  }

  lemma CreateKeepsOneLive(tasks: Tasks, rounds: Rounds, legacy: set<ID>, task: Task)
    requires OneLive(tasks, rounds, legacy) && task.id !in tasks && !task.status.Active()
    ensures OneLive(tasks[task.id := task], rounds, legacy)
  {
    forall id | id in rounds ensures LiveOK(tasks[task.id := task], rounds, id) {
      assert LiveOK(tasks, rounds, id);
    }
  }

  lemma DeleteKeepsOneLive(tasks: Tasks, rounds: Rounds, legacy: set<ID>, taskID: ID, rounds': Rounds)
    requires OneLive(tasks, rounds, legacy) && taskID in tasks && !tasks[taskID].status.Active()
    requires rounds' == map r | r in rounds && rounds[r].taskID != taskID :: rounds[r]
    ensures OneLive(tasks - {taskID}, rounds', legacy)
  {
    var tasks' := tasks - {taskID};
    forall id | id in rounds' ensures LiveOK(tasks', rounds', id) {
      assert LiveOK(tasks, rounds, id);
    }
    forall t | t in tasks'
    && tasks'[t].status.Active() ensures HasLive(rounds', t) || (t in legacy && !HasRound(rounds', t)) {
      if HasLive(rounds, t) {
        var id :| id in rounds && rounds[id].taskID == t && rounds[id].Live();
        assert rounds'[id] == rounds[id];
      }
    }
  }

  /** An active task's rounds end in its open round. */
  lemma TopIsLive(tasks: Tasks, rounds: Rounds, legacy: set<ID>, id: ID)
    requires OneLive(tasks, rounds, legacy) && id in rounds && tasks[rounds[id].taskID].status.Active()
             && Top(rounds, id)
    ensures rounds[id].Live() && rounds[id].workerID == tasks[rounds[id].taskID].workerID
  {
    var t := rounds[id].taskID;
    assert LiveOK(tasks, rounds, id);
    assert HasRound(rounds, t);
    var live :| live in rounds && rounds[live].taskID == t && rounds[live].Live();
    assert LiveOK(tasks, rounds, live);
  }

  // ---------------------------------------------------------------- leases

  predicate Holds(tasks: Tasks, t: ID, w: ID) {
    t in tasks && tasks[t].status.Active() && tasks[t].workerID == w
  }

  ghost predicate LeaseOK(tasks: Tasks, worker: Worker) {
    NoDuplicates(worker.currentTaskIDs) && forall t :: t in worker.currentTaskIDs <==> Holds(tasks, t, worker.id)
  }

  /** A worker's list names, once each, exactly the active tasks assigned to it, and their workers exist. */
  ghost predicate Leases(tasks: Tasks, workers: Workers) {
    && (forall w :: w in workers ==> workers[w].id == w && w != "" && LeaseOK(tasks, workers[w]))
    && (forall t :: t in tasks && tasks[t].status.Active() ==> tasks[t].workerID in workers)
  }

  lemma TaskKeepsLeases(tasks: Tasks, workers: Workers, task: Task)
    requires Leases(tasks, workers)
    requires if task.id in tasks then task.status.Active() == tasks[task.id].status.Active() else !task.status.Active()
    requires task.status.Active() ==> task.workerID == tasks[task.id].workerID
    ensures Leases(tasks[task.id := task], workers)
  {
    var tasks' := tasks[task.id := task];
    forall t, w ensures Holds(tasks', t, w) <==> Holds(tasks, t, w) {
    }
  }

  lemma LaunchKeepsLeases(tasks: Tasks, workers: Workers, task: Task, worker: Worker)
    requires Leases(tasks, workers) && task.id in tasks && !tasks[task.id].status.Active() && task.status.Active()
    requires worker.id in workers && worker.id == task.workerID && NoDuplicates(worker.currentTaskIDs)
    requires forall t :: t in worker.currentTaskIDs <==> t in workers[worker.id].currentTaskIDs || t == task.id
    ensures Leases(tasks[task.id := task], workers[worker.id := worker])
  {
    var tasks' := tasks[task.id := task];
    forall t, w ensures Holds(tasks', t, w) <==> Holds(tasks, t, w) || (t == task.id && w == task.workerID) {
    }
    forall w | w in workers ensures LeaseOK(tasks', if w == worker.id then worker else workers[w]) {
      assert LeaseOK(tasks, workers[w]);
    }
  }

  /** End an active task and take it off its worker's list. */
  lemma FinishKeepsLeases(tasks: Tasks, workers: Workers, task: Task, worker: Worker)
    requires Leases(tasks, workers) && task.id in tasks && tasks[task.id].status.Active() && !task.status.Active()
    requires worker.id in workers && worker.id == tasks[task.id].workerID && NoDuplicates(worker.currentTaskIDs)
    requires forall t :: t in worker.currentTaskIDs <==> t in workers[worker.id].currentTaskIDs && t != task.id
    ensures Leases(tasks[task.id := task], workers[worker.id := worker])
  {
    var tasks' := tasks[task.id := task];
    forall t, w ensures Holds(tasks', t, w) <==> Holds(tasks, t, w) && t != task.id {
    }
    forall w | w in workers ensures LeaseOK(tasks', if w == worker.id then worker else workers[w]) {
      assert LeaseOK(tasks, workers[w]);
    }
  }

  lemma DeleteKeepsLeases(tasks: Tasks, workers: Workers, taskID: ID)
    requires Leases(tasks, workers) && taskID in tasks && !tasks[taskID].status.Active()
    ensures Leases(tasks - {taskID}, workers)
  {
    forall t, w ensures Holds(tasks - {taskID}, t, w) <==> Holds(tasks, t, w) {
    }
  }

  lemma WorkerKeepsLeases(tasks: Tasks, workers: Workers, worker: Worker)
    requires Leases(tasks, workers)
    requires worker.id != ""
             && worker.currentTaskIDs == if worker.id in workers then workers[worker.id].currentTaskIDs else []
    ensures Leases(tasks, workers[worker.id := worker])
  {
    if worker.id in workers {
      assert LeaseOK(tasks, workers[worker.id]);
    }
    assert LeaseOK(tasks, worker);
  }

  lemma DropWorkerKeepsLeases(tasks: Tasks, workers: Workers, id: ID)
    requires Leases(tasks, workers) && id in workers && workers[id].currentTaskIDs == []
    ensures Leases(tasks, workers - {id})
  {
    assert LeaseOK(tasks, workers[id]);
    assert forall t :: t in tasks && tasks[t].status.Active() ==> !Holds(tasks, t, id);
  }

  // ---------------------------------------------------------------- questions

  /** A pending interaction belongs to an active task. */
  ghost predicate Questions(tasks: Tasks, interactions: Interactions) {
    forall i :: i in interactions ==> interactions[i].id == i && (interactions[i].status.ASKED? ==>
                                        interactions[i].taskID in tasks
                                        && tasks[interactions[i].taskID].status.Active())
  }

  /** Overwrite a task that does not end, and perhaps write an interaction of an active task. */
  lemma TaskKeepsQuestions(tasks: Tasks, interactions: Interactions, task: Task, written: Option<Interaction>)
    requires Questions(tasks, interactions)
    requires task.id in tasks && tasks[task.id].status.Active() ==> task.status.Active()
    requires written.Some? && written.value.status.ASKED? ==> written.value.taskID == task.id && task.status.Active()
    ensures Questions(tasks[task.id := task], PutInteraction(interactions, written))
  {
  }

  /** Whatever becomes of the task, canceling its pending interactions keeps the invariant. */
  lemma CancelKeepsQuestions(tasks: Tasks, interactions: Interactions, task: Task, written: Option<Interaction>,
                             now: Time)
    requires Questions(tasks, interactions)
    requires written.Some? && written.value.status.ASKED? ==> written.value.taskID == task.id
    ensures Questions(tasks[task.id := task], CancelPending(PutInteraction(interactions, written), task.id, now))
  {
  }

  lemma DeleteKeepsQuestions(tasks: Tasks, interactions: Interactions, taskID: ID)
    requires Questions(tasks, interactions)
    ensures Questions(tasks - {taskID}, map i | i in interactions
                      && interactions[i].taskID != taskID :: interactions[i])
  {
  }
}
