/** The reference-counted projection locks of manager/internal/app/a2a_reconciler.go. */
module LockMap {

  type TaskID = string
  type LockID = nat
  type Goroutine = nat

  /** The map a2aProjectionLocks, the counters of its lock objects and the next object to allocate. */
  datatype Table = Table(locks: map<TaskID, LockID>, refs: map<LockID, nat>, next: LockID)

  /** First critical section of withA2AProjection: find or create the lock, count this caller in. */
  function Enter(t: Table, task: TaskID): Table
    requires task in t.locks ==> t.locks[task] in t.refs
  {
    if task in t.locks then
      var lock := t.locks[task];
      t.(refs := t.refs[lock := t.refs[lock] + 1])
    else Table(t.locks[task := t.next], t.refs[t.next := 1], t.next + 1)
  }

  /** Last critical section: count out, drop the entry when the count reaches zero. */
  function Leave(t: Table, task: TaskID, lock: LockID): Table
    requires lock in t.refs && t.refs[lock] > 0
  {
    var refs := t.refs[lock := t.refs[lock] - 1];
    t.(refs := refs, locks := if refs[lock] == 0 then t.locks - {task} else t.locks)
  }

  /** Where a goroutine is: waiting for the mutex, running apply, or past the unlock. */
  datatype Phase = Outside
                 | Waiting(task: TaskID, lock: LockID)
                 | Applying(task: TaskID, lock: LockID)
                 | Leaving(task: TaskID, lock: LockID)

  /** held is the set of locked mutexes. */
  datatype State = State(table: Table, held: set<LockID>, phases: map<Goroutine, Phase>)

  datatype Action = Arrive(task: TaskID) | Acquire | Release | Depart

  ghost predicate Step(s: State, s': State, g: Goroutine, action: Action) {
    match action
    case Arrive(task) =>
      && (g in s.phases ==> s.phases[g].Outside?)
      && (task in s.table.locks ==> s.table.locks[task] in s.table.refs)
      && s'.table == Enter(s.table, task)
      && s' == s.(table := s'.table, phases := s.phases[g := Waiting(task, s'.table.locks[task])])
    case Acquire =>
      && g in s.phases && s.phases[g].Waiting? && s.phases[g].lock !in s.held
      && s' == s.(held := s.held + {s.phases[g].lock},
                  phases := s.phases[g := Applying(s.phases[g].task, s.phases[g].lock)])
    case Release =>
      && g in s.phases && s.phases[g].Applying?
      && s' == s.(held := s.held - {s.phases[g].lock},
                  phases := s.phases[g := Leaving(s.phases[g].task, s.phases[g].lock)])
    case Depart =>
      && g in s.phases && s.phases[g].Leaving?
      && s.phases[g].lock in s.table.refs && s.table.refs[s.phases[g].lock] > 0
      && s' == s.(table := Leave(s.table, s.phases[g].task, s.phases[g].lock), phases := s.phases[g := Outside])
  }

  predicate Inside(s: State, g: Goroutine) {
    g in s.phases && !s.phases[g].Outside?
  }

  predicate Applies(s: State, g: Goroutine) {
    g in s.phases && s.phases[g].Applying?
  }

  /** The goroutines counted by a lock object. */
  function Users(s: State, lock: LockID): set<Goroutine> {
    set g | g in s.phases && Inside(s, g) && s.phases[g].lock == lock
  }

  /** Everybody inside for a task uses the lock object the map holds for it. */
  ghost predicate Shared(s: State) {
    forall g :: Inside(s, g) ==>
                  s.phases[g].task in s.table.locks && s.table.locks[s.phases[g].task] == s.phases[g].lock
  }

  /** Entries are allocated, counted, and no two tasks share an object. */
  ghost predicate Distinct(t: Table) {
    && (forall k :: k in t.locks ==> t.locks[k] in t.refs && t.locks[k] < t.next)
    && (forall k, l :: k in t.locks && l in t.locks && t.locks[k] == t.locks[l] ==> k == l)
  }

  /** refs is the number of users, and an entry without users does not exist. */
  ghost predicate Counted(s: State)
    requires Distinct(s.table)
  {
    forall t :: t in s.table.locks ==> s.table.refs[s.table.locks[t]] == |Users(s, s.table.locks[t])| > 0
  }

  /** The mutex admits one goroutine. */
  ghost predicate Exclusive(s: State) {
    && (forall g :: Applies(s, g) ==> s.phases[g].lock in s.held)
    && (forall g, h :: Applies(s, g) && Applies(s, h) && s.phases[g].lock == s.phases[h].lock ==> g == h)
  }

  ghost predicate Inv(s: State) {
    Shared(s) && Distinct(s.table) && Counted(s) && Exclusive(s)
  }

  lemma UsersEnter(s: State, s': State, g: Goroutine, task: TaskID, lock: LockID)
    requires Step(s, s', g, Arrive(task))
    ensures Users(s', lock) == if lock == s'.table.locks[task] then Users(s, lock) + {g} else Users(s, lock)
    ensures g !in Users(s, lock)
  {
  }

  lemma ArriveKeepsCounted(s: State, s': State, g: Goroutine, task: TaskID)
    requires Shared(s) && Distinct(s.table) && Counted(s) && Step(s, s', g, Arrive(task))
    ensures Distinct(s'.table) && Counted(s')
  {
    forall t | t in s'.table.locks
      ensures s'.table.refs[s'.table.locks[t]] == |Users(s', s'.table.locks[t])| > 0
    {
      UsersEnter(s, s', g, task, s'.table.locks[t]);
      if task !in s.table.locks && t == task {
        assert Users(s, s.table.next) == {};
      }
    }
  }

  lemma ArriveKeepsShared(s: State, s': State, g: Goroutine, task: TaskID)
    requires Shared(s) && Step(s, s', g, Arrive(task))
    ensures Shared(s')
  {
    forall h | Inside(s', h)
      ensures s'.phases[h].task in s'.table.locks && s'.table.locks[s'.phases[h].task] == s'.phases[h].lock
    {
      assert h != g ==> Inside(s, h);
    }
  }

  lemma ExclusiveAfter(s: State, s': State, g: Goroutine, action: Action)
    requires Exclusive(s) && Step(s, s', g, action)
    ensures Exclusive(s')
  {
    forall h | Applies(s', h) ensures s'.phases[h].lock in s'.held {
      assert h != g ==> Applies(s, h);
      assert h != g && Applies(s, g) ==> s.phases[g].lock != s.phases[h].lock;
    }
    forall h, k | Applies(s', h) && Applies(s', k) && s'.phases[h].lock == s'.phases[k].lock ensures h == k {
      assert h != g ==> Applies(s, h);
      assert k != g ==> Applies(s, k);
    }
  }

  lemma MutexKeepsCounted(s: State, s': State, g: Goroutine, action: Action)
    requires Distinct(s.table) && Counted(s) && Step(s, s', g, action) && (action.Acquire? || action.Release?)
    ensures Distinct(s'.table) && Counted(s')
  {
    forall t | t in s'.table.locks
      ensures s'.table.refs[s'.table.locks[t]] == |Users(s', s'.table.locks[t])| > 0
    {
      assert Users(s', s.table.locks[t]) == Users(s, s.table.locks[t]);
    }
  }

  lemma MutexKeepsShared(s: State, s': State, g: Goroutine, action: Action)
    requires Shared(s) && Step(s, s', g, action) && (action.Acquire? || action.Release?)
    ensures Shared(s')
  {
    forall h | Inside(s', h)
      ensures s'.phases[h].task in s'.table.locks && s'.table.locks[s'.phases[h].task] == s'.phases[h].lock
    {
      assert Inside(s, h);
    }
  }

  lemma UsersLeave(s: State, s': State, g: Goroutine, lock: LockID)
    requires Step(s, s', g, Depart)
    ensures Users(s', lock) == if lock == s.phases[g].lock then Users(s, lock) - {g} else Users(s, lock)
    ensures g in Users(s, s.phases[g].lock)
  {
  }

  lemma DepartKeepsCounted(s: State, s': State, g: Goroutine)
    requires Shared(s) && Distinct(s.table) && Counted(s) && Step(s, s', g, Depart)
    ensures Distinct(s'.table) && Counted(s')
  {
    assert Inside(s, g);
    forall t | t in s'.table.locks
      ensures s'.table.refs[s'.table.locks[t]] == |Users(s', s'.table.locks[t])| > 0
    {
      UsersLeave(s, s', g, s.table.locks[t]);
    }
  }

  /** The entry is dropped only when nobody else is inside for its task. */
  lemma DepartKeepsShared(s: State, s': State, g: Goroutine)
    requires Shared(s) && Distinct(s.table) && Counted(s) && Step(s, s', g, Depart)
    ensures Shared(s')
  {
    var lock := s.phases[g].lock;
    assert Inside(s, g);
    UsersLeave(s, s', g, lock);
    forall h | Inside(s', h)
      ensures s'.phases[h].task in s'.table.locks && s'.table.locks[s'.phases[h].task] == s'.phases[h].lock
    {
      assert Inside(s, h);
      if s.phases[h].task == s.phases[g].task {
        assert h in Users(s', lock);
        assert |Users(s', lock)| == |Users(s, lock)| - 1 == s.table.refs[lock] - 1;
      }
    }
  }

  lemma StepKeepsInv(s: State, s': State, g: Goroutine, action: Action)
    requires Inv(s) && Step(s, s', g, action)
    ensures Inv(s')
  {
    ExclusiveAfter(s, s', g, action);
    match action
    case Arrive(task) => ArriveKeepsCounted(s, s', g, task); ArriveKeepsShared(s, s', g, task);
    case Acquire => MutexKeepsCounted(s, s', g, action); MutexKeepsShared(s, s', g, action);
    case Release => MutexKeepsCounted(s, s', g, action); MutexKeepsShared(s, s', g, action);
    case Depart => DepartKeepsCounted(s, s', g); DepartKeepsShared(s, s', g);
  }

  const START := State(Table(map[], map[], 0), {}, map[])

  /** Any interleaving: each state follows from the one before by a step of some goroutine. */
  ghost predicate IsRun(run: seq<State>, moves: seq<(Goroutine, Action)>) {
    && |run| == |moves| + 1 && run[0] == START
    && forall i :: 0 <= i < |moves| ==> Step(run[i], run[i + 1], moves[i].0, moves[i].1)
  }

  lemma {:induction false} RunKeepsInv(run: seq<State>, moves: seq<(Goroutine, Action)>, i: nat)
    requires IsRun(run, moves) && i < |run|
    ensures Inv(run[i])
  {
    if i > 0 {
      RunKeepsInv(run, moves, i - 1);
      StepKeepsInv(run[i - 1], run[i], moves[i - 1].0, moves[i - 1].1);
    }
  }

  /** At most one goroutine applies for a task, all callers of a task share one lock object that counts
      exactly them, the map holds an entry exactly while somebody holds or waits, and the counter that
      a goroutine inside will decrement is there and positive. */
  lemma LockMapIsSafe(run: seq<State>, moves: seq<(Goroutine, Action)>, i: nat, task: TaskID)
    requires IsRun(run, moves) && i < |run|
    ensures forall g, h :: Applies(run[i], g) && Applies(run[i], h) ==>
                             (run[i].phases[g].task == run[i].phases[h].task ==> g == h)
    ensures forall g, h :: Inside(run[i], g) && Inside(run[i], h) ==>
                             (run[i].phases[g].task == run[i].phases[h].task ==>
                                run[i].phases[g].lock == run[i].phases[h].lock)
    ensures task in run[i].table.locks <==> exists g :: Inside(run[i], g) && run[i].phases[g].task == task
    ensures task in run[i].table.locks ==>
              && run[i].table.locks[task] in run[i].table.refs
              && run[i].table.refs[run[i].table.locks[task]]
                 == |set g | g in run[i].phases && Inside(run[i], g) && run[i].phases[g].task == task|
    ensures forall g :: Inside(run[i], g) ==>
                          run[i].phases[g].lock in run[i].table.refs && run[i].table.refs[run[i].phases[g].lock] > 0
  {
    RunKeepsInv(run, moves, i);
    var s := run[i];
    if task in s.table.locks {
      var users := Users(s, s.table.locks[task]);
      assert users == set g | g in s.phases && Inside(s, g) && s.phases[g].task == task;
      var g :| g in users;
    }
  }

  /** The two critical sections on the reconciler's own fields. */
  class ProjectionLocks {
    var locks: map<TaskID, LockID>
    var refs: map<LockID, nat>
    var next: LockID

    function View(): Table
      reads this
    {
      Table(locks, refs, next)
    }

    method Count(task: TaskID) returns (lock: LockID)
      requires task in locks ==> locks[task] in refs
      modifies this
      ensures View() == Enter(old(View()), task)
      ensures task in locks && lock == locks[task]
    {
      if task in locks {
        lock := locks[task];
      } else {
        lock := next;
        next := next + 1;
        refs := refs[lock := 0];
        locks := locks[task := lock];
      }
      refs := refs[lock := refs[lock] + 1];
    }

    method Uncount(task: TaskID, lock: LockID)
      requires lock in refs && refs[lock] > 0
      modifies this
      ensures View() == Leave(old(View()), task, lock)
    {
      refs := refs[lock := refs[lock] - 1];
      if refs[lock] == 0 {
        locks := locks - {task};
      }
    }
  }
}
