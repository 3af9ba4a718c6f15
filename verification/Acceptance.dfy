/** What the Worker's journal accepts, over any run of its transactions: worker/internal/a2astore/extensions.go,
    journal.go and maintenance.go. */
module Acceptance {
  import opened Bytes
  import opened Wrappers
  import opened WorkerStore
  import opened Compaction

  // ---------------------------------------------------------------- CompactBefore on the tables

  /** The stored request of a command of a terminal task is dropped with age. */
  function CompactCommand(t: Tables, c: Command, cutoff: Time): Command {
    if c.taskID in t.tasks && t.tasks[c.taskID].terminal && c.createdAt < cutoff then c.(request := None) else c
  }

  /** CompactBefore on journal and commands. */
  function Compact(t: Tables, cutoff: Time): Result<Tables> {
    var _ :- Require(OneTurnEach(t), Conflict);
    var turns := OverTurns(t);
    var _ :- Require(turns == {} || AllSane(t.journal, cutoff), Conflict);
    Ok(t.(journal := Kept(t.journal, |t.journal|, cutoff, turns),
          commands := map id | id in t.commands :: CompactCommand(t, t.commands[id], cutoff)))
  }

  // ---------------------------------------------------------------- runs

  datatype Step =
    | Save(b: Binding, now: Time)
    | Take(event: Event, state: Option<Text>, now: Time)
    | Sync(events: seq<Event>, taskState: Text, now: Time)
    | Prune(cutoff: Time)
    | Store(tasks: map<ID, Task>, commands: map<ID, Command>)

  /** A transaction that fails is rolled back. Store stands for every change of the task and command tables. */
  function Apply(t: Tables, step: Step): Tables {
    match step
    case Save(b, now) => var r := SaveBinding(t, b, now); if r.Ok? then r.value else t
    case Take(event, state, now) => var r := Append(t, event, state, now); if r.Ok? then r.value.0 else t
    case Sync(events, state, now) => var r := AppendAll(t, events, state, now); if r.Ok? then r.value else t
    case Prune(cutoff) => var r := Compact(t, cutoff); if r.Ok? then r.value else t
    case Store(tasks, commands) => t.(tasks := tasks, commands := commands)
  }

  /** The sequences of execution e that one append accepts. */
  function Gain(t: Tables, event: Event, state: Option<Text>, now: Time, e: ID): seq<int> {
    var r := Append(t, event, state, now);
    if r.Ok? && r.value.1.ACCEPTED? && event.executionID == e then [event.sequence] else []
  }

  function GainAll(t: Tables, events: seq<Event>, state: Text, now: Time, e: ID): seq<int> {
    if events == [] then [] else
      var before := AppendAll(t, events[..|events| - 1], state, now);
      if before.Err? then [] else
        GainAll(t, events[..|events| - 1], state, now, e) + Gain(before.value, events[|events| - 1], Some(state), now,
                                                                 e)
  }

  /** The sequences of execution e that one step accepts. */
  function Accepted(t: Tables, step: Step, e: ID): seq<int> {
    match step
    case Take(event, state, now) => Gain(t, event, state, now, e)
    case Sync(events, state, now) => if AppendAll(t, events, state,
                                                  now).Ok? then GainAll(t, events, state, now, e) else []
    case _ => []
  }

  function Run(t: Tables, steps: seq<Step>): Tables {
    if steps == [] then t else Apply(Run(t, steps[..|steps| - 1]), steps[|steps| - 1])
  }

  function AcceptedOver(t: Tables, steps: seq<Step>, e: ID): seq<int> {
    if steps == [] then [] else
      AcceptedOver(t, steps[..|steps| - 1], e) + Accepted(Run(t, steps[..|steps| - 1]), steps[|steps| - 1], e)
  }

  /** from + 1, from + 2, ..., to. */
  predicate Consecutive(s: seq<int>, from: int, to: int) {
    |s| == to - from && forall i :: 0 <= i < |s| ==> s[i] == from + 1 + i
  }

  lemma ConsecutiveJoin(a: seq<int>, b: seq<int>, from: int, mid: int, to: int)
    requires Consecutive(a, from, mid) && Consecutive(b, mid, to)
    ensures Consecutive(a + b, from, to)
  {
  }

  lemma GainIsNext(t: Tables, event: Event, state: Option<Text>, now: Time, e: ID)
    requires e in t.bindings && Append(t, event, state, now).Ok?
    ensures var t' := Append(t, event, state, now).value.0;
            e in t'.bindings && Consecutive(Gain(t, event, state, now, e), t.bindings[e].lastSequence,
                                            t'.bindings[e].lastSequence)
  {
  }

  lemma {:induction false} GainAllIsNext(t: Tables, events: seq<Event>, state: Text, now: Time, e: ID)
    requires e in t.bindings && AppendAll(t, events, state, now).Ok?
    ensures var t' := AppendAll(t, events, state, now).value;
            e in t'.bindings && Consecutive(GainAll(t, events, state, now, e), t.bindings[e].lastSequence,
                                            t'.bindings[e].lastSequence)
  {
    if events != [] {
      var init, last := events[..|events| - 1], events[|events| - 1];
      GainAllIsNext(t, init, state, now, e);
      var mid := AppendAll(t, init, state, now).value;
      GainIsNext(mid, last, Some(state), now, e);
      var t' := AppendAll(t, events, state, now).value;
      ConsecutiveJoin(GainAll(t, init, state, now, e), Gain(mid, last, Some(state), now, e),
                      t.bindings[e].lastSequence, mid.bindings[e].lastSequence, t'.bindings[e].lastSequence);
    }
  }

  lemma StepIsNext(t: Tables, step: Step, e: ID)
    requires e in t.bindings
    ensures e in Apply(t, step).bindings
    ensures Consecutive(Accepted(t, step, e), t.bindings[e].lastSequence, Apply(t, step).bindings[e].lastSequence)
  {
    match step
    case Take(event, state, now) =>
      if Append(t, event, state, now).Ok? {
        GainIsNext(t, event, state, now, e);
      }
    case Sync(events, state, now) =>
      if AppendAll(t, events, state, now).Ok? {
        GainAllIsNext(t, events, state, now, e);
      }
    case _ =>
  }

  /** Acceptance survives compaction: over any run of saves, appends, task syncs and compactions, what the journal
      accepted of an execution is exactly the sequences between its first and its last cursor, each once and in order,
      so the cursor never falls and no sequence is accepted twice even when its row is gone. */
  lemma {:induction false} AcceptedOnceAndInOrder(t: Tables, steps: seq<Step>, e: ID)
    requires e in t.bindings
    ensures e in Run(t, steps).bindings
    ensures Consecutive(AcceptedOver(t, steps, e), t.bindings[e].lastSequence, Run(t, steps).bindings[e].lastSequence)
    ensures t.bindings[e].lastSequence <= Run(t, steps).bindings[e].lastSequence
  {
    if steps != [] {
      var init, last := steps[..|steps| - 1], steps[|steps| - 1];
      AcceptedOnceAndInOrder(t, init, e);
      StepIsNext(Run(t, init), last, e);
      ConsecutiveJoin(AcceptedOver(t, init, e), Accepted(Run(t, init), last, e),
                      t.bindings[e].lastSequence, Run(t, init).bindings[e].lastSequence,
                      Run(t, steps).bindings[e].lastSequence);
    }
  }
}
