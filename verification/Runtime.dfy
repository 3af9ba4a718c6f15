/** Sequence allocation with rollback, and its agreement with the journal: worker/internal/a2aruntime/runtime.go and
    worker/internal/a2astore/journal.go. */
module Runtime {
  import opened Bytes
  import opened Wrappers
  import opened WorkerStore

  type Goroutine = nat

  /** The capacity of the update channel. */
  const UPDATE_BUFFER := 32

  /** Inside emitEvent: emitMu taken, context checked, sequence taken from the counter. */
  datatype Phase = Idle | Entered | Checked | Allocated(sequence: int)

  /** queued counts the updates in the channel; published lists all that were ever sent. */
  datatype Execution = Execution(sequence: int, holder: Option<Goroutine>, phases: map<Goroutine, Phase>,
                                 published: seq<Event>,
                                 queued: nat, canceled: bool)

  datatype Action = Lock | Refuse | Pass | NoIdentity | Allocate | Invalidate | Send(event: Event) | Withdraw
                  | Receive | Cancel

  function PhaseOf(x: Execution, g: Goroutine): Phase {
    if g in x.phases then x.phases[g] else Idle
  }

  /** rollbackSequence. */
  function Rollback(sequence: int, mine: int): int {
    if sequence == mine then sequence - 1 else sequence
  }

  function Release(x: Execution, g: Goroutine): Execution {
    x.(holder := None, phases := x.phases[g := Idle])
  }

  /** Steps of any number of emitters, the consumer and the canceller. */
  ghost predicate Step(x: Execution, x': Execution, g: Goroutine, action: Action) {
    var phase := PhaseOf(x, g);
    match action
    case Lock => phase.Idle? && x.holder.None? && x' == x.(holder := Some(g), phases := x.phases[g := Entered])
    case Refuse => phase.Entered? && x.canceled && x' == Release(x, g)
    case Pass => phase.Entered? && !x.canceled && x' == x.(phases := x.phases[g := Checked])
    case NoIdentity => phase.Checked? && x' == Release(x, g)
    case Allocate => phase.Checked?
                     && x' == x.(sequence := x.sequence + 1, phases := x.phases[g := Allocated(x.sequence + 1)])
    case Invalidate => phase.Allocated? && x' == Release(x, g).(sequence := Rollback(x.sequence, phase.sequence))
    case Send(event) =>
      && phase.Allocated? && x.queued < UPDATE_BUFFER && event.valid && event.sequence == phase.sequence
      && x' == Release(x, g).(published := x.published + [event], queued := x.queued + 1)
    case Withdraw => phase.Allocated? && x.canceled
                     && x' == Release(x, g).(sequence := Rollback(x.sequence, phase.sequence))
    case Receive => x.queued > 0 && x' == x.(queued := x.queued - 1)
    case Cancel => x' == x.(canceled := true)
  }

  /** After Begin: the accepted event took the first sequence after the binding's last one. */
  ghost predicate Begun(x: Execution, base: int) {
    && x.holder.None? && x.phases == map[] && x.sequence == base + 1
    && |x.published| == 1 && x.published[0].sequence == base + 1 && x.published[0].valid
  }

  ghost predicate Inv(x: Execution, base: int) {
    && (forall i :: 0 <= i < |x.published| ==> x.published[i].sequence == base + 1 + i && x.published[i].valid)
    && (forall g: Goroutine :: !PhaseOf(x, g).Idle? ==> x.holder == Some(g))
    && (if x.holder.Some? && PhaseOf(x, x.holder.value).Allocated? then
          x.sequence == base + |x.published| + 1 && PhaseOf(x, x.holder.value).sequence == x.sequence
        else x.sequence == base + |x.published|)
  }

  lemma StepKeepsInv(x: Execution, x': Execution, g: Goroutine, action: Action, base: int)
    requires Inv(x, base) && Step(x, x', g, action)
    ensures Inv(x', base)
  {
    assert forall h :: h != g ==> PhaseOf(x', h) == PhaseOf(x, h);
  }

  ghost predicate IsRun(run: seq<Execution>, moves: seq<(Goroutine, Action)>, base: int) {
    && |run| == |moves| + 1 && Begun(run[0], base)
    && forall i :: 0 <= i < |moves| ==> Step(run[i], run[i + 1], moves[i].0, moves[i].1)
  }

  /** Under any interleaving of emitters, invalid events and cancellation, the published sequences continue the
      binding's last one without a gap, and the counter stands on the last published one whenever nobody is emitting. */
  lemma {:induction false} PublishedWithoutGap(run: seq<Execution>, moves: seq<(Goroutine, Action)>, base: int, i: nat)
    requires IsRun(run, moves, base) && i < |run|
    ensures Inv(run[i], base)
    ensures forall k :: 0 <= k < |run[i].published| ==> run[i].published[k].sequence == base + 1 + k
    ensures run[i].holder.None? ==> run[i].sequence == base + |run[i].published|
  {
    if i > 0 {
      PublishedWithoutGap(run, moves, base, i - 1);
      StepKeepsInv(run[i - 1], run[i], moves[i - 1].0, moves[i - 1].1, base);
    }
  }

  // ---------------------------------------------------------------- the journal sees each event more than once

  predicate Seen(p: seq<Event>, n: nat, event: Event) {
    exists i :: 0 <= i < n && i < |p| && p[i] == event
  }

  /** How far the deliveries d have come through the stream p: each is the next event or one seen before. */
  function Progress(p: seq<Event>, d: seq<Event>): Option<nat> {
    if d == [] then Some(0) else
      var before := Progress(p, d[..|d| - 1]);
      var event := d[|d| - 1];
      if before.None? || before.value > |p| then None
      else if Seen(p, before.value, event) then before
      else if before.value < |p| && p[before.value] == event then Some(before.value + 1)
      else None
  }

  /** The task's state and the clock at one delivery. */
  datatype Stamp = Stamp(state: Text, now: Time)

  /** One appendJournalEventTx per delivery, each at its own stamp; None when one of them fails. */
  function Deliver(t: Tables, d: seq<Event>, at: seq<Stamp>): Option<Tables>
    requires |at| == |d|
  {
    if d == [] then Some(t) else
      var before := Deliver(t, d[..|d| - 1], at[..|d| - 1]);
      if before.None? then None else
        var r := Append(before.value, d[|d| - 1], Some(at[|d| - 1].state), at[|d| - 1].now);
        if r.Err? then None else Some(r.value.0)
  }

  /** The deliveries that were accepted, in order. */
  function Taken(t: Tables, d: seq<Event>, at: seq<Stamp>): seq<Event>
    requires |at| == |d|
  {
    if d == [] then [] else
      var before := Deliver(t, d[..|d| - 1], at[..|d| - 1]);
      var r := if before.Some? then Append(before.value, d[|d| - 1], Some(at[|d| - 1].state), at[|d| - 1].now)
               else Err(Invalid);
      Taken(t, d[..|d| - 1], at[..|d| - 1]) + if r.Ok? && r.value.1.ACCEPTED? then [d[|d| - 1]] else []
  }

  /** A stream of execution e that continues cursor base, with identities of its own. */
  predicate Stream(p: seq<Event>, e: ID, base: int) {
    && (forall i :: 0 <= i < |p| ==> p[i].valid && p[i].executionID == e && p[i].sequence == base + 1 + i)
    && (forall i, j :: 0 <= i < j < |p| ==> p[i].id != p[j].id)
  }

  /** The first n events of the stream are recorded, the others are unknown, and the cursor stands behind them. */
  ghost predicate Holds(t: Tables, p: seq<Event>, e: ID, base: int, n: nat) {
    && n <= |p| && e in t.bindings && t.bindings[e].lastSequence == base + n
    && (forall i {:trigger Lookup(t.journal, e, p[i].id)} ::
          0 <= i < n ==> Lookup(t.journal, e, p[i].id) < |t.journal|
                         && t.journal[Lookup(t.journal, e, p[i].id)].event == Some(p[i]))
    && (forall i {:trigger Lookup(t.journal, e, p[i].id)} ::
          n <= i < |p| ==> Lookup(t.journal, e, p[i].id) == |t.journal|
                           && !SequenceUsed(t.journal, e, p[i].sequence))
  }

  /** What a lookup finds. */
  function Found(journal: seq<Row>, executionID: ID, eventID: ID): Option<Row> {
    var k := Lookup(journal, executionID, eventID);
    if k < |journal| then Some(journal[k]) else None
  }

  lemma FoundCons(head: Row, tail: seq<Row>, executionID: ID, eventID: ID)
    ensures Found([head] + tail, executionID, eventID)
            == if IsRow(head, executionID, eventID) then Some(head) else Found(tail, executionID, eventID)
  {
    assert ([head] + tail)[1..] == tail;
  }

  lemma {:induction false} InsertFound(journal: seq<Row>, row: Row, executionID: ID, eventID: ID)
    requires Found(journal, row.executionID, row.eventID) == None
    ensures Found(InsertRow(journal, row), executionID, eventID)
            == if IsRow(row, executionID, eventID) then Some(row) else Found(journal, executionID, eventID)
  {
    if journal == [] {
      FoundCons(row, [], executionID, eventID);
      assert [row] + [] == [row];
    } else if Before(row, journal[0]) {
      FoundCons(row, journal, executionID, eventID);
    } else {
      var head, tail := journal[0], journal[1..];
      assert journal == [head] + tail;
      FoundCons(head, tail, row.executionID, row.eventID);
      FoundCons(head, tail, executionID, eventID);
      FoundCons(head, InsertRow(tail, row), executionID, eventID);
      InsertFound(tail, row, executionID, eventID);
    }
  }

  /** With a new key, inserting a row changes no other lookup. */
  lemma InsertLookup(journal: seq<Row>, row: Row, executionID: ID, eventID: ID)
    requires Lookup(journal, row.executionID, row.eventID) == |journal|
    ensures var after, k := InsertRow(journal, row), Lookup(InsertRow(journal, row), executionID, eventID);
            if IsRow(row, executionID, eventID) then k < |after| && after[k] == row
            else (k < |after| <==> Lookup(journal, executionID, eventID) < |journal|)
                 && (k < |after| ==> after[k] == journal[Lookup(journal, executionID, eventID)])
  {
    InsertFound(journal, row, executionID, eventID);
  }

  lemma InsertSequence(journal: seq<Row>, row: Row, executionID: ID, sequence: int)
    requires row.event.Some? && !SequenceUsed(journal, executionID, sequence)
    requires row.executionID != executionID || row.event.value.sequence != sequence
    ensures !SequenceUsed(InsertRow(journal, row), executionID, sequence)
  {
    var after := InsertRow(journal, row);
    forall i | 0 <= i < |after|
      ensures !(after[i].executionID == executionID && after[i].event.Some?
                && after[i].event.value.sequence == sequence)
    {
      InsertHas(journal, row, after[i]);
    }
  }

  lemma NextIsAccepted(t: Tables, p: seq<Event>, e: ID, base: int, n: nat, state: Text, now: Time)
    requires Stream(p, e, base) && Holds(t, p, e, base, n) && n < |p|
    ensures var r := Append(t, p[n], Some(state), now);
            r.Ok? && r.value.1.ACCEPTED? && Holds(r.value.0, p, e, base, n + 1)
  {
    var row := RowOf(p[n]);
    var t' := Append(t, p[n], Some(state), now).value.0;
    forall i | 0 <= i < |p| ensures i <= n ==>
      Lookup(t'.journal, e, p[i].id) < |t'.journal| && t'.journal[Lookup(t'.journal, e, p[i].id)].event == Some(p[i])
      ensures i > n ==> Lookup(t'.journal, e, p[i].id) == |t'.journal| && !SequenceUsed(t'.journal, e, p[i].sequence)
    {
      InsertLookup(t.journal, row, e, p[i].id);
      if i > n {
        InsertSequence(t.journal, row, e, p[i].sequence);
      }
    }
  }

  lemma SeenIsDuplicate(t: Tables, p: seq<Event>, e: ID, base: int, n: nat, i: nat, state: Text, now: Time)
    requires Stream(p, e, base) && Holds(t, p, e, base, n) && i < n
    ensures Append(t, p[i], Some(state), now) == Ok((t, DUPLICATE))
  {
  }

  /** One more delivery: the next event is accepted, an earlier one is a duplicate. */
  lemma DeliverNext(t: Tables, p: seq<Event>, e: ID, base: int, n: nat, event: Event, state: Text, now: Time)
    requires Stream(p, e, base) && Holds(t, p, e, base, n)
    requires Seen(p, n, event) || (n < |p| && p[n] == event)
    ensures var r := Append(t, event, Some(state), now);
            && r.Ok? && (r.value.1.ACCEPTED? <==> !Seen(p, n, event))
            && Holds(r.value.0, p, e, base, if Seen(p, n, event) then n else n + 1)
  {
    if Seen(p, n, event) {
      var i :| 0 <= i < n && i < |p| && p[i] == event;
      SeenIsDuplicate(t, p, e, base, n, i, state, now);
    } else {
      NextIsAccepted(t, p, e, base, n, state, now);
    }
  }

  lemma {:induction false} ProgressBound(p: seq<Event>, d: seq<Event>)
    ensures Progress(p, d).Some? ==> Progress(p, d).value <= |p|
  {
    if d != [] {
      ProgressBound(p, d[..|d| - 1]);
    }
  }

  lemma Unfold(t: Tables, d: seq<Event>, at: seq<Stamp>, mid: Tables, r: Result<(Tables, Acceptance)>)
    requires |at| == |d| && d != [] && Deliver(t, d[..|d| - 1], at[..|d| - 1]) == Some(mid)
    requires r == Append(mid, d[|d| - 1], Some(at[|d| - 1].state), at[|d| - 1].now)
    ensures Deliver(t, d, at) == if r.Err? then None else Some(r.value.0)
    ensures Taken(t, d, at)
            == Taken(t, d[..|d| - 1], at[..|d| - 1]) + if r.Ok? && r.value.1.ACCEPTED? then [d[|d| - 1]] else []
  {
  }

  lemma OneMore(p: seq<Event>, n: nat)
    requires n < |p|
    ensures p[..n + 1] == p[..n] + [p[n]]
  {
  }

  /** The journal accepts every event of a stream once, in order and without error, however often each is delivered
      again and whatever the task's state and the clock are then. */
  lemma {:induction false} EachEventOnce(t: Tables, p: seq<Event>, d: seq<Event>, e: ID, base: int, at: seq<Stamp>)
    requires Stream(p, e, base) && Holds(t, p, e, base, 0) && Progress(p, d).Some? && |at| == |d|
    ensures Progress(p, d).value <= |p|
    ensures Deliver(t, d, at).Some? && Holds(Deliver(t, d, at).value, p, e, base, Progress(p, d).value)
    ensures Taken(t, d, at) == p[..Progress(p, d).value]
  {
    ProgressBound(p, d);
    if d != [] {
      var init, event, stamp := d[..|d| - 1], d[|d| - 1], at[|d| - 1];
      ProgressBound(p, init);
      EachEventOnce(t, p, init, e, base, at[..|d| - 1]);
      var n, mid := Progress(p, init).value, Deliver(t, init, at[..|d| - 1]).value;
      DeliverNext(mid, p, e, base, n, event, stamp.state, stamp.now);
      Unfold(t, d, at, mid, Append(mid, event, Some(stamp.state), stamp.now));
      if !Seen(p, n, event) {
        OneMore(p, n);
      }
    }
  }

  /** Artifact and status message: every event twice in a row. */
  function Twice(p: seq<Event>): seq<Event> {
    if p == [] then [] else Twice(p[..|p| - 1]) + [p[|p| - 1]] + [p[|p| - 1]]
  }

  lemma {:induction false} ProgressExtends(p: seq<Event>, event: Event, d: seq<Event>)
    requires Progress(p, d).Some?
    ensures Progress(p + [event], d) == Progress(p, d)
  {
    ProgressBound(p, d);
    if d != [] {
      var init, last := d[..|d| - 1], d[|d| - 1];
      ProgressBound(p, init);
      ProgressExtends(p, event, init);
      var n := Progress(p, init).value;
      assert forall i :: 0 <= i < n ==> (p + [event])[i] == p[i];
      assert Seen(p + [event], n, last) <==> Seen(p, n, last);
    }
  }

  lemma ProgressNext(p: seq<Event>, d: seq<Event>, event: Event, n: nat)
    requires Progress(p, d) == Some(n) && n <= |p|
    ensures Seen(p, n, event) ==> Progress(p, d + [event]) == Some(n)
    ensures !Seen(p, n, event) && n < |p| && p[n] == event ==> Progress(p, d + [event]) == Some(n + 1)
  {
    assert (d + [event])[..|d + [event]| - 1] == d;
  }

  lemma LastIsNew(p: seq<Event>, e: ID, base: int)
    requires Stream(p, e, base) && p != []
    ensures !Seen(p, |p| - 1, p[|p| - 1]) && Seen(p, |p|, p[|p| - 1]) && Stream(p[..|p| - 1], e, base)
  {
    var last := |p| - 1;
    assert p[last] == p[|p| - 1];
    assert forall i :: 0 <= i < last ==> p[..last][i] == p[i];
  }

  lemma {:induction false} TwiceIsComplete(p: seq<Event>, e: ID, base: int)
    requires Stream(p, e, base)
    ensures Progress(p, Twice(p)) == Some(|p|)
  {
    if p != [] {
      var init, last := p[..|p| - 1], p[|p| - 1];
      LastIsNew(p, e, base);
      TwiceIsComplete(init, e, base);
      assert p == init + [last];
      ProgressExtends(init, last, Twice(init));
      ProgressNext(p, Twice(init), last, |init|);
      ProgressNext(p, Twice(init) + [last], last, |p|);
    }
  }

  /** Runtime and journal agree: in any run of the emitters, what the journal accepts of the published events, each
      delivered by artifact and again by status message, is exactly the published stream, and the cursor ends on its
      last sequence. */
  lemma RuntimeAndJournalAgree(run: seq<Execution>, moves: seq<(Goroutine, Action)>, base: int, i: nat, t: Tables,
                               e: ID, at: seq<Stamp>)
    requires IsRun(run, moves, base) && i < |run| && |at| == |Twice(run[i].published)|
    requires forall k :: 0 <= k < |run[i].published| ==> run[i].published[k].executionID == e
    requires forall j, k :: 0 <= j < k < |run[i].published| ==> run[i].published[j].id != run[i].published[k].id
    requires Holds(t, run[i].published, e, base, 0)
    ensures var p := run[i].published;
            var done := Deliver(t, Twice(p), at);
            && Taken(t, Twice(p), at) == p
            && done.Some? && e in done.value.bindings && done.value.bindings[e].lastSequence == base + |p|
  {
    PublishedWithoutGap(run, moves, base, i);
    var p := run[i].published;
    TwiceIsComplete(p, e, base);
    EachEventOnce(t, p, Twice(p), e, base, at);
    assert p[..|p|] == p;
  }
}
