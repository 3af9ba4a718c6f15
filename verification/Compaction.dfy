/** Retention: retentionTargets, deleteExpiredTerminalTurnEvents and CompactBefore in
    worker/internal/a2astore/maintenance.go. */
module Compaction {
  import opened Bytes
  import opened Wrappers
  import opened WorkerStore

  // ---------------------------------------------------------------- which turns are over

  /** The turns named by the terminal, or by the active, ones of some tasks. */
  function TurnsAmong(t: Tables, ids: set<ID>, terminal: bool): set<TurnID> {
    set id, turn | id in ids && id in t.tasks && t.tasks[id].terminal == terminal && turn in t.tasks[id].turns :: turn
  }

  function TaskTurns(t: Tables, terminal: bool): set<TurnID> {
    TurnsAmong(t, t.tasks.Keys, terminal)
  }

  lemma TurnsWithOneMore(t: Tables, ids: set<ID>, id: ID, terminal: bool)
    requires id in t.tasks
    ensures TurnsAmong(t, ids + {id}, terminal)
         == TurnsAmong(t, ids, terminal) + if t.tasks[id].terminal == terminal then t.tasks[id].turns else {}
  {
    var after := TurnsAmong(t, ids, terminal) + if t.tasks[id].terminal == terminal then t.tasks[id].turns else {};
    forall x ensures x in TurnsAmong(t, ids + {id}, terminal) <==> x in after {
    }
  }

  function BindingTurns(t: Tables, terminal: bool): set<TurnID> {
    set e | e in t.bindings && t.bindings[e].taskID in t.tasks && t.tasks[t.bindings[e].taskID].terminal == terminal
      :: TurnID(e, t.bindings[e].turn)
  }

  /** Every task names at most one turn. */
  predicate OneTurnEach(t: Tables) {
    forall id :: id in t.tasks ==> |t.tasks[id].turns| <= 1
  }

  /** The turns of terminal tasks that no active task refers to. */
  function OverTurns(t: Tables): set<TurnID> {
    TaskTurns(t, true) + BindingTurns(t, true) - (TaskTurns(t, false) + BindingTurns(t, false))
  }

  /** The task scan of retentionTargets. */
  method ScanTasks(t: Tables) returns (r: Result<(set<TurnID>, set<TurnID>)>)
    ensures r.Ok? <==> OneTurnEach(t)
    ensures r.Ok? ==> r.value.0 == TaskTurns(t, true) && r.value.1 == TaskTurns(t, false)
  {
    var terminalTurns, activeTurns: set<TurnID> := {}, {};
    var todo := t.tasks.Keys;
    ghost var done: set<ID> := {};
    while todo != {}
      invariant todo == t.tasks.Keys - done && done <= t.tasks.Keys
      invariant forall id :: id in done ==> |t.tasks[id].turns| <= 1
      invariant terminalTurns == TurnsAmong(t, done, true)
      invariant activeTurns == TurnsAmong(t, done, false)
      decreases todo
    {
      var id :| id in todo;
      todo := todo - {id};
      if |t.tasks[id].turns| > 1 {
        return Err(Conflict);
      }
      terminalTurns, activeTurns := AddTurns(t, done, id, terminalTurns, activeTurns);
      done := done + {id};
    }
    assert done == t.tasks.Keys;
    return Ok((terminalTurns, activeTurns));
  }

  method AddTurns(t: Tables, ghost done: set<ID>, id: ID, terminalTurns: set<TurnID>, activeTurns: set<TurnID>)
    returns (terminalTurns': set<TurnID>, activeTurns': set<TurnID>)
    requires id in t.tasks && terminalTurns == TurnsAmong(t, done, true) && activeTurns == TurnsAmong(t, done, false)
    ensures terminalTurns' == TurnsAmong(t, done + {id}, true) && activeTurns' == TurnsAmong(t, done + {id}, false)
  {
    TurnsWithOneMore(t, done, id, true);
    TurnsWithOneMore(t, done, id, false);
    terminalTurns', activeTurns' := terminalTurns, activeTurns;
    if t.tasks[id].terminal {
      terminalTurns' := terminalTurns + t.tasks[id].turns;
    } else {
      activeTurns' := activeTurns + t.tasks[id].turns;
    }
  }

  /** retentionTargets. */
  method RetentionTargets(t: Tables) returns (r: Result<set<TurnID>>)
    ensures r.Ok? <==> OneTurnEach(t)
    ensures r.Ok? ==> r.value == OverTurns(t)
  {
    var scanned := ScanTasks(t);
    if scanned.Err? {
      return Err(scanned.error);
    }
    var terminalTurns, activeTurns := scanned.value.0, scanned.value.1;
    var todo := t.bindings.Keys;
    while todo != {}
      invariant todo <= t.bindings.Keys
      invariant forall x :: x in terminalTurns <==>
                              x in TaskTurns(t, true) || (x in BindingTurns(t, true) && x.executionID !in todo)
      invariant forall x :: x in activeTurns <==>
                              x in TaskTurns(t, false) || (x in BindingTurns(t, false) && x.executionID !in todo)
      decreases |todo|
    {
      var e :| e in todo;
      todo := todo - {e};
      var b := t.bindings[e];
      if b.taskID in t.tasks {
        if t.tasks[b.taskID].terminal {
          terminalTurns := terminalTurns + {TurnID(e, b.turn)};
        } else {
          activeTurns := activeTurns + {TurnID(e, b.turn)};
        }
      }
    }
    return Ok(terminalTurns - activeTurns);
  }

  // ---------------------------------------------------------------- the reference: a filter

  predicate Sane(row: Row) {
    row.event.Some? && row.event.value.valid && row.event.value.executionID == row.executionID
    && row.event.value.id == row.eventID
  }

  /** The row is older than the cutoff and belongs to a turn that is over. */
  predicate Doomed(row: Row, cutoff: Time, turns: set<TurnID>) {
    row.createdAt < cutoff && row.event.Some? && TurnID(row.event.value.executionID, row.event.value.turn) in turns
  }

  /** The rows kept among the first n. */
  function Kept(journal: seq<Row>, n: nat, cutoff: Time, turns: set<TurnID>): seq<Row>
    requires n <= |journal|
  {
    if n == 0 then [] else
      Kept(journal, n - 1, cutoff, turns) + if Doomed(journal[n - 1], cutoff, turns) then [] else [journal[n - 1]]
  }

  predicate AllSane(journal: seq<Row>, cutoff: Time) {
    forall i :: 0 <= i < |journal| && journal[i].createdAt < cutoff ==> Sane(journal[i])
  }

  /** What is kept is a row that is not doomed, and the other way round. */
  lemma {:induction false} KeptIsFilter(journal: seq<Row>, n: nat, cutoff: Time, turns: set<TurnID>, row: Row)
    requires n <= |journal|
    ensures row in Kept(journal, n, cutoff, turns) <==>
              exists i :: 0 <= i < n && journal[i] == row && !Doomed(row, cutoff, turns)
  {
    if n > 0 {
      KeptIsFilter(journal, n - 1, cutoff, turns, row);
    }
  }

  /** The kept rows stay in index order, and there are no more of them. */
  lemma {:induction false} KeptStaysOrdered(journal: seq<Row>, n: nat, cutoff: Time, turns: set<TurnID>)
    requires Ordered(journal) && n <= |journal|
    ensures Ordered(Kept(journal, n, cutoff, turns)) && |Kept(journal, n, cutoff, turns)| <= n
  {
    if n > 0 {
      KeptStaysOrdered(journal, n - 1, cutoff, turns);
      var kept := Kept(journal, n - 1, cutoff, turns);
      forall i | 0 <= i < |kept| ensures Before(kept[i], journal[n - 1]) {
        KeptIsFilter(journal, n - 1, cutoff, turns, kept[i]);
        var k :| 0 <= k < n - 1 && journal[k] == kept[i];
        assert Before(journal[k], journal[n - 1]);
      }
    }
  }

  /** Rows that are too young are all kept. */
  lemma {:induction false} KeptYoung(journal: seq<Row>, x: nat, n: nat, cutoff: Time, turns: set<TurnID>)
    requires x <= n <= |journal| && forall i :: x <= i < n ==> journal[i].createdAt >= cutoff
    ensures Kept(journal, n, cutoff, turns) == Kept(journal, x, cutoff, turns) + journal[x..n]
    decreases n
  {
    if n > x {
      KeptYoung(journal, x, n - 1, cutoff, turns);
      assert journal[x..n] == journal[x..n - 1] + [journal[n - 1]];
    }
  }

  // ---------------------------------------------------------------- the queries

  /** The rows a page query selects, before its limit. */
  function After(journal: seq<Row>, cutoff: Time, cursor: Option<Row>): seq<Row> {
    if journal == [] then [] else
      After(journal[..|journal| - 1], cutoff, cursor)
      + if journal[|journal| - 1].createdAt < cutoff
      && (cursor.None? || Before(cursor.value, journal[|journal| - 1])) then [journal[|journal| - 1]] else []
  }

  /** DELETE by primary key and age. */
  function DeleteRow(journal: seq<Row>, executionID: ID, eventID: ID, cutoff: Time): seq<Row> {
    if journal == [] then [] else
      DeleteRow(journal[..|journal| - 1], executionID, eventID, cutoff)
      + if IsRow(journal[|journal| - 1], executionID, eventID)
      && journal[|journal| - 1].createdAt < cutoff then [] else [journal[|journal| - 1]]
  }

  lemma {:induction false} AfterAppend(a: seq<Row>, b: seq<Row>, cutoff: Time, cursor: Option<Row>)
    ensures After(a + b, cutoff, cursor) == After(a, cutoff, cursor) + After(b, cutoff, cursor)
  {
    if b == [] {
      assert a + b == a;
    } else {
      assert (a + b)[..|a + b| - 1] == a + b[..|b| - 1];
      AfterAppend(a, b[..|b| - 1], cutoff, cursor);
    }
  }

  predicate IsAhead(rows: seq<Row>, cutoff: Time, cursor: Option<Row>) {
    forall i :: 0 <= i < |rows| ==> rows[i].createdAt < cutoff && (cursor.None? || Before(cursor.value, rows[i]))
  }

  lemma {:induction false} AfterAll(rows: seq<Row>, cutoff: Time, cursor: Option<Row>)
    requires IsAhead(rows, cutoff, cursor)
    ensures After(rows, cutoff, cursor) == rows
  {
    if rows != [] {
      assert IsAhead(rows[..|rows| - 1], cutoff, cursor);
      AfterAll(rows[..|rows| - 1], cutoff, cursor);
    }
  }

  lemma {:induction false} AfterNone(rows: seq<Row>, cutoff: Time, cursor: Option<Row>)
    requires forall i :: 0 <= i < |rows| ==>
                           rows[i].createdAt >= cutoff || (cursor.Some? && !Before(cursor.value, rows[i]))
    ensures After(rows, cutoff, cursor) == []
  {
    if rows != [] {
      AfterNone(rows[..|rows| - 1], cutoff, cursor);
    }
  }

  lemma {:induction false} DeleteAppend(a: seq<Row>, b: seq<Row>, executionID: ID, eventID: ID, cutoff: Time)
    ensures DeleteRow(a + b, executionID, eventID,
                      cutoff) == DeleteRow(a, executionID, eventID, cutoff) + DeleteRow(b, executionID, eventID, cutoff)
  {
    if b == [] {
      assert a + b == a;
    } else {
      assert (a + b)[..|a + b| - 1] == a + b[..|b| - 1];
      DeleteAppend(a, b[..|b| - 1], executionID, eventID, cutoff);
    }
  }

  predicate NoneIs(rows: seq<Row>, executionID: ID, eventID: ID) {
    forall i :: 0 <= i < |rows| ==> !IsRow(rows[i], executionID, eventID)
  }

  lemma {:induction false} DeleteOther(rows: seq<Row>, executionID: ID, eventID: ID, cutoff: Time)
    requires NoneIs(rows, executionID, eventID)
    ensures DeleteRow(rows, executionID, eventID, cutoff) == rows
  {
    if rows != [] {
      DeleteOther(rows[..|rows| - 1], executionID, eventID, cutoff);
    }
  }

  // ---------------------------------------------------------------- paging while deleting

  /** The primary key. */
  predicate Unique(journal: seq<Row>) {
    forall i, j {:trigger IsRow(journal[i], journal[j].executionID, journal[j].eventID)} ::
      0 <= i < j < |journal| ==> !IsRow(journal[i], journal[j].executionID, journal[j].eventID)
  }

  /** A table in index order under its primary key. */
  type Journal = j: seq<Row> | Ordered(j) && Unique(j)

  /** The number of expired rows among the first n. */
  function Expired(journal: seq<Row>, n: nat, cutoff: Time): nat
    requires n <= |journal|
  {
    if n == 0 then 0 else Expired(journal, n - 1, cutoff) + if journal[n - 1].createdAt < cutoff then 1 else 0
  }

  /** The expired rows come first. */
  predicate Splits(journal: seq<Row>, cutoff: Time, x: nat) {
    && x <= |journal| && (forall i :: 0 <= i < x ==> journal[i].createdAt < cutoff)
    && (forall i :: x <= i < |journal| ==> journal[i].createdAt >= cutoff)
  }

  lemma {:induction false} ExpiredComeFirst(journal: seq<Row>, n: nat, cutoff: Time)
    requires Ordered(journal) && n <= |journal|
    ensures Expired(journal, n, cutoff) <= n
    ensures forall i :: 0 <= i < Expired(journal, n, cutoff) ==> journal[i].createdAt < cutoff
    ensures forall i :: Expired(journal, n, cutoff) <= i < n ==> journal[i].createdAt >= cutoff
  {
    if n > 0 {
      ExpiredComeFirst(journal, n - 1, cutoff);
      assert forall i :: 0 <= i < n - 1 ==> Before(journal[i], journal[n - 1]);
    }
  }

  function CursorAt(journal: seq<Row>, m: nat): Option<Row>
    requires m <= |journal|
  {
    if m == 0 then None else Some(journal[m - 1])
  }

  /** The table after the first m rows of the original were visited, one by one. */
  function Visited(original: seq<Row>, m: nat, cutoff: Time, turns: set<TurnID>): seq<Row>
    requires m <= |original|
  {
    if m == 0 then original else
      var before, row := Visited(original, m - 1, cutoff, turns), original[m - 1];
      if Doomed(row, cutoff, turns) then DeleteRow(before, row.executionID, row.eventID, cutoff) else before
  }

  lemma BehindCursor(journal: seq<Row>, m: nat, cutoff: Time, turns: set<TurnID>, row: Row)
    requires Ordered(journal) && 0 < m <= |journal| && row in Kept(journal, m, cutoff, turns)
    ensures !Before(journal[m - 1], row)
  {
    KeptIsFilter(journal, m, cutoff, turns, row);
    var i :| 0 <= i < m && journal[i] == row;
    if i < m - 1 {
      assert Before(journal[i], journal[m - 1]);
      BeforeAsymmetric(row, journal[m - 1]);
    } else {
      LessIrreflexive(row.executionID);
      LessIrreflexive(row.eventID);
    }
  }

  lemma VisitedIsBehind(journal: seq<Row>, m: nat, cutoff: Time, turns: set<TurnID>)
    requires Ordered(journal) && m <= |journal|
    ensures After(Kept(journal, m, cutoff, turns), cutoff, CursorAt(journal, m)) == []
  {
    var cursor, kept := CursorAt(journal, m), Kept(journal, m, cutoff, turns);
    forall i | 0 <= i < |kept| ensures cursor.Some? && !Before(cursor.value, kept[i]) {
      if m > 0 {
        BehindCursor(journal, m, cutoff, turns, kept[i]);
      }
    }
    AfterNone(kept, cutoff, cursor);
  }

  lemma StretchIsAhead(journal: seq<Row>, m: nat, x: nat, cutoff: Time)
    requires Ordered(journal) && Splits(journal, cutoff, x) && m <= x
    ensures IsAhead(journal[m..x], cutoff, CursorAt(journal, m))
  {
    var ahead, cursor := journal[m..x], CursorAt(journal, m);
    forall i | 0 <= i < |ahead| ensures ahead[i].createdAt < cutoff
    && (cursor.None? || Before(cursor.value, ahead[i])) {
      assert ahead[i] == journal[m + i];
      assert m > 0 ==> Before(journal[m - 1], journal[m + i]);
    }
  }

  lemma RestIsAhead(journal: seq<Row>, m: nat, x: nat, cutoff: Time)
    requires Ordered(journal) && Splits(journal, cutoff, x) && m <= x
    ensures After(journal[m..], cutoff, CursorAt(journal, m)) == journal[m..x]
  {
    StretchIsAhead(journal, m, x, cutoff);
    AfterAll(journal[m..x], cutoff, CursorAt(journal, m));
    AfterNone(journal[x..], cutoff, CursorAt(journal, m));
    AfterAppend(journal[m..x], journal[x..], cutoff, CursorAt(journal, m));
    assert journal[m..] == journal[m..x] + journal[x..];
  }

  predicate SaneUpTo(journal: seq<Row>, m: nat)
    requires m <= |journal|
  {
    forall i :: 0 <= i < m ==> Sane(journal[i])
  }

  /** Deleting the row behind the kept ones deletes it and nothing else. */
  lemma DeleteNext(journal: seq<Row>, m: nat, cutoff: Time, turns: set<TurnID>)
    requires Unique(journal) && m < |journal| && journal[m].createdAt < cutoff
    ensures var row, kept := journal[m], Kept(journal, m, cutoff, turns);
            DeleteRow(kept + journal[m..], row.executionID, row.eventID, cutoff) == kept + journal[m + 1..]
  {
    var row, kept, rest := journal[m], Kept(journal, m, cutoff, turns), journal[m + 1..];
    assert journal[m..] == [row] + rest;
    OthersDiffer(journal, m, cutoff, turns);
    DeleteOther(kept, row.executionID, row.eventID, cutoff);
    DeleteOther(rest, row.executionID, row.eventID, cutoff);
    DeleteAppend(kept, journal[m..], row.executionID, row.eventID, cutoff);
    DeleteAppend([row], rest, row.executionID, row.eventID, cutoff);
    assert DeleteRow([row], row.executionID, row.eventID, cutoff) == [];
  }

  /** What visiting leaves: the kept rows, then the rest of the table. */
  lemma {:induction false} VisitedIs(journal: seq<Row>, m: nat, cutoff: Time, turns: set<TurnID>)
    requires Unique(journal) && m <= |journal|
    ensures Visited(journal, m, cutoff, turns) == Kept(journal, m, cutoff, turns) + journal[m..]
  {
    if m > 0 {
      VisitedIs(journal, m - 1, cutoff, turns);
      if Doomed(journal[m - 1], cutoff, turns) {
        DeleteNext(journal, m - 1, cutoff, turns);
      } else {
        assert journal[m - 1..] == [journal[m - 1]] + journal[m..];
      }
    }
  }

  /** Visiting one more row makes the table one row shorter exactly if the row is doomed. */
  lemma VisitCounts(journal: seq<Row>, m: nat, cutoff: Time, turns: set<TurnID>)
    requires Unique(journal) && m < |journal|
    ensures |Visited(journal, m + 1, cutoff, turns)|
            == |Visited(journal, m, cutoff, turns)| - if Doomed(journal[m], cutoff, turns) then 1 else 0
  {
    VisitedIs(journal, m, cutoff, turns);
    VisitedIs(journal, m + 1, cutoff, turns);
  }

  lemma OthersDiffer(journal: seq<Row>, m: nat, cutoff: Time, turns: set<TurnID>)
    requires Unique(journal) && m < |journal|
    ensures NoneIs(Kept(journal, m, cutoff, turns), journal[m].executionID, journal[m].eventID)
    ensures NoneIs(journal[m + 1..], journal[m].executionID, journal[m].eventID)
  {
    var kept, rest := Kept(journal, m, cutoff, turns), journal[m + 1..];
    forall i | 0 <= i < |kept| ensures !IsRow(kept[i], journal[m].executionID, journal[m].eventID) {
      KeptIsFilter(journal, m, cutoff, turns, kept[i]);
      var k :| 0 <= k < m && journal[k] == kept[i];
      assert !IsRow(journal[k], journal[m].executionID, journal[m].eventID);
    }
    forall i | 0 <= i < |rest| ensures !IsRow(rest[i], journal[m].executionID, journal[m].eventID) {
      assert rest[i] == journal[m + 1 + i];
      assert !IsRow(journal[m], journal[m + 1 + i].executionID, journal[m + 1 + i].eventID);
    }
  }

  /** The next page is the next stretch of the original table, whatever was deleted before it. */
  lemma PageIsNextStretch(journal: seq<Row>, m: nat, x: nat, cutoff: Time, turns: set<TurnID>)
    requires Ordered(journal) && Unique(journal) && Splits(journal, cutoff, x) && m <= x
    ensures After(Visited(journal, m, cutoff, turns), cutoff, CursorAt(journal, m)) == journal[m..x]
  {
    VisitedIs(journal, m, cutoff, turns);
    VisitedIsBehind(journal, m, cutoff, turns);
    RestIsAhead(journal, m, x, cutoff);
    AfterAppend(Kept(journal, m, cutoff, turns), journal[m..], cutoff, CursorAt(journal, m));
  }

  lemma AllVisited(journal: seq<Row>, x: nat, cutoff: Time, turns: set<TurnID>)
    requires Unique(journal) && Splits(journal, cutoff, x)
    ensures Visited(journal, x, cutoff, turns) == Kept(journal, |journal|, cutoff, turns)
    ensures AllSane(journal, cutoff) <==> SaneUpTo(journal, x)
  {
    VisitedIs(journal, x, cutoff, turns);
    KeptYoung(journal, x, |journal|, cutoff, turns);
  }

  const PAGE_SIZE := 256

  /** The rows of one page, in order; stops at the first row that does not decode to itself. */
  method DeletePage(ghost original: seq<Row>, ghost m: nat, page: seq<Row>, journal: seq<Row>, cutoff: Time,
                    turns: set<TurnID>)
    returns (r: Result<nat>, after: seq<Row>)
    requires Unique(original) && m + |page| <= |original| && page == original[m..m + |page|]
    requires forall i :: m <= i < m + |page| ==> original[i].createdAt < cutoff
    requires journal == Visited(original, m, cutoff, turns)
    ensures r.Ok? <==> forall i :: 0 <= i < |page| ==> Sane(page[i])
    ensures r.Ok? ==> after == Visited(original, m + |page|, cutoff, turns) && r.value == |journal| - |after|
  {
    after := journal;
    var deleted := 0;
    for i := 0 to |page|
      invariant forall j :: 0 <= j < i ==> Sane(page[j])
      invariant after == Visited(original, m + i, cutoff, turns) && deleted == |journal| - |after|
    {
      var item := page[i];
      if item.event.None? || !item.event.value.valid
         || item.event.value.executionID != item.executionID || item.event.value.id != item.eventID {
        return Err(Conflict), after;
      }
      VisitCounts(original, m + i, cutoff, turns);
      if TurnID(item.event.value.executionID, item.event.value.turn) in turns {
        after := DeleteRow(after, item.executionID, item.eventID, cutoff);
        deleted := deleted + 1;
      }
    }
    return Ok(deleted), after;
  }

  function Page(selected: seq<Row>): seq<Row> {
    if |selected| > PAGE_SIZE then selected[..PAGE_SIZE] else selected
  }

  lemma PageOfStretch(journal: seq<Row>, m: nat, x: nat)
    requires m <= x <= |journal|
    ensures var page := Page(journal[m..x]);
            && m + |page| <= x && page == journal[m..m + |page|]
            && (|page| < PAGE_SIZE ==> m + |page| == x)
            && (|page| > 0 ==> Some(page[|page| - 1]) == CursorAt(journal, m + |page|))
  {
  }

  lemma SaneFurther(journal: seq<Row>, m: nat, page: seq<Row>)
    requires m + |page| <= |journal| && page == journal[m..m + |page|] && SaneUpTo(journal, m)
    ensures SaneUpTo(journal, m + |page|) <==> forall i :: 0 <= i < |page| ==> Sane(page[i])
  {
    forall i | 0 <= i < |page| ensures page[i] == journal[m + i] {
    }
    if forall i :: 0 <= i < |page| ==> Sane(page[i]) {
      forall i | 0 <= i < m + |page| ensures Sane(journal[i]) {
        assert i >= m ==> page[i - m] == journal[i];
      }
    }
  }

  /** visited are the first m rows of the table. */
  ghost predicate Looked(visited: seq<Row>, original: seq<Row>, m: nat) {
    |visited| == m <= |original| && forall i :: 0 <= i < m ==> visited[i] == original[i]
  }

  lemma Longer(original: seq<Row>, m: nat, page: seq<Row>, visited: seq<Row>)
    requires Looked(visited, original, m) && m + |page| <= |original| && page == original[m..m + |page|]
    ensures Looked(visited + page, original, m + |page|)
  {
    forall i | 0 <= i < m + |page| ensures (visited + page)[i] == original[i] {
      assert i >= m ==> page[i - m] == original[i];
    }
  }

  /** The number of expired rows of a table. */
  function Old(journal: Journal, cutoff: Time): nat {
    Expired(journal, |journal|, cutoff)
  }

  /** One round of the keyset loop: query the page behind the cursor and work through it. */
  method VisitPage(ghost original: Journal, ghost m: nat, ghost visited: seq<Row>,
                   journal: seq<Row>, cursor: Option<Row>, cutoff: Time, turns: set<TurnID>)
    returns (r: Result<nat>, after: seq<Row>, page: seq<Row>, ghost seen: seq<Row>)
    requires m <= Old(original, cutoff) && m <= |original| && SaneUpTo(original, m)
    requires cursor == CursorAt(original, m) && journal == Visited(original, m, cutoff, turns)
             && Looked(visited, original, m)
    ensures m + |page| <= Old(original, cutoff) && m + |page| <= |original| && Looked(seen, original, m + |page|)
    ensures |page| < PAGE_SIZE ==> m + |page| == Old(original, cutoff)
    ensures |page| > 0 ==> Some(page[|page| - 1]) == CursorAt(original, m + |page|)
    ensures r.Ok? <==> SaneUpTo(original, m + |page|)
    ensures r.Ok? ==> after == Visited(original, m + |page|, cutoff, turns) && r.value == |journal| - |after|
  {
    ghost var x := Old(original, cutoff);
    ExpiredComeFirst(original, |original|, cutoff);
    PageIsNextStretch(original, m, x, cutoff, turns);
    page := Page(After(journal, cutoff, cursor));
    PageOfStretch(original, m, x);
    SaneFurther(original, m, page);
    r, after := DeletePage(original, m, page, journal, cutoff, turns);
    seen := visited + page;
    Longer(original, m, page, visited);
  }

  lemma NothingVisited(original: Journal, cutoff: Time, turns: set<TurnID>)
    ensures Visited(original, 0, cutoff, turns) == original && 0 <= Old(original, cutoff) <= |original|
  {
    ExpiredComeFirst(original, |original|, cutoff);
  }

  /** The keyset loop over pages of the table; visited are the rows it looked at, in order. */
  method DeletePages(original: Journal, cutoff: Time, turns: set<TurnID>)
    returns (r: Result<nat>, journal: seq<Row>, ghost visited: seq<Row>)
    requires Old(original, cutoff) <= |original|
    ensures r.Ok? <==> SaneUpTo(original, Old(original, cutoff))
    ensures r.Ok? ==>
              journal == Visited(original, Old(original, cutoff), cutoff, turns) && r.value == |original| - |journal|
    ensures r.Ok? ==> Looked(visited, original, Old(original, cutoff))
    ensures r.Err? ==> journal == original
  {
    NothingVisited(original, cutoff, turns);
    journal, visited := original, [];
    var deleted := 0;
    var cursor: Option<Row> := None;
    ghost var m := 0;
    while true
      invariant m <= Old(original, cutoff) && cursor == CursorAt(original, m)
                && journal == Visited(original, m, cutoff, turns)
      invariant deleted == |original| - |journal| && SaneUpTo(original, m) && Looked(visited, original, m)
      decreases Old(original, cutoff) - m
    {
      var done, after, page, seen := VisitPage(original, m, visited, journal, cursor, cutoff, turns);
      if done.Err? {
        assert !SaneUpTo(original, m + |page|);
        return done, original, visited;
      }
      deleted, journal, visited, m := deleted + done.value, after, seen, m + |page|;
      if |page| < PAGE_SIZE {
        break;
      }
      cursor := Some(page[|page| - 1]);
    }
    return Ok(deleted), journal, visited;
  }

  /** deleteExpiredTerminalTurnEvents: the paged deletion is the filter, it counts what it deletes, it looks at every
      expired row once, and it fails exactly when it meets an expired row that is not its own event. A failed
      transaction is rolled back. */
  method DeleteExpiredTerminalTurnEvents(original: Journal, cutoff: Time, turns: set<TurnID>)
    returns (r: Result<nat>, journal: seq<Row>, ghost visited: seq<Row>)
    ensures r.Ok? <==> turns == {} || AllSane(original, cutoff)
    ensures r.Ok? ==> journal == Kept(original, |original|, cutoff, turns) && r.value == |original| - |journal|
    ensures r.Ok? && turns != {} ==> exists x: nat :: Splits(original, cutoff, x) && Looked(visited, original, x)
    ensures r.Err? ==> journal == original
  {
    if turns == {} {
      KeptNothingOver(original, |original|, cutoff);
      return Ok(0), original, [];
    }
    ExpiredComeFirst(original, |original|, cutoff);
    AllVisited(original, Old(original, cutoff), cutoff, turns);
    r, journal, visited := DeletePages(original, cutoff, turns);
    assert Splits(original, cutoff, Old(original, cutoff));
  }

  lemma {:induction false} KeptNothingOver(journal: seq<Row>, n: nat, cutoff: Time)
    requires n <= |journal|
    ensures Kept(journal, n, cutoff, {}) == journal[..n]
  {
    if n > 0 {
      KeptNothingOver(journal, n - 1, cutoff);
    }
  }
}
