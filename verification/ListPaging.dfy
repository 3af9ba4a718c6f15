/** Keyset paging of worker/internal/a2astore/store.go: List and its page tokens. */
module ListPaging {
  import opened Bytes
  import opened Wrappers
  import opened Cursor

  /** A stored task as List reads it. */
  datatype Row = Row(taskID: Text, updatedAt: int, contextID: Text, state: nat, timestamp: Option<int>)

  /** state 0 is the unspecified state, which filters nothing. */
  datatype Request = Request(contextID: Text, state: nat, timestampAfter: Option<int>, pageSize: int, pageToken: Text)

  datatype Page = Page(tasks: seq<Row>, totalSize: nat, pageSize: int, nextPageToken: Text)

  datatype Reply = Listed(page: Page) | InvalidRequest | BadToken

  const DEFAULT_PAGE_SIZE := 50

  predicate MatchesTask(row: Row, request: Request) {
    && (request.contextID != [] ==> row.contextID == request.contextID)
    && (request.state != 0 ==> row.state == request.state)
    && (request.timestampAfter.Some? && row.timestamp.Some? ==> row.timestamp.value >= request.timestampAfter.value)
  }

  /** ORDER BY updated_at DESC, task_id DESC: a comes before b. */
  predicate Above(a: Row, b: Row) {
    a.updatedAt > b.updatedAt || (a.updatedAt == b.updatedAt && Less(b.taskID, a.taskID))
  }

  /** The rows of one owner as the query returns them; task ids are the primary key. */
  ghost predicate Descending(rows: seq<Row>) {
    forall i, j :: 0 <= i < j < |rows| ==> Above(rows[i], rows[j])
  }

  ghost predicate Storable(rows: seq<Row>) {
    forall i :: 0 <= i < |rows| ==> 0 < rows[i].updatedAt <= MAX_INT64 && rows[i].taskID != []
  }

  /** The row survives the cursor test of the scan. */
  predicate Past(row: Row, cursor: (int, Text)) {
    cursor.0 == 0 || !(row.updatedAt > cursor.0 || (row.updatedAt == cursor.0 && !Less(row.taskID, cursor.1)))
  }

  predicate Kept(row: Row, request: Request, cursor: (int, Text)) {
    Past(row, cursor) && MatchesTask(row, request)
  }

  function Filtered(rows: seq<Row>, request: Request, cursor: (int, Text)): seq<Row> {
    if rows == [] then []
    else if Kept(rows[0], request, cursor) then [rows[0]] + Filtered(rows[1..], request, cursor)
    else Filtered(rows[1..], request, cursor)
  }

  function PageSize(request: Request): int {
    if request.pageSize == 0 then DEFAULT_PAGE_SIZE else request.pageSize
  }

  function List(rows: seq<Row>, request: Request): Reply {
    var size := PageSize(request);
    if size < 1 || size > 100 then InvalidRequest
    else
      match DecodeCursor(request.pageToken)
      case Err(_) => BadToken
      case Ok(cursor) => Listed(Cut(Filtered(rows, request, cursor), size))
  }

  function Cut(filtered: seq<Row>, size: int): Page
    requires size >= 1
  {
    if |filtered| > size then
      Page(filtered[..size], |filtered|, size, EncodeCursor(filtered[size - 1].updatedAt, filtered[size - 1].taskID))
    else Page(filtered, |filtered|, size, [])
  }

  lemma AboveTransitive(a: Row, b: Row, c: Row)
    requires Above(a, b) && Above(b, c)
    ensures Above(a, c)
  {
    if a.updatedAt == b.updatedAt == c.updatedAt {
      LessTransitive(c.taskID, b.taskID, a.taskID);
    }
  }

  lemma PastIsAbove(row: Row, last: Row)
    requires last.updatedAt > 0
    ensures Past(row, (last.updatedAt, last.taskID)) <==> Above(last, row)
  {
  }

  lemma {:induction false} FilteredRows(rows: seq<Row>, request: Request, cursor: (int, Text), r: Row)
    ensures r in Filtered(rows, request, cursor) <==> r in rows && Kept(r, request, cursor)
  {
    if rows != [] {
      assert rows == [rows[0]] + rows[1..];
      FilteredRows(rows[1..], request, cursor, r);
    }
  }

  lemma {:induction false} FilteredDescending(rows: seq<Row>, request: Request, cursor: (int, Text))
    requires Descending(rows)
    ensures Descending(Filtered(rows, request, cursor))
  {
    if rows != [] {
      FilteredDescending(rows[1..], request, cursor);
      if Kept(rows[0], request, cursor) {
        var rest := Filtered(rows[1..], request, cursor);
        forall j | 0 <= j < |rest| ensures Above(rows[0], rest[j]) {
          FilteredRows(rows[1..], request, cursor, rest[j]);
          var k :| 0 <= k < |rows[1..]| && rows[1..][k] == rest[j];
          assert rows[1..][k] == rows[k + 1];
        }
      }
    }
  }

  /** Below a row that passes the cursor, the two cursors keep the same rows. */
  lemma {:induction false} SameBelow(rows: seq<Row>, request: Request, cursor: (int, Text), last: Row)
    requires Past(last, cursor) && last.updatedAt > 0
    requires forall i :: 0 <= i < |rows| ==> Above(last, rows[i])
    ensures Filtered(rows, request, (last.updatedAt, last.taskID)) == Filtered(rows, request, cursor)
  {
    if rows != [] {
      PastIsAbove(rows[0], last);
      if cursor.0 != 0 && last.updatedAt == cursor.0 == rows[0].updatedAt {
        LessTransitive(rows[0].taskID, last.taskID, cursor.1);
      }
      SameBelow(rows[1..], request, cursor, last);
    }
  }

  /** The cursor of the k-th kept row resumes exactly after it. */
  lemma {:induction false} ResumeAfter(rows: seq<Row>, request: Request, cursor: (int, Text), k: nat)
    requires Descending(rows) && Storable(rows)
    requires 1 <= k <= |Filtered(rows, request, cursor)|
    ensures var kept := Filtered(rows, request, cursor);
            var last := kept[k - 1];
            Filtered(rows, request, (last.updatedAt, last.taskID)) == kept[k..]
  {
    var kept := Filtered(rows, request, cursor);
    var last := kept[k - 1];
    FilteredRows(rows, request, cursor, last);
    PastIsAbove(rows[0], last);
    if Kept(rows[0], request, cursor) && k == 1 {
      LessIrreflexive(last.taskID);
      SameBelow(rows[1..], request, cursor, last);
    } else {
      var skip := if Kept(rows[0], request, cursor) then 1 else 0;
      ResumeAfter(rows[1..], request, cursor, k - skip);
      assert last == Filtered(rows[1..], request, cursor)[k - skip - 1];
      FilteredRows(rows[1..], request, cursor, last);
      var i :| 0 <= i < |rows[1..]| && rows[1..][i] == last;
      assert Above(rows[0], rows[i + 1]);
      if Above(last, rows[0]) {
        AboveTransitive(last, rows[0], last);
        LessIrreflexive(last.taskID);
      }
    }
  }

  /** The request has a valid page size and a token that stands for the cursor. */
  predicate At(request: Request, cursor: (int, Text)) {
    1 <= PageSize(request) <= 100 && DecodeCursor(request.pageToken) == Ok(cursor)
  }

  /** Following nextPageToken until it is empty. */
  function Follow(rows: seq<Row>, request: Request, cursor: (int, Text)): seq<Row>
    requires Descending(rows) && Storable(rows) && At(request, cursor)
    decreases |Filtered(rows, request, cursor)|
  {
    var page := List(rows, request).page;
    if page.nextPageToken == [] then page.tasks
    else
      NextResumes(rows, request, cursor);
      page.tasks + Follow(rows, request.(pageToken := page.nextPageToken), NextCursor(rows, request, cursor))
  }

  /** The position the next page starts from. */
  function NextCursor(rows: seq<Row>, request: Request, cursor: (int, Text)): (int, Text)
    requires At(request, cursor) && List(rows, request).page.nextPageToken != []
  {
    var last := Filtered(rows, request, cursor)[PageSize(request) - 1];
    (last.updatedAt, last.taskID)
  }

  lemma PageIsCut(rows: seq<Row>, request: Request, cursor: (int, Text))
    requires At(request, cursor)
    ensures List(rows, request) == Listed(Cut(Filtered(rows, request, cursor), PageSize(request)))
  {
  }

  lemma CutToken(kept: seq<Row>, size: int, page: Page)
    requires size >= 1 && page == Cut(kept, size)
    ensures page.nextPageToken != [] ==> |kept| > size
    ensures page.nextPageToken != [] ==>
              page.nextPageToken == EncodeCursor(kept[size - 1].updatedAt, kept[size - 1].taskID)
    ensures page.tasks == if |kept| > size then kept[..size] else kept
  {
  }

  lemma ResumesBehind(rows: seq<Row>, request: Request, cursor: (int, Text), k: nat, token: Text, next: (int, Text))
    requires Descending(rows) && Storable(rows) && 1 <= k <= |Filtered(rows, request, cursor)|
             && token == EncodeCursor(next.0, next.1)
    requires var last := Filtered(rows, request, cursor)[k - 1]; next == (last.updatedAt, last.taskID)
    ensures DecodeCursor(token) == Ok(next)
    ensures Filtered(rows, request.(pageToken := token), next) == Filtered(rows, request, cursor)[k..]
  {
    LastDecodes(rows, request, cursor, Filtered(rows, request, cursor)[k - 1]);
    ResumeWithToken(rows, request, cursor, k, token);
  }

  lemma PageResumes(rows: seq<Row>, request: Request, cursor: (int, Text), kept: seq<Row>, size: int, page: Page,
                    next: (int, Text))
    requires Descending(rows) && Storable(rows) && size >= 1 && kept == Filtered(rows, request, cursor)
    requires page == Cut(kept, size) && page.nextPageToken != []
    requires |kept| > size ==> next == (kept[size - 1].updatedAt, kept[size - 1].taskID)
    ensures |kept| > size && DecodeCursor(page.nextPageToken) == Ok(next)
    ensures Filtered(rows, request.(pageToken := page.nextPageToken), next) == kept[size..]
  {
    CutToken(kept, size, page);
    ResumesBehind(rows, request, cursor, size, page.nextPageToken, next);
  }

  /** The token of a page decodes to the position of its last row, and the next page starts right behind it. */
  lemma NextResumes(rows: seq<Row>, request: Request, cursor: (int, Text))
    requires Descending(rows) && Storable(rows) && At(request, cursor) && List(rows, request).page.nextPageToken != []
    ensures |Filtered(rows, request, cursor)| > PageSize(request)
    ensures var token, next := List(rows, request).page.nextPageToken, NextCursor(rows, request, cursor);
            && DecodeCursor(token) == Ok(next)
            && Filtered(rows, request.(pageToken := token),
                        next) == Filtered(rows, request, cursor)[PageSize(request)..]
  {
    var kept, size, page := Filtered(rows, request, cursor), PageSize(request), List(rows, request).page;
    PageIsCut(rows, request, cursor);
    CutToken(kept, size, page);
    PageResumes(rows, request, cursor, kept, size, page, (kept[size - 1].updatedAt, kept[size - 1].taskID));
  }

  lemma LastDecodes(rows: seq<Row>, request: Request, cursor: (int, Text), last: Row)
    requires Storable(rows) && last in Filtered(rows, request, cursor)
    ensures DecodeCursor(EncodeCursor(last.updatedAt, last.taskID)) == Ok((last.updatedAt, last.taskID))
    ensures EncodeCursor(last.updatedAt, last.taskID) != []
  {
    FilteredRows(rows, request, cursor, last);
    CursorRoundTrip(last.updatedAt, last.taskID);
  }

  lemma ResumeWithToken(rows: seq<Row>, request: Request, cursor: (int, Text), k: nat, token: Text)
    requires Descending(rows) && Storable(rows)
    requires 1 <= k <= |Filtered(rows, request, cursor)|
    ensures var kept := Filtered(rows, request, cursor);
            Filtered(rows, request.(pageToken := token), (kept[k - 1].updatedAt, kept[k - 1].taskID)) == kept[k..]
  {
    var last := Filtered(rows, request, cursor)[k - 1];
    ResumeAfter(rows, request, cursor, k);
    TokenIsIgnored(rows, request, token, (last.updatedAt, last.taskID));
  }

  lemma {:induction false} TokenIsIgnored(rows: seq<Row>, request: Request, token: Text, cursor: (int, Text))
    ensures Filtered(rows, request.(pageToken := token), cursor) == Filtered(rows, request, cursor)
  {
    if rows != [] {
      TokenIsIgnored(rows[1..], request, token, cursor);
    }
  }

  lemma PageTasks(rows: seq<Row>, request: Request, cursor: (int, Text), page: Page)
    requires Storable(rows) && At(request, cursor) && List(rows, request) == Listed(page)
    ensures var kept, size := Filtered(rows, request, cursor), PageSize(request);
            if page.nextPageToken == [] then page.tasks == kept else size < |kept| && page.tasks == kept[..size]
  {
    var kept, size := Filtered(rows, request, cursor), PageSize(request);
    PageIsCut(rows, request, cursor);
    CutToken(kept, size, page);
    if |kept| > size {
      LastDecodes(rows, request, cursor, kept[size - 1]);
    }
  }

  lemma Joined(page: seq<Row>, rest: seq<Row>, kept: seq<Row>, size: int)
    requires 0 <= size <= |kept| && page == kept[..size] && rest == kept[size..]
    ensures page + rest == kept
  {
  }

  /** All pages together are the kept rows, each once and in order. */
  lemma {:induction false} FollowCollects(rows: seq<Row>, request: Request, cursor: (int, Text))
    requires Descending(rows) && Storable(rows) && At(request, cursor)
    ensures Follow(rows, request, cursor) == Filtered(rows, request, cursor)
    decreases |Filtered(rows, request, cursor)|
  {
    var page := List(rows, request).page;
    PageTasks(rows, request, cursor, page);
    if page.nextPageToken != [] {
      var token, next := page.nextPageToken, NextCursor(rows, request, cursor);
      NextResumes(rows, request, cursor);
      FollowCollects(rows, request.(pageToken := token), next);
      Joined(page.tasks, Follow(rows, request.(pageToken := token), next), Filtered(rows, request, cursor),
             PageSize(request));
    }
  }

  /** From an empty token, paging returns every matching task exactly once, newest first. */
  lemma PagingIsPartition(rows: seq<Row>, request: Request)
    requires Descending(rows) && Storable(rows)
    requires 1 <= PageSize(request) <= 100 && request.pageToken == []
    ensures var all := Follow(rows, request, (0, []));
            && Descending(all)
            && (forall r :: r in all <==> r in rows && MatchesTask(r, request))
  {
    FollowCollects(rows, request, (0, []));
    FilteredDescending(rows, request, (0, []));
    forall r ensures r in Filtered(rows, request, (0, [])) <==> r in rows && MatchesTask(r, request) {
      FilteredRows(rows, request, (0, []), r);
    }
  }

  /** The scan over the stored tasks. */
  method Scan(rows: seq<Row>, request: Request, cursor: (int, Text)) returns (filtered: seq<Row>)
    ensures filtered == Filtered(rows, request, cursor)
  {
    var (cursorTime, cursorID) := cursor;
    filtered := [];
    for i := 0 to |rows|
      invariant Filtered(rows, request, cursor) == filtered + Filtered(rows[i..], request, cursor)
    {
      var row := rows[i];
      assert rows[i..][1..] == rows[i + 1..];
      if cursorTime != 0
         && (row.updatedAt > cursorTime || (row.updatedAt == cursorTime && !Less(row.taskID, cursorID))) {
        continue;
      }
      if !MatchesTask(row, request) {
        continue;
      }
      filtered := filtered + [row];
    }
  }

  /** List as the source writes it: scan, filter, then cut the page. */
  method ListTasks(rows: seq<Row>, request: Request) returns (reply: Reply)
    ensures reply == List(rows, request)
  {
    var pageSize := request.pageSize;
    if pageSize == 0 {
      pageSize := DEFAULT_PAGE_SIZE;
    }
    if pageSize < 1 || pageSize > 100 {
      return InvalidRequest;
    }
    var decoded := DecodeCursor(request.pageToken);
    if decoded.Err? {
      return BadToken;
    }
    var filtered := Scan(rows, request, decoded.value);
    var total := |filtered|;
    var nextToken := [];
    if |filtered| > pageSize {
      var last := filtered[pageSize - 1];
      nextToken := EncodeCursor(last.updatedAt, last.taskID);
      filtered := filtered[..pageSize];
    }
    reply := Listed(Page(filtered, total, pageSize, nextToken));
  }
}
