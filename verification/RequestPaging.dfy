/** Cursor paging over the request log (internal/core/request_service.go, internal/store/records.go). */
module RequestPaging {
  import opened Wrappers

  datatype Record = Record(id: int, rest: string)

  /** The log, oldest first: ids are assigned in increasing order. */
  predicate Log(table: seq<Record>) { forall i, j :: 0 <= i < j < |table| ==> table[i].id < table[j].id }

  predicate Before(id: int, before: Option<int>) { before.None? || id < before.value }

  /** WHERE filter AND id < before ORDER BY id DESC */
  function Matching(table: seq<Record>, keep: Record -> bool, before: Option<int>): seq<Record> {
    if table == [] then []
    else
      var last := table[|table| - 1];
      (if keep(last) && Before(last.id, before) then [last] else [])
      + Matching(table[..|table| - 1], keep, before)
  }

  /** RequestRecordRepo.Query; no limit when it is not positive. */
  function Query(table: seq<Record>, keep: Record -> bool, before: Option<int>, limit: int): seq<Record> {
    var rows := Matching(table, keep, before);
    if 0 < limit < |rows| then rows[..limit] else rows
  }

  function NormalLimit(limit: int): (r: int)
    ensures 1 <= r <= 200
  {
    if limit <= 0 || limit > 200 then 50 else limit
  }

  datatype Page = Page(records: seq<Record>, next: Option<int>)

  /** RequestService.QueryPage fetches one row more than a page holds. */
  function QueryPage(table: seq<Record>, keep: Record -> bool, before: Option<int>, limit: int): Page {
    var n := NormalLimit(limit);
    var records := Query(table, keep, before, n + 1);
    if |records| <= n then Page(records, None) else Page(records[..n], Some(records[n - 1].id))
  }

  // ---------------------------------------------------------------- one page

  lemma LastRow(table: seq<Record>, keep: Record -> bool, before: Option<int>)
    requires table != []
    ensures var front, last := table[..|table| - 1], table[|table| - 1];
            Matching(table, keep, before) ==
              if keep(last) && Before(last.id, before) then [last] + Matching(front, keep, before)
              else Matching(front, keep, before)
  {
  }

  lemma LogFront(table: seq<Record>)
    requires Log(table) && table != []
    ensures Log(table[..|table| - 1])
    ensures forall i :: 0 <= i < |table| - 1 ==> table[i].id < table[|table| - 1].id
  {
  }

  lemma FrontAndLast(table: seq<Record>, r: Record)
    requires table != []
    ensures r in table <==> r in table[..|table| - 1] || r == table[|table| - 1]
  {
    assert table == table[..|table| - 1] + [table[|table| - 1]];
  }

  lemma {:induction false} MatchingRows(table: seq<Record>, keep: Record -> bool, before: Option<int>)
    ensures forall r :: r in Matching(table, keep, before) <==> r in table && keep(r) && Before(r.id, before)
  {
    if table != [] {
      var front, last := table[..|table| - 1], table[|table| - 1];
      MatchingRows(front, keep, before);
      LastRow(table, keep, before);
      var rows, rest := Matching(table, keep, before), Matching(front, keep, before);
      hide Matching, Before;
      forall r ensures r in rows <==> r in table && keep(r) && Before(r.id, before) {
        FrontAndLast(table, r);
      }
    }
  }

  predicate Descending(rows: seq<Record>) { forall i, j :: 0 <= i < j < |rows| ==> rows[i].id > rows[j].id }

  lemma {:induction false} MatchingDescends(table: seq<Record>, keep: Record -> bool, before: Option<int>)
    requires Log(table)
    ensures Descending(Matching(table, keep, before))
  {
    if table != [] {
      var front, last := table[..|table| - 1], table[|table| - 1];
      LogFront(table);
      LastRow(table, keep, before);
      hide Matching, Log, Before;
      MatchingDescends(front, keep, before);
      MatchingRows(front, keep, before);
      var rest := Matching(front, keep, before);
      forall j | 0 <= j < |rest| ensures rest[j].id < last.id { assert rest[j] in front; }
    }
  }

  /** Two cursors that admit the same rows select the same rows. */
  lemma {:induction false} SameCursor(table: seq<Record>, keep: Record -> bool, a: Option<int>, b: Option<int>)
    requires forall i :: 0 <= i < |table| ==> (Before(table[i].id, a) <==> Before(table[i].id, b))
    ensures Matching(table, keep, a) == Matching(table, keep, b)
  {
    if table != [] { SameCursor(table[..|table| - 1], keep, a, b); }
  }

  /** A selected row of the log's front is older than the log's last row. */
  lemma OlderThanLast(table: seq<Record>, keep: Record -> bool, before: Option<int>, i: nat)
    requires Log(table) && table != [] && i < |Matching(table[..|table| - 1], keep, before)|
    ensures Matching(table[..|table| - 1], keep, before)[i].id < table[|table| - 1].id
  {
    LogFront(table);
    hide Matching, Log, Before;
    var front := table[..|table| - 1];
    MatchingRows(front, keep, before);
    assert Matching(front, keep, before)[i] in front;
  }

  lemma SkipFirst(first: Record, rest: seq<Record>, n: nat)
    requires 0 < n <= |rest| + 1
    ensures ([first] + rest)[n..] == rest[n - 1..]
    ensures ([first] + rest)[n - 1] == if n == 1 then first else rest[n - 2]
  {
  }

  lemma LastCursor(table: seq<Record>, keep: Record -> bool, before: Option<int>)
    requires Log(table) && table != [] && Before(table[|table| - 1].id, before)
    ensures var front, last := table[..|table| - 1], table[|table| - 1];
            Matching(front, keep, before) == Matching(front, keep, Some(last.id))
  {
    LogFront(table);
    SameCursor(table[..|table| - 1], keep, before, Some(table[|table| - 1].id));
  }

  /** The log's last row is selected: it heads the page, and the n-th row of the page is the (n-1)-st of
      the rest. */
  lemma RestWithLast(last: Record, rest: seq<Record>, after: seq<Record>, rows: seq<Record>, n: nat)
    requires rows == [last] + rest && 0 < n <= |rows|
    requires after == if n == 1 then rest else rest[n - 1..]
    ensures rows[n..] == after
  {
    SkipFirst(last, rest, n);
  }

  /** The rows after the n-th are those before its id. */
  lemma {:induction false} RestOfPage(table: seq<Record>, keep: Record -> bool, before: Option<int>, n: nat)
    requires Log(table) && 0 < n <= |Matching(table, keep, before)|
    ensures Matching(table, keep, before)[n..] == Matching(table, keep, Some(Matching(table, keep, before)[n - 1].id))
    decreases |table|
  {
    var rows := Matching(table, keep, before);
    assert table != [];
    var front, last := table[..|table| - 1], table[|table| - 1];
    var rest := Matching(front, keep, before);
    var cursor := Some(rows[n - 1].id);
    LogFront(table);
    LastRow(table, keep, before);
    LastRow(table, keep, cursor);
    if keep(last) && Before(last.id, before) {
      SkipFirst(last, rest, n);
      if n == 1 {
        LastCursor(table, keep, before);
      } else {
        OlderThanLast(table, keep, before, n - 2);
        RestOfPage(front, keep, before, n - 1);
        assert cursor == Some(rest[n - 2].id);
      }
      RestWithLast(last, rest, Matching(front, keep, cursor), rows, n);
    } else {
      OlderThanLast(table, keep, before, n - 1);
      RestOfPage(front, keep, before, n);
    }
  }

  /** Newer rows do not show below an older cursor. */
  lemma {:induction false} NewRowsStayAbove(table: seq<Record>, more: seq<Record>, keep: Record -> bool, before: int)
    requires Log(table + more) && exists i :: 0 <= i < |table| && table[i].id >= before
    ensures Matching(table + more, keep, Some(before)) == Matching(table, keep, Some(before))
  {
    var all := table + more;
    if more == [] {
      assert all == table;
    } else {
      var i :| 0 <= i < |table| && table[i].id >= before;
      assert all[i].id < all[|all| - 1].id;
      assert all[..|all| - 1] == table + more[..|more| - 1];
      NewRowsStayAbove(table, more[..|more| - 1], keep, before);
    }
  }

  // ---------------------------------------------------------------- all pages

  /** The log as it is when page k is asked for: rows are only added, with larger ids. */
  ghost predicate Growing(logs: nat -> seq<Record>) {
    forall k: nat :: Log(logs(k)) && logs(k) <= logs(k + 1)
  }

  lemma {:induction false} Grows(logs: nat -> seq<Record>, k: nat)
    requires Growing(logs)
    ensures logs(0) <= logs(k)
  {
    if k > 0 { Grows(logs, k - 1); assert logs(k - 1) <= logs(k - 1 + 1); }
  }

  /** Follows NextBeforeID from page k for at most fuel pages; the flag tells whether it came to a page
      without a next one. */
  function Follow(logs: nat -> seq<Record>, keep: Record -> bool, before: Option<int>, limit: int, k: nat, fuel: nat)
    : (seq<Record>, bool)
    decreases fuel
  {
    if fuel == 0 then ([], false)
    else
      var page := QueryPage(logs(k), keep, before, limit);
      if page.next.None? then (page.records, true)
      else
        var (rest, done) := Follow(logs, keep, page.next, limit, k + 1, fuel - 1);
        (page.records + rest, done)
  }

  /** The cursor lies within the first log, or nothing has been added yet. */
  ghost predicate CursorOk(logs: nat -> seq<Record>, before: Option<int>, k: nat) {
    (before.None? ==> k == 0)
    && (before.Some? ==> exists i :: 0 <= i < |logs(0)| && logs(0)[i].id >= before.value)
  }

  lemma PageOfFirstLog(logs: nat -> seq<Record>, keep: Record -> bool, before: Option<int>, limit: int, k: nat)
    requires Growing(logs) && CursorOk(logs, before, k)
    ensures Matching(logs(k), keep, before) == Matching(logs(0), keep, before)
    ensures QueryPage(logs(k), keep, before, limit) == QueryPage(logs(0), keep, before, limit)
  {
    Grows(logs, k);
    if before.Some? {
      var more := logs(k)[|logs(0)|..];
      assert logs(k) == logs(0) + more;
      NewRowsStayAbove(logs(0), more, keep, before.value);
    }
  }

  /** The page asked for holds the first rows; the rest is what its cursor asks for. */
  lemma PageIs(logs: nat -> seq<Record>, keep: Record -> bool, before: Option<int>, limit: int, k: nat)
    requires Growing(logs) && CursorOk(logs, before, k)
    ensures var rows, n := Matching(logs(0), keep, before), NormalLimit(limit);
            QueryPage(logs(k), keep, before, limit) ==
              if |rows| > n then Page(rows[..n], Some(rows[n - 1].id)) else Page(rows, None)
  {
    hide Growing, Matching, Log, Before, CursorOk;
    PageOfFirstLog(logs, keep, before, limit, k);
    var rows, n := Matching(logs(0), keep, before), NormalLimit(limit);
    if |rows| > n { assert rows[..n + 1][..n] == rows[..n]; }
  }

  /** Following the cursor terminates, and the pages joined together are exactly the rows that matched
      when the first page was asked for, in descending order of id, although newer rows arrive between
      the pages. */
  lemma {:induction false} PagesAreTheResult(logs: nat -> seq<Record>, keep: Record -> bool, before: Option<int>,
                                             limit: int, k: nat, fuel: nat)
    requires Growing(logs) && CursorOk(logs, before, k) && fuel > |Matching(logs(0), keep, before)|
    ensures Follow(logs, keep, before, limit, k, fuel) == (Matching(logs(0), keep, before), true)
    decreases fuel
  {
    hide Growing, Matching, Log, Before, CursorOk, QueryPage;
    PageIs(logs, keep, before, limit, k);
    var rows := Matching(logs(0), keep, before);
    var n := NormalLimit(limit);
    if |rows| > n {
      FirstLog(logs);
      RestOfPage(logs(0), keep, before, n);
      var next := Some(rows[n - 1].id);
      CursorStays(logs, keep, before, k, n - 1);
      PagesAreTheResult(logs, keep, next, limit, k + 1, fuel - 1);
      assert rows[..n] + rows[n..] == rows;
    }
  }

  lemma CursorStays(logs: nat -> seq<Record>, keep: Record -> bool, before: Option<int>, k: nat, i: nat)
    requires Growing(logs) && i < |Matching(logs(0), keep, before)|
    ensures CursorOk(logs, Some(Matching(logs(0), keep, before)[i].id), k + 1)
  {
    MatchingRows(logs(0), keep, before);
    hide Matching;
    assert Matching(logs(0), keep, before)[i] in logs(0);
  }

  lemma FirstLog(logs: nat -> seq<Record>)
    requires Growing(logs)
    ensures Log(logs(0))
  {
  }

  /** From the first page: no gap, no duplicate, descending. */
  lemma PagingIsComplete(logs: nat -> seq<Record>, keep: Record -> bool, limit: int)
    requires Growing(logs)
    ensures var (rows, done) := Follow(logs, keep, None, limit, 0, |logs(0)| + 1);
            && done
            && (forall r :: r in rows <==> r in logs(0) && keep(r))
            && Descending(rows)
  {
    FirstLog(logs);
    AtMostAll(logs(0), keep, None);
    PagesAreTheResult(logs, keep, None, limit, 0, |logs(0)| + 1);
    MatchingRows(logs(0), keep, None);
    MatchingDescends(logs(0), keep, None);
  }

  lemma {:induction false} AtMostAll(table: seq<Record>, keep: Record -> bool, before: Option<int>)
    ensures |Matching(table, keep, before)| <= |table|
  {
    if table != [] { AtMostAll(table[..|table| - 1], keep, before); }
  }
}
