/** The audit log: rows are appended and never changed, and are read newest first, page by page. */
module AuditLog {
  import opened Wrappers

  datatype Entry = Entry(
    timestamp: int, clientId: string, deviceId: string, action: string, result: string,
    errorCode: Option<string>, messageIdSuffix: string, details: Option<string>)

  datatype Row = Row(id: int, entry: Entry)

  datatype Page = Page(items: seq<Row>, nextCursor: Option<int>)

  predicate Increasing(rows: seq<Row>) {
    forall i, j :: 0 <= i < j < |rows| ==> rows[i].id < rows[j].id
  }

  function LastId(rows: seq<Row>): int {
    if rows == [] then 0 else rows[|rows| - 1].id
  }

  /** The last eight characters of a message id. */
  function Suffix(messageId: string): (suffix: string)
    ensures |suffix| == Min(8, |messageId|) && suffix == messageId[|messageId| - |suffix|..]
  {
    if |messageId| <= 8 then messageId else messageId[|messageId| - 8..]
  }

  /** One insertion: the key is one more than the last, as an autoincrement key is. */
  function Inserted(rows: seq<Row>, e: Entry): seq<Row> {
    rows + [Row(LastId(rows) + 1, e)]
  }

  function InsertedAll(rows: seq<Row>, es: seq<Entry>): seq<Row>
    decreases |es|
  {
    if es == [] then rows else Inserted(InsertedAll(rows, es[..|es| - 1]), es[|es| - 1])
  }

  predicate Visible(r: Row, cursor: Option<int>) {
    cursor.None? || r.id < cursor.value
  }

  /** SELECT ... WHERE id < cursor ORDER BY id DESC, on a table in insertion order. */
  function Newest(rows: seq<Row>, cursor: Option<int>): seq<Row>
    decreases |rows|
  {
    if rows == [] then []
    else
      (if Visible(rows[|rows| - 1], cursor) then [rows[|rows| - 1]] else [])
      + Newest(rows[..|rows| - 1], cursor)
  }

  function Take(rows: seq<Row>, n: nat): seq<Row> {
    if n <= |rows| then rows[..n] else rows
  }

  const PAGE_LIMIT := 100

  function EffectiveLimit(limit: int): (n: nat)
    ensures 1 <= n <= PAGE_LIMIT
  {
    Min(Max(limit, 1), PAGE_LIMIT)
  }

  /** get_logs: one row more than the page is fetched to learn whether there is another page. */
  function PageOf(rows: seq<Row>, cursor: Option<int>, limit: int): Page {
    var n := EffectiveLimit(limit);
    var all := Newest(rows, cursor);
    Page(Take(all, n), if |all| > n then Some(all[n - 1].id) else None)
  }

  /** The first n rows, and no others, are below the cursor. */
  predicate Below(rows: seq<Row>, cursor: Option<int>, n: nat) {
    n <= |rows| && forall i :: 0 <= i < |rows| ==> (i < n <==> (cursor.Some? ==> rows[i].id < cursor.value))
  }

  /** A page of a log whose first n rows are below the cursor: as many as were asked for, at least one and at most a
      hundred, the newest of them first; the next cursor, if rows are left, is the last one shown. */
  predicate ShowsNewest(page: Page, rows: seq<Row>, n: nat, limit: int)
    requires n <= |rows|
  {
    && |page.items| == Min(if limit < 1 then 1 else if limit > 100 then 100 else limit, n)
    && (forall i :: 0 <= i < |page.items| ==> page.items[i] == rows[n - 1 - i])
    && (page.nextCursor.Some? <==> |page.items| < n)
    && (page.nextCursor.Some? ==> page.items != [] && page.nextCursor.value == page.items[|page.items| - 1].id)
  }

  class GatewayStorage {
    var rows: seq<Row>

    constructor ()
      ensures rows == []
    {
      rows := [];
    }

    method RecordAudit(timestamp: int, clientId: string, deviceId: string, action: string, result: string,
                       errorCode: Option<string>, messageId: string, details: Option<string>)
      requires Increasing(rows)
      modifies this
      ensures Increasing(rows)
      ensures rows == Inserted(old(rows), Entry(timestamp, clientId, deviceId, action, result, errorCode,
                                                Suffix(messageId), details))
    {
      var entry := Entry(timestamp, clientId, deviceId, action, result, errorCode, Suffix(messageId), details);
      rows := rows + [Row(LastId(rows) + 1, entry)];
    }

    method GetLogs(cursor: Option<int>, limit: int) returns (page: Page)
      ensures page == PageOf(rows, cursor, limit)
      ensures Increasing(rows) ==> exists n: nat :: Below(rows, cursor, n) && ShowsNewest(page, rows, n, limit)
    {
      if Increasing(rows) {
        ghost var n := PageShows(rows, cursor, limit);
      }
      var effectiveLimit := Min(Max(limit, 1), PAGE_LIMIT);
      var fetched := Take(Newest(rows, cursor), effectiveLimit + 1);
      var hasMore := |fetched| > effectiveLimit;
      var visible := Take(fetched, effectiveLimit);
      page := Page(visible,
                   if hasMore && visible != [] then Some(visible[|visible| - 1].id) else None);
    }
  }

  // ----- one page

  /** The rows below a cursor are a prefix of the log, and come out reversed. */
  lemma {:induction false} NewestOfPrefix(rows: seq<Row>, cursor: Option<int>) returns (n: nat)
    requires Increasing(rows)
    ensures Below(rows, cursor, n) && |Newest(rows, cursor)| == n
    ensures forall i :: 0 <= i < n ==> Newest(rows, cursor)[i] == rows[n - 1 - i]
    decreases |rows|
  {
    n := 0;
    if rows != [] {
      var front, last := rows[..|rows| - 1], rows[|rows| - 1];
      n := NewestOfPrefix(front, cursor);
      if cursor.None? || last.id < cursor.value {
        assert forall i :: 0 <= i < |front| ==> front[i].id < last.id;
        n := n + 1;
      }
    }
  }

  lemma PageShows(rows: seq<Row>, cursor: Option<int>, limit: int) returns (n: nat)
    requires Increasing(rows)
    ensures Below(rows, cursor, n) && ShowsNewest(PageOf(rows, cursor, limit), rows, n, limit)
  {
    n := NewestOfPrefix(rows, cursor);
  }

  /** Recording a row: its id is above all others, and it keeps the last eight characters of the message id. */
  lemma RecordedRow(rows: seq<Row>, e: Entry)
    requires Increasing(rows)
    ensures var after := Inserted(rows, e);
      && |after| == |rows| + 1 && after[..|rows|] == rows && after[|rows|].entry == e
      && after[|rows|].id == (if rows == [] then 1 else rows[|rows| - 1].id + 1)
      && forall r <- rows :: r.id < after[|rows|].id
  {
  }

  // ----- walking through the pages

  lemma {:induction false} NewestRows(rows: seq<Row>, cursor: Option<int>)
    requires Increasing(rows)
    ensures forall r :: r in Newest(rows, cursor) <==> r in rows && Visible(r, cursor)
    ensures forall i, j :: 0 <= i < j < |Newest(rows, cursor)| ==>
              Newest(rows, cursor)[i].id > Newest(rows, cursor)[j].id
    decreases |rows|
  {
    if rows != [] {
      var front := rows[..|rows| - 1];
      NewestRows(front, cursor);
      assert rows == front + [rows[|rows| - 1]];
      forall r <- Newest(front, cursor) ensures r.id < rows[|rows| - 1].id { assert r in front; }
    }
  }

  /** Rows at or above the cursor, and rows inserted later, do not show. */
  lemma {:induction false} NewestBelow(rows: seq<Row>, more: seq<Row>, cursor: int)
    requires forall r <- more :: r.id >= cursor
    ensures Newest(rows + more, Some(cursor)) == Newest(rows, Some(cursor))
    decreases |more|
  {
    if more == [] {
      assert rows + more == rows;
    } else {
      assert (rows + more)[..|rows + more| - 1] == rows + more[..|more| - 1];
      NewestBelow(rows, more[..|more| - 1], cursor);
    }
  }

  lemma {:induction false} AllVisible(rows: seq<Row>, cursor: Option<int>)
    requires forall r <- rows :: Visible(r, cursor)
    ensures Newest(rows, cursor) == Newest(rows, None)
    decreases |rows|
  {
    if rows != [] {
      AllVisible(rows[..|rows| - 1], cursor);
    }
  }

  lemma FirstRowShown(rows: seq<Row>, cursor: Option<int>)
    requires Increasing(rows) && rows != [] && Visible(rows[|rows| - 1], cursor)
    ensures Newest(rows, Some(rows[|rows| - 1].id)) == Newest(rows, cursor)[1..]
  {
    var front, last := rows[..|rows| - 1], rows[|rows| - 1];
    forall r <- front ensures Visible(r, Some(last.id)) && Visible(r, cursor) {
      var i :| 0 <= i < |front| && front[i] == r;
      assert rows[i].id < last.id;
    }
    AllVisible(front, Some(last.id));
    AllVisible(front, cursor);
  }

  lemma OlderThanLast(rows: seq<Row>, cursor: Option<int>, n: nat)
    requires Increasing(rows) && rows != [] && n < |Newest(rows[..|rows| - 1], cursor)|
    ensures Newest(rows[..|rows| - 1], cursor)[n].id < rows[|rows| - 1].id
  {
    var front := rows[..|rows| - 1];
    NewestRows(front, cursor);
    var r := Newest(front, cursor)[n];
    assert r in Newest(front, cursor) && r in front;
    var i :| 0 <= i < |front| && front[i] == r;
    assert rows[i] == r;
  }

  lemma NewestStep(rows: seq<Row>, cursor: Option<int>)
    requires rows != []
    ensures Newest(rows, cursor) ==
            (if Visible(rows[|rows| - 1], cursor) then [rows[|rows| - 1]] else []) + Newest(rows[..|rows| - 1], cursor)
  {
  }

  /** Continuing below the last row of a page gives the rows the page left out. */
  lemma {:induction false} NewestAfterPage(rows: seq<Row>, cursor: Option<int>, n: nat)
    requires Increasing(rows) && 1 <= n <= |Newest(rows, cursor)|
    ensures Newest(rows, Some(Newest(rows, cursor)[n - 1].id)) == Newest(rows, cursor)[n..]
    decreases |rows|
  {
    assert rows != [];
    hide Newest;
    var front, last := rows[..|rows| - 1], rows[|rows| - 1];
    var rest := Newest(front, cursor);
    NewestStep(rows, cursor);
    var c := Newest(rows, cursor)[n - 1].id;
    NewestStep(rows, Some(c));
    if !Visible(last, cursor) {
      OlderThanLast(rows, cursor, n - 1);
      NewestAfterPage(front, cursor, n);
    } else if n == 1 {
      FirstRowShown(rows, cursor);
    } else {
      assert Newest(rows, cursor)[n - 1] == rest[n - 2];
      OlderThanLast(rows, cursor, n - 2);
      NewestAfterPage(front, cursor, n - 1);
      assert ([last] + rest)[n..] == rest[n - 1..];
    }
  }

  lemma {:induction false} InsertedAllIncreasing(rows: seq<Row>, es: seq<Entry>)
    requires Increasing(rows)
    ensures Increasing(InsertedAll(rows, es))
    ensures rows <= InsertedAll(rows, es)
    ensures forall r <- InsertedAll(rows, es)[|rows|..] :: forall s <- rows :: r.id > s.id
    decreases |es|
  {
    if es != [] {
      InsertedAllIncreasing(rows, es[..|es| - 1]);
      var before := InsertedAll(rows, es[..|es| - 1]);
      var after := InsertedAll(rows, es);
      assert after[|rows|..] == before[|rows|..] + [after[|after| - 1]];
      forall s <- rows ensures after[|after| - 1].id > s.id { assert s in before; }
    } else {
      assert InsertedAll(rows, es)[|rows|..] == [];
    }
  }

  /** What the next page starts from: the rows not yet shown, whatever was inserted meanwhile. */
  lemma NextPage(rows: seq<Row>, cursor: Option<int>, limit: int, es: seq<Entry>)
    requires Increasing(rows) && PageOf(rows, cursor, limit).nextCursor.Some?
    ensures var page := PageOf(rows, cursor, limit);
      && Newest(InsertedAll(rows, es), page.nextCursor) == Newest(rows, cursor)[|page.items|..]
      && |page.items| >= 1
      && page.items + Newest(InsertedAll(rows, es), page.nextCursor) == Newest(rows, cursor)
  {
    var n := EffectiveLimit(limit);
    var all := Newest(rows, cursor);
    var c := all[n - 1].id;
    NewestAfterPage(rows, cursor, n);
    InsertedAllIncreasing(rows, es);
    var later := InsertedAll(rows, es);
    NewestRows(rows, cursor);
    assert all[n - 1] in rows;
    assert later == rows + later[|rows|..];
    NewestBelow(rows, later[|rows|..], c);
  }

  /** A client that follows nextCursor from a given cursor: turn n asks with limits(n), and after it
      the entries inserts(n) are recorded.  The walk ends because each page leaves fewer rows. */
  function Walk(rows: seq<Row>, cursor: Option<int>, turn: nat, limits: nat -> int, inserts: nat -> seq<Entry>)
    : seq<Row>
    requires Increasing(rows)
    decreases |Newest(rows, cursor)|
  {
    var page := PageOf(rows, cursor, limits(turn));
    if page.nextCursor.None? then page.items
    else
      NextPage(rows, cursor, limits(turn), inserts(turn));
      InsertedAllIncreasing(rows, inserts(turn));
      page.items + Walk(InsertedAll(rows, inserts(turn)), page.nextCursor, turn + 1, limits, inserts)
  }

  lemma {:induction false} WalkIsNewest(rows: seq<Row>, cursor: Option<int>, turn: nat, limits: nat -> int,
                                        inserts: nat -> seq<Entry>)
    requires Increasing(rows)
    ensures Walk(rows, cursor, turn, limits, inserts) == Newest(rows, cursor)
    decreases |Newest(rows, cursor)|
  {
    var page := PageOf(rows, cursor, limits(turn));
    if page.nextCursor.Some? {
      NextPage(rows, cursor, limits(turn), inserts(turn));
      InsertedAllIncreasing(rows, inserts(turn));
      WalkIsNewest(InsertedAll(rows, inserts(turn)), page.nextCursor, turn + 1, limits, inserts);
    }
  }

  function Reversed(rows: seq<Row>): seq<Row> {
    seq(|rows|, i requires 0 <= i < |rows| => rows[|rows| - 1 - i])
  }

  lemma {:induction false} NewestIsReversed(rows: seq<Row>)
    ensures Newest(rows, None) == Reversed(rows)
    decreases |rows|
  {
    if rows != [] { NewestIsReversed(rows[..|rows| - 1]); }
  }

  /** Following the cursor shows the rows of the first call, each once, newest first, whatever the page
      limits are and whatever is recorded in the meantime. */
  lemma PagesCoverLog(rows: seq<Row>, limits: nat -> int, inserts: nat -> seq<Entry>)
    requires Increasing(rows)
    ensures Walk(rows, None, 0, limits, inserts) == Reversed(rows)
    ensures forall i, j :: 0 <= i < j < |rows| ==> Reversed(rows)[i].id > Reversed(rows)[j].id
  {
    WalkIsNewest(rows, None, 0, limits, inserts);
    NewestIsReversed(rows);
  }
}
