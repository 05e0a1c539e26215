/** Keyset pagination of the candidate library (packages/domain/src/candidates/candidate-library.ts:353-440): pages in
    descending order of (first visible time, id), each starting where the last one ended. */
module Pagination {
  import opened Basics

  /** A candidate row that matches the filters, seen by what orders it. Ids are unique. */
  datatype Row = Row(firstVisibleAt: int, id: nat)

  datatype Page = Page(candidates: seq<Row>, nextCursor: Option<Row>)

  /** `a` is listed before `b`. */
  predicate Before(a: Row, b: Row) {
    a.firstVisibleAt > b.firstVisibleAt || (a.firstVisibleAt == b.firstVisibleAt && a.id > b.id)
  }

  predicate After(cursor: Option<Row>, row: Row) {
    cursor.None? || row.firstVisibleAt < cursor.value.firstVisibleAt
    || (row.firstVisibleAt == cursor.value.firstVisibleAt && row.id < cursor.value.id)
  }

  ghost predicate UniqueIds(table: seq<Row>) {
    forall i, j :: 0 <= i < j < |table| ==> table[i].id != table[j].id
  }

  // ---------------------------------------------------------------- one page

  function Insert(row: Row, listed: seq<Row>): seq<Row> {
    if listed == [] then [row]
    else if Before(row, listed[0]) then [row] + listed
    else [listed[0]] + Insert(row, listed[1..])
  }

  /** ORDER BY first_visible_at DESC, id DESC */
  function Ordered(table: seq<Row>): seq<Row> {
    if table == [] then [] else Insert(table[|table| - 1], Ordered(table[..|table| - 1]))
  }

  /** The rows the query finds after the cursor, before the limit. */
  function Found(table: seq<Row>, cursor: Option<Row>): seq<Row> {
    Ordered(Filter((row: Row) => After(cursor, row), table))
  }

  /** One row more than the limit is asked for, to see whether there is a next page. */
  method ListCandidatePage(table: seq<Row>, cursor: Option<Row>, limit: nat) returns (page: Page)
    requires limit > 0
    ensures page == PageOf(table, cursor, limit)
  {
    var found := Found(table, cursor);
    var rows := if |found| <= limit + 1 then found else found[..limit + 1];
    var hasNextPage := |rows| > limit;
    var pageRows := if |rows| <= limit then rows else rows[..limit];
    if pageRows == [] {
      return Page([], None);
    }
    page := Page(pageRows, if hasNextPage then Some(pageRows[|pageRows| - 1]) else None);
  }

  function PageOf(table: seq<Row>, cursor: Option<Row>, limit: nat): Page
    requires limit > 0
  {
    var found := Found(table, cursor);
    if |found| <= limit then Page(found, None) else Page(found[..limit], Some(found[limit - 1]))
  }

  // ---------------------------------------------------------------- ordering

  ghost predicate Listed(rows: seq<Row>) {
    forall i, j :: 0 <= i < j < |rows| ==> Before(rows[i], rows[j])
  }

  lemma {:induction false} InsertKeepsListed(row: Row, rows: seq<Row>)
    requires Listed(rows) && forall i :: 0 <= i < |rows| ==> rows[i].id != row.id
    ensures Listed(Insert(row, rows))
    ensures forall r :: r in Insert(row, rows) <==> r == row || r in rows
  {
    if rows != [] && !Before(row, rows[0]) {
      InsertKeepsListed(row, rows[1..]);
      assert rows == [rows[0]] + rows[1..];
      assert forall r :: r in Insert(row, rows[1..]) ==> Before(rows[0], r);
    }
  }

  lemma {:induction false} OrderedIsListed(table: seq<Row>)
    requires UniqueIds(table)
    ensures Listed(Ordered(table))
    ensures forall r :: r in Ordered(table) <==> r in table
  {
    if table != [] {
      var n := |table| - 1;
      OrderedIsListed(table[..n]);
      assert forall r :: r in table <==> r in table[..n] || r == table[n];
      forall i | 0 <= i < |Ordered(table[..n])| ensures Ordered(table[..n])[i].id != table[n].id {
        assert Ordered(table[..n])[i] in table[..n];
      }
      InsertKeepsListed(table[n], Ordered(table[..n]));
    }
  }

  lemma {:induction false} FilterKeepsUniqueIds(cursor: Option<Row>, table: seq<Row>)
    requires UniqueIds(table)
    ensures UniqueIds(Filter((row: Row) => After(cursor, row), table))
  {
    if table != [] {
      var after := (row: Row) => After(cursor, row);
      var n := |table| - 1;
      FilterKeepsUniqueIds(cursor, table[..n]);
      FilterMembers(after, table[..n]);
      var kept := Filter(after, table[..n]);
      forall i | 0 <= i < |kept| ensures kept[i].id != table[n].id {
        assert kept[i] in table[..n];
      }
    }
  }

  /** The query finds exactly the rows after the cursor, in order. */
  lemma FoundIsComplete(table: seq<Row>, cursor: Option<Row>)
    requires UniqueIds(table)
    ensures Listed(Found(table, cursor))
    ensures forall r :: r in Found(table, cursor) <==> r in table && After(cursor, r)
  {
    var after := (row: Row) => After(cursor, row);
    FilterKeepsUniqueIds(cursor, table);
    FilterMembers(after, table);
    OrderedIsListed(Filter(after, table));
  }

  /** There is only one way to list a set of rows. */
  lemma {:induction false} ListingIsUnique(a: seq<Row>, b: seq<Row>)
    requires Listed(a) && Listed(b) && forall r :: r in a <==> r in b
    ensures a == b
  {
    assert a != [] ==> a[0] in b;
    assert b != [] ==> b[0] in a;
    if a != [] {
      assert a[0] == b[0];
      forall r ensures r in a[1..] <==> r in b[1..] {
        assert r in a[1..] <==> r in a && r != a[0];
        assert r in b[1..] <==> r in b && r != b[0];
      }
      ListingIsUnique(a[1..], b[1..]);
    }
  }

  /** In a listing, the rows after position `n - 1` are those behind the row there. */
  lemma AfterCut(rows: seq<Row>, n: nat, r: Row)
    requires Listed(rows) && 0 < n <= |rows|
    ensures r in rows[n..] <==> r in rows && After(Some(rows[n - 1]), r)
  {
    if r in rows {
      var i :| 0 <= i < |rows| && rows[i] == r;
      assert i < n - 1 ==> Before(r, rows[n - 1]);
      assert i >= n ==> Before(rows[n - 1], r) && rows[n..][i - n] == r;
    }
  }

  /** What follows the last row of a page is what the page's cursor finds. */
  lemma NextPageContinues(table: seq<Row>, cursor: Option<Row>, limit: nat)
    requires UniqueIds(table) && 0 < limit < |Found(table, cursor)|
    ensures Found(table, PageOf(table, cursor, limit).nextCursor) == Found(table, cursor)[limit..]
  {
    var found := Found(table, cursor);
    var next := PageOf(table, cursor, limit).nextCursor;
    FoundIsComplete(table, cursor);
    FoundIsComplete(table, next);
    forall r ensures r in Found(table, next) <==> r in found[limit..] {
      AfterCut(found, limit, r);
      assert found[limit - 1] in found;
    }
    ListingIsUnique(Found(table, next), found[limit..]);
  }

  // ---------------------------------------------------------------- all pages of a table that stays as it is

  /** Following the cursor from page to page until it is null. */
  function Walk(table: seq<Row>, cursor: Option<Row>, limit: nat, fuel: nat): Option<seq<Row>>
    requires limit > 0
    decreases fuel
  {
    var page := PageOf(table, cursor, limit);
    if page.nextCursor.None? then Some(page.candidates)
    else if fuel == 0 then None
    else
      var more := Walk(table, page.nextCursor, limit, fuel - 1);
      if more.None? then None else Some(page.candidates + more.value)
  }

  lemma {:induction false} WalkFinds(table: seq<Row>, cursor: Option<Row>, limit: nat, fuel: nat)
    requires UniqueIds(table) && limit > 0 && |Found(table, cursor)| <= (fuel + 1) * limit
    ensures Walk(table, cursor, limit, fuel) == Some(Found(table, cursor))
    decreases fuel
  {
    var found := Found(table, cursor);
    if |found| > limit {
      NextPageContinues(table, cursor, limit);
      assert |found| - limit <= fuel * limit;
      WalkFinds(table, PageOf(table, cursor, limit).nextCursor, limit, fuel - 1);
      assert found[..limit] + found[limit..] == found;
    }
  }

  lemma EnoughPages(n: nat, limit: nat)
    requires limit > 0
    ensures n <= (n / limit + 1) * limit
  {
    assert n == n / limit * limit + n % limit;
  }

  /** For every limit, following the cursor from the start ends with a null cursor after ceil(n / limit) pages (one for
      an empty table) and has listed the whole table in order, with no row skipped or repeated. */
  lemma PagesListEverything(table: seq<Row>, limit: nat)
    requires UniqueIds(table) && limit > 0
    ensures Walk(table, None, limit, |table| / limit) == Some(Ordered(table))
    ensures Listed(Ordered(table)) && forall r :: r in Ordered(table) <==> r in table
  {
    FilterAll((row: Row) => After(None, row), table);
    OrderedLength(table);
    EnoughPages(|table|, limit);
    WalkFinds(table, None, limit, |table| / limit);
    OrderedIsListed(table);
  }

  lemma {:induction false} InsertLength(row: Row, rows: seq<Row>)
    ensures |Insert(row, rows)| == |rows| + 1
  {
    if rows != [] && !Before(row, rows[0]) {
      InsertLength(row, rows[1..]);
    }
  }

  lemma {:induction false} OrderedLength(table: seq<Row>)
    ensures |Ordered(table)| == |table|
  {
    if table != [] {
      OrderedLength(table[..|table| - 1]);
      InsertLength(table[|table| - 1], Ordered(table[..|table| - 1]));
    }
  }

  // ---------------------------------------------------------------- a table that changes between the pages

  /** The cursor the reader holds before page `n`; `versions[i]` is the table when page `i` is read. */
  function CursorAt(versions: seq<seq<Row>>, limit: nat, n: nat): Option<Row>
    requires limit > 0 && n <= |versions|
  {
    if n == 0 then None else PageOf(versions[n - 1], CursorAt(versions, limit, n - 1), limit).nextCursor
  }

  function PageAt(versions: seq<seq<Row>>, limit: nat, n: nat): Page
    requires limit > 0 && n < |versions|
  {
    PageOf(versions[n], CursorAt(versions, limit, n), limit)
  }

  /** The reader goes on only as long as there is a next page. */
  ghost predicate Reading(versions: seq<seq<Row>>, limit: nat) {
    && limit > 0
    && (forall n :: 0 <= n < |versions| ==> UniqueIds(versions[n]))
    && (forall n :: 0 < n < |versions| ==> CursorAt(versions, limit, n).Some?)
  }

  lemma CursorIsLastRow(table: seq<Row>, cursor: Option<Row>, limit: nat, r: Row)
    requires UniqueIds(table) && limit > 0 && PageOf(table, cursor, limit).nextCursor.Some?
    requires r in PageOf(table, cursor, limit).candidates
    ensures !After(PageOf(table, cursor, limit).nextCursor, r) && After(cursor, r)
  {
    var found := Found(table, cursor);
    FoundIsComplete(table, cursor);
    var i :| 0 <= i < limit && found[i] == r;
    assert found[i] in found;
    assert i < limit - 1 ==> Before(r, found[limit - 1]);
  }

  /** Cursors only move on. */
  lemma {:induction false} RowsBehindStayBehind(versions: seq<seq<Row>>, limit: nat, m: nat, n: nat, r: Row)
    requires Reading(versions, limit) && m <= n < |versions| && !After(CursorAt(versions, limit, m), r)
    ensures !After(CursorAt(versions, limit, n), r)
  {
    if m < n {
      RowsBehindStayBehind(versions, limit, m, n - 1, r);
      assert CursorAt(versions, limit, n).Some?;
      var found := Found(versions[n - 1], CursorAt(versions, limit, n - 1));
      FoundIsComplete(versions[n - 1], CursorAt(versions, limit, n - 1));
      assert found[limit - 1] in found;
    }
  }

  lemma RowsBehindCursor(versions: seq<seq<Row>>, limit: nat, m: nat, n: nat, a: Row)
    requires Reading(versions, limit) && m < n < |versions| && a in PageAt(versions, limit, m).candidates
    ensures CursorAt(versions, limit, n).Some? && !After(CursorAt(versions, limit, n), a)
  {
    assert CursorAt(versions, limit, m + 1).Some?;
    CursorIsLastRow(versions[m], CursorAt(versions, limit, m), limit, a);
    RowsBehindStayBehind(versions, limit, m + 1, n, a);
  }

  /** Whatever is inserted, deleted or moved between the pages: a candidate that is listed again on a later page has
      moved down, to a strictly earlier first visible time. */
  lemma ListedAgainOnlyLower(versions: seq<seq<Row>>, limit: nat, m: nat, n: nat, a: Row, b: Row)
    requires Reading(versions, limit) && m < n < |versions| && a.id == b.id
    requires a in PageAt(versions, limit, m).candidates && b in PageAt(versions, limit, n).candidates
    ensures b.firstVisibleAt < a.firstVisibleAt
  {
    RowsBehindCursor(versions, limit, m, n, a);
    PageIsAfterCursor(versions[n], CursorAt(versions, limit, n), limit, b);
  }

  /** Whenever the candidate is in the table, its time is at least what it was at any earlier page request. */
  ghost predicate NeverDrops(versions: seq<seq<Row>>, id: nat) {
    forall m, n, a, b :: 0 <= m < n < |versions| && a in versions[m] && b in versions[n] && a.id == id == b.id ==>
      a.firstVisibleAt <= b.firstVisibleAt
  }

  /** The candidate is row `i` of page `n`. */
  ghost predicate ListedAt(versions: seq<seq<Row>>, limit: nat, id: nat, n: nat, i: nat)
    requires limit > 0
  {
    && n < |versions| && i < |PageAt(versions, limit, n).candidates|
    && PageAt(versions, limit, n).candidates[i].id == id
  }

  lemma {:induction false} OnePlaceOnAPage(table: seq<Row>, cursor: Option<Row>, limit: nat, i: nat, j: nat)
    requires UniqueIds(table) && limit > 0 && i < j < |PageOf(table, cursor, limit).candidates|
    ensures PageOf(table, cursor, limit).candidates[i].id != PageOf(table, cursor, limit).candidates[j].id
  {
    var found := Found(table, cursor);
    FoundIsComplete(table, cursor);
    assert found[i] in table && found[j] in table && Before(found[i], found[j]);
    var k, l :| 0 <= k < |table| && 0 <= l < |table| && table[k] == found[i] && table[l] == found[j];
  }

  /** So a candidate whose time never drops has at most one place on all the pages together, whatever else is inserted,
      deleted or moved, and even if it is deleted and comes back. */
  lemma NothingListedTwice(versions: seq<seq<Row>>, limit: nat, id: nat)
    requires Reading(versions, limit) && NeverDrops(versions, id)
    ensures forall m, i, n, j :: ListedAt(versions, limit, id, m, i) && ListedAt(versions, limit, id, n, j) ==>
              m == n && i == j
  {
    forall m: nat, i: nat, n: nat, j: nat | ListedAt(versions, limit, id, m, i) && ListedAt(versions, limit, id, n, j)
      ensures m == n && i == j
    {
      OnePlaceOnAllPages(versions, limit, id, m, i, n, j);
      OnePlaceOnAllPages(versions, limit, id, n, j, m, i);
    }
  }

  lemma OnePlaceOnAllPages(versions: seq<seq<Row>>, limit: nat, id: nat, m: nat, i: nat, n: nat, j: nat)
    requires Reading(versions, limit) && NeverDrops(versions, id)
    requires ListedAt(versions, limit, id, m, i) && ListedAt(versions, limit, id, n, j)
    ensures !(m < n) && !(m == n && i < j)
  {
    var a, b := PageAt(versions, limit, m).candidates[i], PageAt(versions, limit, n).candidates[j];
    PageIsAfterCursor(versions[m], CursorAt(versions, limit, m), limit, a);
    PageIsAfterCursor(versions[n], CursorAt(versions, limit, n), limit, b);
    if m < n {
      ListedAgainOnlyLower(versions, limit, m, n, a, b);
    } else if m == n && i < j {
      OnePlaceOnAPage(versions[m], CursorAt(versions, limit, m), limit, i, j);
    }
  }

  lemma OneRow(a: Row)
    ensures Ordered([a]) == [a]
  {
    assert Insert(a, []) == [a];
  }

  lemma OrderedPair(a: Row, b: Row)
    requires Before(a, b)
    ensures Ordered([a] + [b]) == [a] + [b]
  {
    OneRow(a);
    assert ([a] + [b])[..1] == [a];
    assert [a][1..] == [] && Insert(b, []) == [b];
  }

  lemma FoundPair(a: Row, b: Row)
    requires Before(a, b)
    ensures Found([a] + [b], None) == [a] + [b]
  {
    FilterAll((row: Row) => After(None, row), [a] + [b]);
    OrderedPair(a, b);
  }

  lemma FoundOne(cursor: Row, a: Row)
    requires After(Some(cursor), a)
    ensures Found([a], Some(cursor)) == [a]
  {
    FilterAll((row: Row) => After(Some(cursor), row), [a]);
    OneRow(a);
  }

  /** A drop is enough: a source row that arrives late can lower a candidate's first visible time
      (packages/domain/src/candidates/candidate-access.ts:60-66), and the candidate is listed on both pages. */
  lemma DroppedCandidateIsListedTwice() returns (versions: seq<seq<Row>>)
    ensures Reading(versions, 1) && |versions| == 2
    ensures Row(5, 1) in PageAt(versions, 1, 0).candidates && Row(2, 1) in PageAt(versions, 1, 1).candidates
  {
    versions := [[Row(5, 1)] + [Row(3, 2)], [Row(2, 1)]];
    FoundPair(Row(5, 1), Row(3, 2));
    FoundOne(Row(5, 1), Row(2, 1));
    assert CursorAt(versions, 1, 1) == Some(Row(5, 1));
  }

  lemma PageIsAfterCursor(table: seq<Row>, cursor: Option<Row>, limit: nat, r: Row)
    requires UniqueIds(table) && limit > 0
    ensures r in PageOf(table, cursor, limit).candidates ==> r in table && After(cursor, r)
  {
    FoundIsComplete(table, cursor);
  }

  // ---------------------------------------------------------------- nothing that stays is skipped

  /** A candidate that is in the table at each page request, with a time that never rises. */
  ghost predicate Stays(versions: seq<seq<Row>>, id: nat, times: seq<int>) {
    && |times| == |versions|
    && (forall i :: 0 <= i < |versions| ==> Row(times[i], id) in versions[i])
    && (forall i, j :: 0 <= i < j < |times| ==> times[j] <= times[i])
  }

  lemma NotOnPageIsAfter(table: seq<Row>, cursor: Option<Row>, limit: nat, r: Row)
    requires UniqueIds(table) && limit > 0 && r in table && After(cursor, r)
    ensures r in PageOf(table, cursor, limit).candidates ||
            (PageOf(table, cursor, limit).nextCursor.Some? && After(PageOf(table, cursor, limit).nextCursor, r))
  {
    var found := Found(table, cursor);
    FoundIsComplete(table, cursor);
    var i :| 0 <= i < |found| && found[i] == r;
    if |found| > limit {
      assert forall j :: 0 <= j < limit ==> found[..limit][j] == found[j];
      assert i >= limit ==> Before(found[limit - 1], found[i]);
    }
  }

  ghost predicate ListedBefore(versions: seq<seq<Row>>, limit: nat, n: nat, id: nat, times: seq<int>)
    requires limit > 0 && n <= |versions| && |times| == |versions|
  {
    exists m :: 0 <= m < n && Row(times[m], id) in PageAt(versions, limit, m).candidates
  }

  /** It is on one of the pages so far, or still after the cursor. */
  lemma {:induction false} StayingRowIsNotSkipped(versions: seq<seq<Row>>, limit: nat, n: nat, id: nat, times: seq<int>)
    requires Reading(versions, limit) && n < |versions| && Stays(versions, id, times)
    ensures ListedBefore(versions, limit, n, id, times) || After(CursorAt(versions, limit, n), Row(times[n], id))
  {
    if n > 0 {
      StayingRowIsNotSkipped(versions, limit, n - 1, id, times);
      if After(CursorAt(versions, limit, n - 1), Row(times[n - 1], id)) {
        NotOnPageIsAfter(versions[n - 1], CursorAt(versions, limit, n - 1), limit, Row(times[n - 1], id));
        assert times[n] <= times[n - 1];
        if Row(times[n - 1], id) in PageAt(versions, limit, n - 1).candidates {
          assert ListedBefore(versions, limit, n, id, times);
        }
      }
    }
  }

  /** When the reader reaches a null cursor, every candidate that was there all along and never moved up has been
      listed. */
  lemma EveryStayingRowIsListed(versions: seq<seq<Row>>, limit: nat, id: nat, times: seq<int>)
    requires Reading(versions, limit) && versions != [] && Stays(versions, id, times)
    requires PageAt(versions, limit, |versions| - 1).nextCursor.None?
    ensures ListedBefore(versions, limit, |versions|, id, times)
  {
    var n := |versions| - 1;
    StayingRowIsNotSkipped(versions, limit, n, id, times);
    if After(CursorAt(versions, limit, n), Row(times[n], id)) {
      NotOnPageIsAfter(versions[n], CursorAt(versions, limit, n), limit, Row(times[n], id));
      assert Row(times[n], id) in PageAt(versions, limit, n).candidates;
    }
  }
}
