/** The audit log: filtered queries, cursor pagination and the export scan. */
module AuditQuery {
  import opened Base
  import opened Ordering
  import Base64Url

  const MAX_LIMIT := 200
  const WINDOW := 30 * 24 * 60 * 60 * 1_000_000

  /** `id` is a UUID; the database compares it as the number it denotes. */
  datatype Row = Row(
    org: string, id: nat, action: string, entityType: string, user: Option<string>, createdAt: int)

  /** `""` and an absent filter mean the same. */
  datatype Filters = Filters(
    org: string, action: string, entityType: string, user: string, from: Option<int>, to: Option<int>, limit: int)

  datatype Key = Key(at: int, id: nat)

  /** The SELECT that is built up: WHERE conjuncts, an optional key to stay below, and LIMIT. */
  datatype Query = Query(
    org: string, action: string, entityType: string, user: string, from: int, to: int, below: Option<Key>, limit: nat)

  function ClampLimit(limit: int): nat {
    if limit < 1 then 1 else if limit > MAX_LIMIT then MAX_LIMIT else limit
  }

  function BuildAuditQuery(f: Filters, now: int): Query {
    var from := if f.from.Some? then f.from.value else now - WINDOW;
    var to := if f.to.Some? then f.to.value else now;
    Query(f.org, f.action, f.entityType, f.user, from, to, None, ClampLimit(f.limit))
  }

  predicate Below(row: Row, k: Key) {
    row.createdAt < k.at || (row.createdAt == k.at && row.id < k.id)
  }

  predicate Matches(q: Query, row: Row) {
    && row.org == q.org
    && q.from <= row.createdAt <= q.to
    && (q.action != "" ==> row.action == q.action)
    && (q.entityType != "" ==> row.entityType == q.entityType)
    && (q.user != "" ==> row.user == Some(q.user))
    && (q.below.Some? ==> Below(row, q.below.value))
  }

  function KeyOf(row: Row): Key { Key(row.createdAt, row.id) }

  /** `ORDER BY created_at DESC, id DESC`. */
  predicate Before(a: Row, b: Row) { Below(b, KeyOf(a)) }

  function Matching(q: Query, table: seq<Row>): seq<Row> {
    Sort(Before, Filter(row => Matches(q, row), table))
  }

  function Execute(q: Query, table: seq<Row>): seq<Row> {
    Take(q.limit, Matching(q, table))
  }

  ghost predicate UniqueIds(table: seq<Row>) {
    forall i, j :: 0 <= i < j < |table| ==> table[i].id != table[j].id
  }

  // ----- Order -----

  lemma BeforeIsWeak()
    ensures StrictWeak(Before)
    ensures forall a, b :: Before(a, b) || Before(b, a) || KeyOf(a) == KeyOf(b)
  {
  }

  lemma BeforeTransitive(a: Row, b: Row, c: Row)
    requires Before(a, b) && Before(b, c)
    ensures Before(a, c)
  {
  }

  lemma {:induction false} FilterUnique(p: Row -> bool, table: seq<Row>)
    requires UniqueIds(table)
    ensures UniqueIds(Filter(p, table))
  {
    if table != [] {
      FilterUnique(p, table[1..]);
      FilterMembers(p, table[1..]);
      forall row | row in Filter(p, table[1..]) ensures row.id != table[0].id {
        assert row in table[1..];
      }
    }
  }

  lemma {:induction false} InsertAscending(row: Row, s: seq<Row>)
    requires Ascending(Before, s) && forall x :: x in s ==> x.id != row.id
    ensures Ascending(Before, Insert(Before, row, s))
    ensures forall x :: x in Insert(Before, row, s) <==> x == row || x in s
  {
    BeforeIsWeak();
    if s == [] || !Before(s[0], row) {
      assert s != [] ==> s[0] in s && Before(row, s[0]);
    } else {
      InsertAscending(row, s[1..]);
      assert s == [s[0]] + s[1..];
      forall x | x in Insert(Before, row, s[1..]) ensures Before(s[0], x) {
        assert x == row || x in s[1..];
      }
    }
  }

  lemma {:induction false} SortAscending(s: seq<Row>)
    requires UniqueIds(s)
    ensures Ascending(Before, Sort(Before, s))
    ensures forall x :: x in Sort(Before, s) <==> x in s
  {
    if s != [] {
      SortAscending(s[1..]);
      InsertAscending(s[0], Sort(Before, s[1..]));
      assert s == [s[0]] + s[1..];
    }
  }

  /** The full answer to a query: the matching rows and no others, newest first, once each. */
  lemma MatchingIs(q: Query, table: seq<Row>)
    requires UniqueIds(table)
    ensures Ascending(Before, Matching(q, table))
    ensures forall row :: row in Matching(q, table) <==> row in table && Matches(q, row)
  {
    var p := row => Matches(q, row);
    FilterUnique(p, table);
    FilterMembers(p, table);
    SortAscending(Filter(p, table));
  }

  // ----- Cursors -----

  /** JSON and ISO-8601 text of a key; only that reading undoes writing is used. */
  datatype Codec = Codec(dump: Key -> seq<Base64Url.byte>, load: seq<Base64Url.byte> -> Option<Key>)

  ghost predicate Faithful(c: Codec) {
    forall k :: c.load(c.dump(k)) == Some(k) && c.dump(k) != []
  }

  function EncodeCursor(c: Codec, k: Key): string {
    Base64Url.Strip(Base64Url.Encode(c.dump(k)))
  }

  /** `None` for the empty cursor and for every malformed one. */
  function DecodeCursor(c: Codec, cursor: string): Option<Key> {
    if cursor == "" then None else
      match Base64Url.Decode(cursor)
      case None => None
      case Some(raw) => c.load(raw)
  }

  /** A missing or malformed cursor leaves the query as it is. */
  function ApplyCursor(c: Codec, q: Query, cursor: string): Query {
    match DecodeCursor(c, cursor)
    case None => q
    case Some(k) => q.(below := Some(k))
  }

  /** Reading back a printed cursor gives the position it was printed from. */
  lemma CursorRoundTrip(c: Codec, k: Key)
    requires Faithful(c)
    ensures DecodeCursor(c, EncodeCursor(c, k)) == Some(k)
    ensures EncodeCursor(c, k) != ""
  {
    Base64Url.PadUndoesStrip(c.dump(k));
    Base64Url.UnpaddedRoundTrip(c.dump(k));
  }

  // ----- Paging with next_cursor -----

  datatype Page = Page(items: seq<Row>, next: Option<string>)

  /** The router accepts limits from 1 to `MAX_LIMIT` only. */
  function ListAuditLogs(c: Codec, f: Filters, cursor: string, table: seq<Row>, now: int): Page
    requires 1 <= f.limit <= MAX_LIMIT
  {
    var rows := Execute(ApplyCursor(c, BuildAuditQuery(f, now), cursor), table);
    Page(rows,
         if |rows| == f.limit then Some(EncodeCursor(c, KeyOf(rows[|rows| - 1]))) else None)
  }

  function CursorOf(page: Page): string {
    if page.next.Some? then page.next.value else ""
  }

  /** The table at each request: unique ids, and rows are only ever added. */
  ghost predicate Growing(tables: seq<seq<Row>>) {
    && (forall i :: 0 <= i < |tables| ==> UniqueIds(tables[i]))
    && (forall i, j, row :: 0 <= i <= j < |tables| && row in tables[i] ==> row in tables[j])
  }

  function Items(pages: seq<Page>): seq<Row> {
    if pages == [] then [] else Items(pages[..|pages| - 1]) + pages[|pages| - 1].items
  }

  /** A client that starts without a cursor and follows `next` while there is one. */
  ghost predicate IsScan(c: Codec, f: Filters, tables: seq<seq<Row>>, nows: seq<int>, pages: seq<Page>)
    requires 1 <= f.limit <= MAX_LIMIT
  {
    && |pages| == |tables| == |nows| > 0
    && forall i :: 0 <= i < |pages| ==> IsRequest(c, f, tables[i], nows[i], pages[..i], pages[i])
  }

  ghost predicate IsRequest(c: Codec, f: Filters, table: seq<Row>, now: int, before: seq<Page>, page: Page)
    requires 1 <= f.limit <= MAX_LIMIT
  {
    && (before != [] ==> before[|before| - 1].next.Some?)
    && page == ListAuditLogs(c, f, if before == [] then "" else CursorOf(before[|before| - 1]), table, now)
  }

  /** What the filters select, whatever the page. */
  function Wanted(f: Filters): Query { BuildAuditQuery(f, 0) }

  ghost predicate Fixed(f: Filters) {
    f.from.Some? && f.to.Some? && 1 <= f.limit <= MAX_LIMIT
  }

  function Previous(pages: seq<Page>, i: nat): Option<Page>
    requires i <= |pages|
  {
    if i == 0 then None else Some(pages[i - 1])
  }

  /** Where the scan stands after `prev`: at the start, or at the last row of that page. */
  function Position(prev: Option<Page>): Option<Key> {
    if prev.None? || prev.value.items == [] then None
    else Some(KeyOf(prev.value.items[|prev.value.items| - 1]))
  }

  ghost predicate Ahead(prev: Option<Page>, row: Row) {
    Position(prev).Some? ==> Below(row, Position(prev).value)
  }

  /** One page, read from the table of its moment: it starts ahead of the previous pages, it is
      in order, and it holds every wanted row that is ahead unless it is full and stops short. */
  ghost predicate PageOk(w: Query, table: seq<Row>, prev: Option<Page>, page: Page) {
    && Ascending(Before, page.items)
    && (forall row :: row in page.items ==> row in table && Matches(w, row) && Ahead(prev, row))
    && (forall row :: row in table && Matches(w, row) && Ahead(prev, row) ==>
          row in page.items || (page.next.Some? && Ahead(Some(page), row)))
    && (prev.Some? ==> prev.value.items != [])
  }

  ghost predicate PagesOk(w: Query, tables: seq<seq<Row>>, pages: seq<Page>) {
    && |pages| == |tables| > 0
    && forall i {:trigger Previous(pages, i)} :: 0 <= i < |pages| ==> PageOk(w, tables[i], Previous(pages, i), pages[i])
  }

  lemma OnePage(c: Codec, f: Filters, tables: seq<seq<Row>>, nows: seq<int>, pages: seq<Page>, i: nat)
    requires Faithful(c) && Fixed(f) && IsScan(c, f, tables, nows, pages) && i < |pages|
    ensures pages[i].items == Execute(Wanted(f).(below := Position(Previous(pages, i))), tables[i])
    ensures pages[i].next.Some? <==> |pages[i].items| == f.limit
    ensures i > 0 ==> pages[i - 1].items != []
  {
    assert IsRequest(c, f, tables[i], nows[i], pages[..i], pages[i]);
    if i > 0 {
      assert IsRequest(c, f, tables[i - 1], nows[i - 1], pages[..i - 1], pages[i - 1]);
      var last := pages[i - 1].items;
      assert pages[..i][|pages[..i]| - 1] == pages[i - 1];
      CursorRoundTrip(c, KeyOf(last[|last| - 1]));
    }
  }

  lemma PageContents(w: Query, table: seq<Row>, prev: Option<Page>, page: Page)
    requires UniqueIds(table) && w.below.None? && w.limit > 0
    requires page.items == Execute(w.(below := Position(prev)), table)
    requires page.next.Some? <==> |page.items| == w.limit
    requires prev.Some? ==> prev.value.items != []
    ensures PageOk(w, table, prev, page)
  {
    var q := w.(below := Position(prev));
    MatchingIs(q, table);
    var all := Matching(q, table);
    forall row ensures Matches(q, row) <==> Matches(w, row) && Ahead(prev, row) {}
    forall row | row in all && row !in page.items ensures page.next.Some? && Ahead(Some(page), row) {
      var k :| 0 <= k < |all| && all[k] == row;
      assert |all| > q.limit && k >= q.limit;
      assert Before(all[q.limit - 1], all[k]);
    }
  }

  lemma ScanPagesOk(c: Codec, f: Filters, tables: seq<seq<Row>>, nows: seq<int>, pages: seq<Page>)
    requires Faithful(c) && Fixed(f) && Growing(tables)
    requires IsScan(c, f, tables, nows, pages)
    ensures PagesOk(Wanted(f), tables, pages)
  {
    forall i | 0 <= i < |pages| ensures PageOk(Wanted(f), tables[i], Previous(pages, i), pages[i]) {
      OnePage(c, f, tables, nows, pages, i);
      PageContents(Wanted(f), tables[i], Previous(pages, i), pages[i]);
    }
  }

  lemma ItemsSnoc(pages: seq<Page>, n: nat)
    requires n < |pages|
    ensures Items(pages[..n + 1]) == Items(pages[..n]) + pages[n].items
  {
    assert pages[..n + 1][..n] == pages[..n];
  }

  lemma PageEndsAtPosition(page: Page, x: Row, row: Row)
    requires Ascending(Before, page.items) && x in page.items && Ahead(Some(page), row)
    ensures Before(x, row)
  {
  }

  /** Whatever is still ahead after `n` pages comes after everything read. */
  lemma {:induction false} ReadBeforeAhead(w: Query, tables: seq<seq<Row>>, pages: seq<Page>, n: nat, x: Row, row: Row)
    requires PagesOk(w, tables, pages) && n <= |pages| && x in Items(pages[..n])
    requires Ahead(Previous(pages, n), row) && pages[n - 1].items != []
    ensures Before(x, row)
    decreases n
  {
    ItemsSnoc(pages, n - 1);
    var page := pages[n - 1];
    assert PageOk(w, tables[n - 1], Previous(pages, n - 1), page);
    if x in page.items {
      PageEndsAtPosition(page, x, row);
    } else {
      var last := page.items[|page.items| - 1];
      assert last in page.items && n - 1 > 0;
      ReadBeforeAhead(w, tables, pages, n - 1, x, last);
      PageEndsAtPosition(page, last, row);
      BeforeTransitive(x, last, row);
    }
  }

  lemma EarlierComesBefore(w: Query, tables: seq<seq<Row>>, pages: seq<Page>, n: nat, x: Row, row: Row)
    requires PagesOk(w, tables, pages) && 0 < n <= |pages|
    requires x in Items(pages[..n - 1]) && row in pages[n - 1].items
    ensures Before(x, row)
  {
    assert PageOk(w, tables[n - 1], Previous(pages, n - 1), pages[n - 1]);
    assert n - 1 > 0;
    ReadBeforeAhead(w, tables, pages, n - 1, x, row);
  }

  lemma {:induction false} PagesInOrder(w: Query, tables: seq<seq<Row>>, pages: seq<Page>, n: nat)
    requires PagesOk(w, tables, pages) && n <= |pages|
    ensures Ascending(Before, Items(pages[..n]))
  {
    if n > 0 {
      var earlier, items := Items(pages[..n - 1]), pages[n - 1].items;
      ItemsSnoc(pages, n - 1);
      PagesInOrder(w, tables, pages, n - 1);
      assert Ascending(Before, items) by {
        assert PageOk(w, tables[n - 1], Previous(pages, n - 1), pages[n - 1]);
      }
      forall x, row | x in earlier && row in items ensures Before(x, row) {
        EarlierComesBefore(w, tables, pages, n, x, row);
      }
      ConcatAscending(earlier, items);
    }
  }

  lemma ConcatAscending(a: seq<Row>, b: seq<Row>)
    requires Ascending(Before, a) && Ascending(Before, b)
    requires forall x, y :: x in a && y in b ==> Before(x, y)
    ensures Ascending(Before, a + b)
  {
  }

  ghost predicate ReadOrAhead(pages: seq<Page>, i: nat, row: Row)
    requires i < |pages|
  {
    Ahead(Previous(pages, i), row) ==>
      row in pages[i].items || (Ahead(Some(pages[i]), row) && pages[i].next.Some?)
  }

  lemma {:induction false} ReadByTheEnd(pages: seq<Page>, k: nat, n: nat, row: Row)
    requires k < n <= |pages| && Ahead(Previous(pages, k), row)
    requires forall i :: k <= i < n ==> ReadOrAhead(pages, i, row)
    ensures row in Items(pages[..n]) || (Ahead(Previous(pages, n), row) && pages[n - 1].next.Some?)
    decreases n
  {
    ItemsSnoc(pages, n - 1);
    if n - 1 > k {
      ReadByTheEnd(pages, k, n - 1, row);
    }
    assert ReadOrAhead(pages, n - 1, row);
  }

  lemma WantedRowOnEveryPage(w: Query, tables: seq<seq<Row>>, pages: seq<Page>, k: nat, row: Row)
    requires PagesOk(w, tables, pages) && Growing(tables) && k < |pages|
    requires row in tables[k] && Matches(w, row)
    ensures forall i :: k <= i < |pages| ==> ReadOrAhead(pages, i, row)
  {
  }

  lemma {:induction false} ReadInSomePage(pages: seq<Page>, n: nat, row: Row) returns (j: nat)
    requires n <= |pages| && row in Items(pages[..n])
    ensures j < n && row in pages[j].items
    decreases n
  {
    ItemsSnoc(pages, n - 1);
    if row in pages[n - 1].items {
      j := n - 1;
    } else {
      j := ReadInSomePage(pages, n - 1, row);
    }
  }

  lemma RowIsRead(w: Query, tables: seq<seq<Row>>, pages: seq<Page>, row: Row)
    requires PagesOk(w, tables, pages) && Growing(tables) && pages[|pages| - 1].next.None?
    requires row in tables[0] && Matches(w, row)
    ensures row in Items(pages)
  {
    assert pages[..|pages|] == pages;
    WantedRowOnEveryPage(w, tables, pages, 0, row);
    ReadByTheEnd(pages, 0, |pages|, row);
  }

  lemma ReadRowIsWanted(w: Query, tables: seq<seq<Row>>, pages: seq<Page>, row: Row) returns (j: nat)
    requires PagesOk(w, tables, pages) && Growing(tables) && row in Items(pages)
    ensures j < |pages| && row in pages[j].items && row in tables[j]
    ensures row in tables[|tables| - 1] && Matches(w, row)
  {
    assert pages[..|pages|] == pages;
    j := ReadInSomePage(pages, |pages|, row);
    assert PageOk(w, tables[j], Previous(pages, j), pages[j]);
  }

  /** A scan read to its end while rows are inserted returns its rows newest first and never
      twice, only rows the filters select, and all of those that were there from the start. */
  lemma ScanReturnsEveryRowOnce(c: Codec, f: Filters, tables: seq<seq<Row>>, nows: seq<int>, pages: seq<Page>)
    requires Faithful(c) && Fixed(f) && Growing(tables)
    requires IsScan(c, f, tables, nows, pages) && pages[|pages| - 1].next.None?
    ensures Ascending(Before, Items(pages))
    ensures forall row :: row in Items(pages) ==> row in tables[|tables| - 1] && Matches(Wanted(f), row)
    ensures forall row :: row in tables[0] && Matches(Wanted(f), row) ==> row in Items(pages)
  {
    ScanPagesOk(c, f, tables, nows, pages);
    PagesReturnEveryRowOnce(Wanted(f), tables, pages);
  }

  lemma PagesReturnEveryRowOnce(w: Query, tables: seq<seq<Row>>, pages: seq<Page>)
    requires PagesOk(w, tables, pages) && Growing(tables) && pages[|pages| - 1].next.None?
    ensures Ascending(Before, Items(pages))
    ensures forall row :: row in Items(pages) ==> row in tables[|tables| - 1] && Matches(w, row)
    ensures forall row :: row in tables[0] && Matches(w, row) ==> row in Items(pages)
  {
    PagesInOrder(w, tables, pages, |pages|);
    assert pages[..|pages|] == pages;
    forall row | row in tables[0] && Matches(w, row) ensures row in Items(pages) {
      RowIsRead(w, tables, pages, row);
    }
    forall row | row in Items(pages) ensures row in tables[|tables| - 1] && Matches(w, row) {
      var j := ReadRowIsWanted(w, tables, pages, row);
    }
  }

  /** A row inserted just before request `k` is returned if and only if it is older than the
      last row returned until then. */
  lemma InsertedRowIsSeenIffAhead(
      c: Codec, f: Filters, tables: seq<seq<Row>>, nows: seq<int>, pages: seq<Page>, k: nat, row: Row)
    requires Faithful(c) && Fixed(f) && Growing(tables)
    requires IsScan(c, f, tables, nows, pages) && pages[|pages| - 1].next.None?
    requires 0 < k < |pages| && row in tables[k] && row !in tables[k - 1] && Matches(Wanted(f), row)
    ensures pages[k - 1].items != []
    ensures row in Items(pages) <==> Before(pages[k - 1].items[|pages[k - 1].items| - 1], row)
  {
    ScanPagesOk(c, f, tables, nows, pages);
    InsertedRowIsReadIff(Wanted(f), tables, pages, k, row);
  }

  lemma InsertedRowIsReadIff(w: Query, tables: seq<seq<Row>>, pages: seq<Page>, k: nat, row: Row)
    requires PagesOk(w, tables, pages) && Growing(tables) && pages[|pages| - 1].next.None?
    requires 0 < k < |pages| && row in tables[k] && row !in tables[k - 1] && Matches(w, row)
    ensures pages[k - 1].items != []
    ensures row in Items(pages) <==> Before(pages[k - 1].items[|pages[k - 1].items| - 1], row)
  {
    assert PageOk(w, tables[k], Previous(pages, k), pages[k]);
    assert pages[..|pages|] == pages;
    if Ahead(Previous(pages, k), row) {
      WantedRowOnEveryPage(w, tables, pages, k, row);
      ReadByTheEnd(pages, k, |pages|, row);
    }
    if row in Items(pages) {
      var j := ReadRowIsWanted(w, tables, pages, row);
      NotReadBefore(tables, k, j, row);
      ReadAfter(w, tables, pages, k, j, row);
    }
  }

  lemma NotReadBefore(tables: seq<seq<Row>>, k: nat, j: nat, row: Row)
    requires Growing(tables) && 0 < k < |tables| && j < |tables|
    requires row in tables[j] && row !in tables[k - 1]
    ensures j >= k
  {
  }

  lemma ReadAfter(w: Query, tables: seq<seq<Row>>, pages: seq<Page>, k: nat, j: nat, row: Row)
    requires PagesOk(w, tables, pages) && 0 < k <= j < |pages| && row in pages[j].items
    requires pages[k - 1].items != []
    ensures Before(pages[k - 1].items[|pages[k - 1].items| - 1], row)
  {
    assert PageOk(w, tables[j], Previous(pages, j), pages[j]);
    var last := pages[k - 1].items[|pages[k - 1].items| - 1];
    ItemsSnoc(pages, k - 1);
    assert last in Items(pages[..k]);
    ItemsGrow(pages, k, j, last);
    ReadBeforeAhead(w, tables, pages, j, last, row);
  }

  lemma {:induction false} ItemsGrow(pages: seq<Page>, k: nat, j: nat, row: Row)
    requires k <= j <= |pages| && row in Items(pages[..k])
    ensures row in Items(pages[..j])
    decreases j
  {
    if k < j {
      ItemsGrow(pages, k, j - 1, row);
      ItemsSnoc(pages, j - 1);
    }
  }

  /** On a table that does not change, the pages are exactly the unpaged answer, cut up. */
  lemma PagedEqualsUnpaged(c: Codec, f: Filters, table: seq<Row>, nows: seq<int>, pages: seq<Page>)
    requires Faithful(c) && Fixed(f) && UniqueIds(table)
    requires IsScan(c, f, seq(|pages|, _ => table), nows, pages) && pages[|pages| - 1].next.None?
    ensures Items(pages) == Matching(Wanted(f), table)
  {
    var tables := seq(|pages|, _ => table);
    ScanReturnsEveryRowOnce(c, f, tables, nows, pages);
    MatchingIs(Wanted(f), table);
    BeforeIsWeak();
    AscendingUnique(Before, Items(pages), Matching(Wanted(f), table));
  }

  // ----- The export scan -----

  /** The rows from a position of the full answer on are the answer to the query below it. */
  lemma RestOfAnswer(q: Query, table: seq<Row>, n: nat)
    requires UniqueIds(table) && q.below.None? && 0 < n <= |Matching(q, table)|
    ensures Matching(q.(below := Some(KeyOf(Matching(q, table)[n - 1]))), table) == Matching(q, table)[n..]
  {
    var all := Matching(q, table);
    var q' := q.(below := Some(KeyOf(all[n - 1])));
    MatchingIs(q, table);
    MatchingIs(q', table);
    BeforeIsWeak();
    forall row ensures row in Matching(q', table) <==> row in all[n..] {
      if row in all[n..] {
        assert Before(all[n - 1], row);
      } else if row in all {
        var i :| 0 <= i < n && all[i] == row;
        assert i < n - 1 ==> Before(all[i], all[n - 1]);
      }
      assert row in Matching(q', table) <==> row in all && Before(all[n - 1], row);
    }
    AscendingUnique(Before, Matching(q', table), all[n..]);
  }

  /** The query of the export: the filters, with their own `limit` replaced. */
  function ExportQuery(f: Filters, chunkSize: int, now: int): Query {
    BuildAuditQuery(f.(limit := chunkSize), now)
  }

  /** Everything the export is documented to return. */
  function AllRows(f: Filters, table: seq<Row>, now: int): seq<Row> {
    Matching(ExportQuery(f, 1, now), table)
  }

  lemma LimitDoesNotSelect(q: Query, n: nat, table: seq<Row>)
    requires UniqueIds(table)
    ensures Matching(q.(limit := n), table) == Matching(q, table)
  {
    MatchingIs(q, table);
    MatchingIs(q.(limit := n), table);
    BeforeIsWeak();
    AscendingUnique(Before, Matching(q.(limit := n), table), Matching(q, table));
  }

  /** The `n`-th row read, if any, as the position of the scan. */
  function ExportPosition(f: Filters, table: seq<Row>, now: int, n: nat): Option<Key>
    requires n <= |AllRows(f, table, now)|
  {
    if n == 0 then None else Some(KeyOf(AllRows(f, table, now)[n - 1]))
  }

  lemma ChunkIs(f: Filters, table: seq<Row>, now: int, chunkSize: int, n: nat)
    requires UniqueIds(table) && n <= |AllRows(f, table, now)|
    ensures Execute(ExportQuery(f, chunkSize, now).(below := ExportPosition(f, table, now, n)), table)
            == Take(ClampLimit(chunkSize), AllRows(f, table, now)[n..])
  {
    LimitDoesNotSelect(ExportQuery(f, 1, now), ClampLimit(chunkSize), table);
    if n > 0 {
      RestOfAnswer(ExportQuery(f, chunkSize, now), table, n);
    }
  }

  lemma ChunkExtends(all: seq<Row>, n: nat, size: nat)
    requires n <= |all|
    ensures var rows := Take(size, all[n..]); n + |rows| <= |all| && all[..n] + rows == all[..n + |rows|]
  {
  }

  /** `iter_audit_rows` on a table that does not change meanwhile: all rows in order when the
      chunk size is within `MAX_LIMIT`, and only the first `MAX_LIMIT` of them when it is not. */
  method IterAuditRows(f: Filters, table: seq<Row>, now: int, chunkSize: int) returns (out: seq<Row>)
    requires UniqueIds(table)
    ensures out == if chunkSize <= MAX_LIMIT then AllRows(f, table, now) else Take(MAX_LIMIT, AllRows(f, table, now))
  {
    out := [];
    var last: Option<Key> := None;
    ghost var all := AllRows(f, table, now);
    while true
      invariant |out| <= |all| && out == all[..|out|]
      invariant last == ExportPosition(f, table, now, |out|)
      invariant out != [] ==> chunkSize <= MAX_LIMIT
      decreases |all| - |out|
    {
      var q := ExportQuery(f, chunkSize, now);
      if last.Some? {
        q := q.(below := last);
      }
      var rows := Execute(q, table);
      ChunkIs(f, table, now, chunkSize, |out|);
      if rows == [] {
        return;
      }
      ChunkExtends(all, |out|, ClampLimit(chunkSize));
      out := out + rows;
      if |rows| < chunkSize {
        return;
      }
      last := Some(KeyOf(rows[|rows| - 1]));
    }
  }

  /** The export is complete exactly when no chunk is cut short by the clamp. The chunk size
      the code uses, 500, is one for which it is not. */
  lemma ExportIsCompleteIff(f: Filters, table: seq<Row>, now: int, chunkSize: int)
    ensures (if chunkSize <= MAX_LIMIT then AllRows(f, table, now) else Take(MAX_LIMIT, AllRows(f, table, now)))
            == AllRows(f, table, now)
            <==> chunkSize <= MAX_LIMIT || |AllRows(f, table, now)| <= MAX_LIMIT
  {
  }
}
