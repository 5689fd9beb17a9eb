/** Keyset pagination: `listOrders` and `listProducts`. Stored times are in microseconds; a
    cursor goes through `toISOString()` and keeps whole milliseconds only. */
module Pagination {
  import opened Tables
  import opened Sorting

  const DEFAULT_LIMIT := 20
  const MAX_LIMIT := 100

  /** The listed columns that matter: `createdAt` in microseconds. */
  datatype Record = Record(id: Uuid, org: Uuid, createdAt: nat)

  /** `createdAt` in milliseconds. */
  datatype Cursor = Cursor(createdAt: nat, id: Uuid)

  /** A `limit` query value: absent, not finite, or a number. */
  datatype Limit = Absent | NotFinite | Number(value: real)

  /** A `cursor` query value: absent, one that does not decode, or an encoded cursor. */
  datatype CursorParam = NoCursor | Malformed | Encoded(cursor: Cursor)

  datatype Page = Page(items: seq<Record>, next: Option<Cursor>)

  datatype Reply = BadCursor | Listed(page: Page)

  function NormalizeLimit(limit: Limit): (n: nat)
    ensures 1 <= n <= 100
    ensures !limit.Number? || limit.value < 1.0 ==> n == 20
    ensures limit.Number? && limit.value > 100.0 ==> n == 100
    ensures limit.Number? && 1.0 <= limit.value <= 100.0 ==> n as real <= limit.value < n as real + 1.0
  {
    match limit
    case Absent => DEFAULT_LIMIT
    case NotFinite => DEFAULT_LIMIT
    case Number(x) =>
      if x < 1.0 then DEFAULT_LIMIT
      else if x.Floor <= MAX_LIMIT then x.Floor else MAX_LIMIT
  }

  function EncodeCursor(r: Record): Cursor {
    Cursor(r.createdAt / 1000, r.id)
  }

  /** The WHERE fragment: an earlier time, or the same time with a smaller id. */
  predicate KeysetBefore(r: Record, c: Cursor) {
    r.createdAt < c.createdAt * 1000 || (r.createdAt == c.createdAt * 1000 && r.id < c.id)
  }

  predicate Matches(r: Record, org: Uuid, cursor: Option<Cursor>) {
    r.org == org && (cursor.Some? ==> KeysetBefore(r, cursor.value))
  }

  function Matching(table: seq<Record>, org: Uuid, cursor: Option<Cursor>): (rows: seq<Record>)
    ensures forall r :: r in rows <==> r in table && Matches(r, org, cursor)
  {
    if table == [] then []
    else (if Matches(table[0], org, cursor) then [table[0]] else []) + Matching(table[1..], org, cursor)
  }

  /** `ORDER BY created_at DESC, id DESC`. */
  predicate Newer(a: Record, b: Record) {
    a.createdAt > b.createdAt || (a.createdAt == b.createdAt && a.id >= b.id)
  }

  function Fetch(table: seq<Record>, org: Uuid, cursor: Option<Cursor>, limit: nat): seq<Record> {
    var rows := Sort(Matching(table, org, cursor), Newer);
    if |rows| <= limit then rows else rows[..limit]
  }

  function Paginate(rows: seq<Record>, limit: nat): Page {
    var hasMore := |rows| > limit;
    var items := if hasMore then rows[..limit] else rows;
    Page(items, if hasMore && items != [] then Some(EncodeCursor(items[|items| - 1])) else None)
  }

  function ListPage(table: seq<Record>, org: Uuid, limit: Limit, cursor: Option<Cursor>): Page {
    Paginate(Fetch(table, org, cursor, NormalizeLimit(limit) + 1), NormalizeLimit(limit))
  }

  /** `listOrders` and `listProducts`: a present cursor that does not decode is a 400. */
  function List(table: seq<Record>, org: Uuid, limit: Limit, cursor: CursorParam): (reply: Reply)
    ensures reply.BadCursor? <==> cursor.Malformed?
  {
    match cursor
    case Malformed => BadCursor
    case NoCursor => Listed(ListPage(table, org, limit, None))
    case Encoded(c) => Listed(ListPage(table, org, limit, Some(c)))
  }

  // ----- one page -----

  /** Strictly earlier in the listing. */
  predicate Above(a: Record, b: Record) {
    a.createdAt > b.createdAt || (a.createdAt == b.createdAt && a.id > b.id)
  }

  ghost predicate DistinctIds(table: seq<Record>) {
    forall i, j | 0 <= i < j < |table| :: table[i].id != table[j].id
  }

  ghost predicate Descending(rows: seq<Record>) {
    forall i, j | 0 <= i < j < |rows| :: Above(rows[i], rows[j])
  }

  lemma {:induction false} MatchingDistinct(table: seq<Record>, org: Uuid, cursor: Option<Cursor>)
    requires DistinctIds(table)
    ensures DistinctIds(Matching(table, org, cursor))
  {
    if table != [] {
      var rest := Matching(table[1..], org, cursor);
      MatchingDistinct(table[1..], org, cursor);
      forall j | 0 <= j < |rest| ensures rest[j].id != table[0].id {
        assert rest[j] in table[1..];
      }
    }
  }

  lemma SortedMatching(table: seq<Record>, org: Uuid, cursor: Option<Cursor>)
    requires DistinctIds(table)
    ensures Descending(Sort(Matching(table, org, cursor), Newer))
    ensures forall r :: r in Sort(Matching(table, org, cursor), Newer) <==> r in table && Matches(r, org, cursor)
  {
    var rows := Matching(table, org, cursor);
    MatchingDistinct(table, org, cursor);
    assert DistinctBy(rows, (r: Record) => r.id);
    DistinctRearranged(rows, Sort(rows, Newer), (r: Record) => r.id);
    SortSorts(rows, Newer);
    SameElements(rows, Sort(rows, Newer));
    var sorted := Sort(rows, Newer);
    forall i, j | 0 <= i < j < |sorted| ensures Above(sorted[i], sorted[j]) {
      assert Newer(sorted[i], sorted[j]) && sorted[i].id != sorted[j].id;
    }
  }

  /** A page holds the first `limit` matching rows of the listing, in order; it hands out a
      cursor exactly when matching rows remain, and then it is full. */
  ghost predicate IsTop(page: Page, table: seq<Record>, org: Uuid, limit: nat, cursor: Option<Cursor>) {
    && Descending(page.items) && |page.items| <= limit
    && (forall r | r in page.items :: r in table && Matches(r, org, cursor))
    && (page.next.Some? ==> |page.items| == limit >= 1 && page.next == Some(EncodeCursor(page.items[limit - 1])))
    && (page.next.None? ==> forall r | r in table && Matches(r, org, cursor) :: r in page.items)
    && (page.next.Some? ==> exists r :: r in table && Matches(r, org, cursor) && r !in page.items)
    && (forall a, r | a in page.items && r in table && Matches(r, org, cursor) && r !in page.items :: Above(a, r))
  }

  lemma PaginateIsTop(rows: seq<Record>, page: Page, table: seq<Record>, org: Uuid, limit: nat, cursor: Option<Cursor>)
    requires Descending(rows) && limit >= 1
    requires forall r :: r in rows <==> r in table && Matches(r, org, cursor)
    requires page == Paginate(if |rows| <= limit + 1 then rows else rows[..limit + 1], limit)
    ensures IsTop(page, table, org, limit, cursor)
  {
    assert page.items == if |rows| <= limit then rows else rows[..limit];
    forall a, r | a in page.items && r in table && Matches(r, org, cursor) && r !in page.items ensures Above(a, r) {
      assert r in rows;
      var i, k :| 0 <= i < |page.items| && rows[i] == a && 0 <= k < |rows| && rows[k] == r;
    }
    if page.next.Some? {
      assert rows[limit] in rows;
      assert forall i | 0 <= i < limit :: Above(rows[i], rows[limit]);
    }
  }

  lemma PageIsTop(table: seq<Record>, org: Uuid, limit: Limit, cursor: Option<Cursor>)
    requires DistinctIds(table)
    ensures IsTop(ListPage(table, org, limit, cursor), table, org, NormalizeLimit(limit), cursor)
  {
    SortedMatching(table, org, cursor);
    PaginateIsTop(Sort(Matching(table, org, cursor), Newer), ListPage(table, org, limit, cursor), table, org,
                  NormalizeLimit(limit), cursor);
  }

  // ----- following cursors -----

  /** One request of a walk, on the table as it is at that moment. */
  datatype Fetching = Fetching(table: seq<Record>, limit: Limit)

  /** The query value of a page's `nextCursor`. */
  function AsParam(cursor: Option<Cursor>): CursorParam {
    if cursor.Some? then Encoded(cursor.value) else NoCursor
  }

  /** The pages a client gets by following `nextCursor` until it is null. */
  function Walk(calls: seq<Fetching>, org: Uuid, cursor: Option<Cursor>): seq<Page> {
    if calls == [] then []
    else
      var page := List(calls[0].table, org, calls[0].limit, AsParam(cursor)).page;
      [page] + if page.next.None? then [] else Walk(calls[1..], org, page.next)
  }

  function Visited(pages: seq<Page>): seq<Record> {
    if pages == [] then [] else pages[0].items + Visited(pages[1..])
  }

  /** The walk reached a null cursor. */
  predicate Ended(pages: seq<Page>) {
    pages != [] && pages[|pages| - 1].next.None?
  }

  ghost predicate TablesOk(calls: seq<Fetching>) {
    forall k | 0 <= k < |calls| :: DistinctIds(calls[k].table)
  }

  /** What the proofs below use of a walk: every page is the top of what its cursor left. */
  ghost predicate Chain(calls: seq<Fetching>, org: Uuid, cursor: Option<Cursor>, pages: seq<Page>)
    decreases |calls|
  {
    if calls == [] then pages == []
    else
      && pages != [] && IsTop(pages[0], calls[0].table, org, NormalizeLimit(calls[0].limit), cursor)
      && if pages[0].next.None? then |pages| == 1 else Chain(calls[1..], org, pages[0].next, pages[1..])
  }

  lemma {:induction false} WalkChains(calls: seq<Fetching>, org: Uuid, cursor: Option<Cursor>)
    requires TablesOk(calls)
    ensures Chain(calls, org, cursor, Walk(calls, org, cursor))
    decreases |calls|
  {
    if calls != [] {
      var page := ListPage(calls[0].table, org, calls[0].limit, cursor);
      PageIsTop(calls[0].table, org, calls[0].limit, cursor);
      if page.next.Some? {
        WalkChains(calls[1..], org, page.next);
        assert Walk(calls, org, cursor)[1..] == Walk(calls[1..], org, page.next);
      }
    }
  }

  lemma BeforeIsBelow(r: Record, a: Record)
    requires KeysetBefore(r, EncodeCursor(a))
    ensures Above(a, r)
  {
  }

  lemma BeforeChains(r: Record, a: Record, c: Cursor)
    requires KeysetBefore(r, EncodeCursor(a)) && KeysetBefore(a, c)
    ensures KeysetBefore(r, c)
  {
  }

  /** A row below the last row of a page is below the cursor the page started from. */
  lemma BelowPage(page: Page, table: seq<Record>, org: Uuid, limit: nat, cursor: Option<Cursor>, r: Record)
    requires IsTop(page, table, org, limit, cursor) && page.next.Some? && Matches(r, org, page.next)
    ensures Matches(r, org, cursor)
  {
    var last := page.items[limit - 1];
    assert last in page.items;
    if cursor.Some? {
      BeforeChains(r, last, cursor.value);
    }
  }

  lemma {:induction false} ChainStaysBelow(calls: seq<Fetching>, org: Uuid, cursor: Option<Cursor>, pages: seq<Page>,
                                           r: Record) returns (k: nat)
    requires Chain(calls, org, cursor, pages) && r in Visited(pages)
    ensures Matches(r, org, cursor) && k < |calls| && r in calls[k].table
    decreases |calls|
  {
    if r in pages[0].items {
      k := 0;
    } else {
      k := ChainStaysBelow(calls[1..], org, pages[0].next, pages[1..], r);
      k := k + 1;
      BelowPage(pages[0], calls[0].table, org, NormalizeLimit(calls[0].limit), cursor, r);
    }
  }

  /** Everything a walk returns is a row of the organisation, from the table of one of its calls. */
  lemma WalkReturnsRows(calls: seq<Fetching>, org: Uuid, cursor: Option<Cursor>, r: Record) returns (k: nat)
    requires TablesOk(calls) && r in Visited(Walk(calls, org, cursor))
    ensures Matches(r, org, cursor) && k < |calls| && r in calls[k].table
  {
    WalkChains(calls, org, cursor);
    k := ChainStaysBelow(calls, org, cursor, Walk(calls, org, cursor), r);
  }

  lemma RestStaysBelow(calls: seq<Fetching>, org: Uuid, a: Record, pages: seq<Page>)
    requires Chain(calls, org, Some(EncodeCursor(a)), pages)
    ensures forall r | r in Visited(pages) :: KeysetBefore(r, EncodeCursor(a))
  {
    forall r | r in Visited(pages) ensures KeysetBefore(r, EncodeCursor(a)) {
      var _ := ChainStaysBelow(calls, org, Some(EncodeCursor(a)), pages, r);
    }
  }

  lemma DescendingJoin(a: seq<Record>, b: seq<Record>)
    requires Descending(a) && Descending(b) && a != []
    requires forall r | r in b :: KeysetBefore(r, EncodeCursor(a[|a| - 1]))
    ensures Descending(a + b)
  {
    forall i, j | 0 <= i < |a| && 0 <= j < |b| ensures Above(a[i], b[j]) {
      assert b[j] in b;
      BeforeIsBelow(b[j], a[|a| - 1]);
      assert i == |a| - 1 || Above(a[i], a[|a| - 1]);
    }
  }

  lemma {:induction false} ChainDescends(calls: seq<Fetching>, org: Uuid, cursor: Option<Cursor>, pages: seq<Page>)
    requires Chain(calls, org, cursor, pages)
    ensures Descending(Visited(pages))
    decreases |calls|
  {
    if calls != [] {
      var items := pages[0].items;
      if pages[0].next.Some? {
        ChainDescends(calls[1..], org, pages[0].next, pages[1..]);
        RestStaysBelow(calls[1..], org, items[|items| - 1], pages[1..]);
        DescendingJoin(items, Visited(pages[1..]));
      } else {
        assert Visited(pages) == items;
      }
    }
  }

  /** Whatever happens to the table between calls, and whatever the stored times, the rows come
      back strictly descending: none is ever repeated. */
  lemma WalkDescends(calls: seq<Fetching>, org: Uuid, cursor: Option<Cursor>)
    requires TablesOk(calls)
    ensures Descending(Visited(Walk(calls, org, cursor)))
  {
    WalkChains(calls, org, cursor);
    ChainDescends(calls, org, cursor, Walk(calls, org, cursor));
  }

  // ----- ending -----

  lemma EndedLater(pages: seq<Page>)
    requires |pages| > 1
    ensures Ended(pages) <==> Ended(pages[1..])
  {
  }

  lemma {:induction false} UnendedReturnsRows(calls: seq<Fetching>, org: Uuid, cursor: Option<Cursor>, pages: seq<Page>)
    requires Chain(calls, org, cursor, pages) && !Ended(pages)
    ensures |Visited(pages)| >= |calls|
    decreases |calls|
  {
    if calls != [] {
      if |pages| > 1 {
        EndedLater(pages);
      }
      UnendedReturnsRows(calls[1..], org, pages[0].next, pages[1..]);
    }
  }

  lemma {:induction false} DescendingSize(rows: seq<Record>, all: set<Record>)
    requires Descending(rows) && forall r | r in rows :: r in all
    ensures |rows| <= |all|
  {
    if rows != [] {
      var last := rows[|rows| - 1];
      var init := rows[..|rows| - 1];
      assert forall i | 0 <= i < |init| :: Above(init[i], last);
      DescendingSize(init, all - {last});
    }
  }

  /** A walk over tables that draw from finitely many rows ends: it needs at most one more call
      than there are rows. */
  lemma WalkEnds(calls: seq<Fetching>, org: Uuid, cursor: Option<Cursor>, all: set<Record>)
    requires TablesOk(calls) && |calls| > |all|
    requires forall k | 0 <= k < |calls| :: forall r | r in calls[k].table :: r in all
    ensures Ended(Walk(calls, org, cursor))
  {
    var pages := Walk(calls, org, cursor);
    if !Ended(pages) {
      WalkChains(calls, org, cursor);
      UnendedReturnsRows(calls, org, cursor, pages);
      ChainDescends(calls, org, cursor, pages);
      forall r | r in Visited(pages) ensures r in all {
        var k := ChainStaysBelow(calls, org, cursor, pages, r);
      }
      DescendingSize(Visited(pages), all);
    }
  }

  // ----- completeness -----

  /** A page that ends with `a` loses `b`: `b` comes after `a` in the listing, but `a`'s
      truncated cursor does not find it. They share a millisecond. */
  predicate Lost(a: Record, b: Record) {
    Above(a, b) && !KeysetBefore(b, EncodeCursor(a))
  }

  /** Read without the cursor: `b` comes after `a` within the same millisecond, and does not lie on
      the millisecond itself with the smaller id. */
  lemma LostIs(a: Record, b: Record)
    ensures Lost(a, b) <==> Above(a, b) && a.createdAt / 1000 == b.createdAt / 1000
                            && !(b.createdAt % 1000 == 0 && b.id < a.id)
  {
  }

  ghost predicate NothingLost(table: seq<Record>, org: Uuid) {
    forall a, b | a in table && b in table && a.org == org && b.org == org :: !Lost(a, b)
  }

  predicate MillisecondAligned(r: Record) { r.createdAt % 1000 == 0 }

  lemma AlignedIsNotLost(a: Record, b: Record)
    requires MillisecondAligned(a)
    ensures !Lost(a, b)
  {
  }

  /** The row is in the table, and no row of the organisation there can lose it. */
  ghost predicate Safe(table: seq<Record>, org: Uuid, r: Record) {
    r in table && forall a | a in table && a.org == org :: !Lost(a, r)
  }

  ghost predicate SafeThroughout(calls: seq<Fetching>, org: Uuid, r: Record) {
    forall k | 0 <= k < |calls| :: Safe(calls[k].table, org, r)
  }

  /** A row safe from a page's last row is on the page or found by its cursor. */
  lemma PageKeeps(page: Page, table: seq<Record>, org: Uuid, limit: nat, cursor: Option<Cursor>, r: Record)
    requires IsTop(page, table, org, limit, cursor) && Matches(r, org, cursor) && Safe(table, org, r)
    ensures r in page.items || (page.next.Some? && Matches(r, org, page.next))
  {
    if r !in page.items {
      var last := page.items[limit - 1];
      assert last in page.items && Above(last, r) && !Lost(last, r);
    }
  }

  /** A row that is there at every call, and that no page can lose, is returned. */
  lemma {:induction false} ChainFinds(calls: seq<Fetching>, org: Uuid, cursor: Option<Cursor>, pages: seq<Page>,
                                      r: Record)
    requires Chain(calls, org, cursor, pages) && Ended(pages)
    requires Matches(r, org, cursor) && SafeThroughout(calls, org, r)
    ensures r in Visited(pages)
    decreases |calls|
  {
    PageKeeps(pages[0], calls[0].table, org, NormalizeLimit(calls[0].limit), cursor, r);
    if r !in pages[0].items {
      if |pages| > 1 {
        EndedLater(pages);
      }
      forall k | 0 <= k < |calls[1..]| ensures Safe(calls[1..][k].table, org, r) {
        assert Safe(calls[k + 1].table, org, r);
      }
      ChainFinds(calls[1..], org, pages[0].next, pages[1..], r);
    }
  }

  ghost predicate Growing(calls: seq<Fetching>) {
    forall i, j | 0 <= i < j < |calls| :: forall r | r in calls[i].table :: r in calls[j].table
  }

  lemma DescendingOnce(rows: seq<Record>, r: Record)
    requires Descending(rows) && r in rows
    ensures multiset(rows)[r] == 1
  {
    var i :| 0 <= i < |rows| && rows[i] == r;
    assert DistinctBy(rows, (x: Record) => x);
    OnceIn(rows, (x: Record) => x, i);
  }

  /** With stored times on whole milliseconds, following the cursors to the end returns every row
      the organisation had at the first call exactly once, newest first, whatever is inserted in
      between and whatever limits are asked for. */
  lemma PagingIsComplete(calls: seq<Fetching>, org: Uuid, r: Record)
    requires TablesOk(calls) && Growing(calls) && Ended(Walk(calls, org, None))
    requires forall k | 0 <= k < |calls| :: forall a | a in calls[k].table && a.org == org :: MillisecondAligned(a)
    requires calls != [] && r in calls[0].table && r.org == org
    ensures multiset(Visited(Walk(calls, org, None)))[r] == 1 && Descending(Visited(Walk(calls, org, None)))
  {
    forall k | 0 <= k < |calls| ensures Safe(calls[k].table, org, r) {
      assert k == 0 || r in calls[k].table;
      forall a | a in calls[k].table && a.org == org ensures !Lost(a, r) {
        AlignedIsNotLost(a, r);
      }
    }
    WalkChains(calls, org, None);
    ChainFinds(calls, org, None, Walk(calls, org, None), r);
    ChainDescends(calls, org, None, Walk(calls, org, None));
    DescendingOnce(Visited(Walk(calls, org, None)), r);
  }

  // ----- exactly when a table can be listed -----

  /** Enough calls on one unchanging table for any walk to end. */
  function Still(table: seq<Record>, limit: Limit): seq<Fetching> {
    seq(|table| + 1, _ => Fetching(table, limit))
  }

  function WalkAll(table: seq<Record>, org: Uuid, limit: Limit): seq<Record> {
    Visited(Walk(Still(table, limit), org, None))
  }

  /** Following the cursors on an unchanging table returns all the organisation's rows. */
  ghost predicate ListsAll(table: seq<Record>, org: Uuid, limit: Limit) {
    forall r | r in table && r.org == org :: r in WalkAll(table, org, limit)
  }

  function ToSet(s: seq<Record>): (r: set<Record>)
    ensures |r| <= |s| && forall x :: x in r <==> x in s
  {
    if s == [] then {} else {s[0]} + ToSet(s[1..])
  }

  lemma StillEnds(table: seq<Record>, org: Uuid, limit: Limit)
    requires DistinctIds(table)
    ensures Ended(Walk(Still(table, limit), org, None))
  {
    WalkEnds(Still(table, limit), org, None, ToSet(table));
  }

  /** The organisation's rows as one long listing. */
  function Listing(table: seq<Record>, org: Uuid, cursor: Option<Cursor>): seq<Record> {
    Sort(Matching(table, org, cursor), Newer)
  }

  /** The cursor of the row before position `cut` loses none of the rows from there on. */
  ghost predicate CutKeeps(rows: seq<Record>, cut: nat) {
    0 < cut < |rows| ==> forall j | cut <= j < |rows| :: !Lost(rows[cut - 1], rows[j])
  }

  /** The position after `k` full pages of `n` rows. */
  function Boundary(k: nat, n: nat): nat { k * n }

  /** No page boundary of the listing loses a row. */
  ghost predicate CutsKeep(rows: seq<Record>, n: nat) {
    forall k: nat :: CutKeeps(rows, Boundary(k, n))
  }

  lemma NextBoundary(k: nat, n: nat)
    ensures Boundary(k + 1, n) == Boundary(k, n) + n
  {
  }

  lemma CutTail(rows: seq<Record>, cut: nat, n: nat)
    requires n <= |rows| && cut >= 1
    ensures CutKeeps(rows, cut + n) <==> CutKeeps(rows[n..], cut)
  {
    var rest := rows[n..];
    assert forall j | 0 <= j < |rest| :: rest[j] == rows[j + n];
    if CutKeeps(rest, cut) && cut + n < |rows| {
      forall j | cut + n <= j < |rows| ensures !Lost(rows[cut + n - 1], rows[j]) {
        assert !Lost(rest[cut - 1], rest[j - n]);
      }
    }
  }

  /** Cutting the whole listing is cutting once after the first page, and cutting the rest. */
  lemma CutsUnfold(rows: seq<Record>, n: nat)
    requires 1 <= n <= |rows|
    ensures CutsKeep(rows, n) <==> CutKeeps(rows, n) && CutsKeep(rows[n..], n)
  {
    if CutsKeep(rows, n) {
      assert CutKeeps(rows, Boundary(1, n));
      forall k: nat ensures CutKeeps(rows[n..], Boundary(k, n)) {
        NextBoundary(k, n);
        assert CutKeeps(rows, Boundary(k + 1, n));
        if Boundary(k, n) > 0 { CutTail(rows, Boundary(k, n), n); }
      }
    }
    if CutKeeps(rows, n) && CutsKeep(rows[n..], n) {
      forall k: nat ensures CutKeeps(rows, Boundary(k, n)) {
        if k > 0 {
          NextBoundary(k - 1, n);
          assert CutKeeps(rows[n..], Boundary(k - 1, n));
          if Boundary(k - 1, n) > 0 { CutTail(rows, Boundary(k - 1, n), n); }
        }
      }
    }
  }

  /** A listing that fits one page has no boundary inside it. */
  lemma ShortListing(rows: seq<Record>, n: nat)
    requires |rows| <= n
    ensures CutsKeep(rows, n)
  {
    forall k: nat ensures CutKeeps(rows, Boundary(k, n)) {
      if k > 0 {
        NextBoundary(k - 1, n);
      }
    }
  }

  /** The rows are exactly the organisation's rows below the cursor, in listing order. */
  ghost predicate Enumerates(rows: seq<Record>, table: seq<Record>, org: Uuid, cursor: Option<Cursor>) {
    Descending(rows) && forall r :: r in rows <==> r in table && Matches(r, org, cursor)
  }

  lemma OutsidePrefix(items: seq<Record>, rows: seq<Record>, j: nat)
    requires items <= rows && Descending(rows) && |items| <= j < |rows|
    ensures rows[j] !in items
  {
    forall k | 0 <= k < |items| ensures items[k] != rows[j] {
      assert Above(rows[k], rows[j]);
    }
  }

  /** The first row of both is the same: nothing comes above it. */
  lemma SameFirst(items: seq<Record>, rows: seq<Record>)
    requires items != [] && Descending(items) && Descending(rows) && forall r | r in items :: r in rows
    requires forall a, r | a in items && r in rows && r !in items :: Above(a, r)
    ensures rows != [] && items[0] == rows[0]
  {
    var a := items[0];
    assert a in items && a in rows;
    var i :| 0 <= i < |rows| && rows[i] == a;
    assert i > 0 ==> Above(rows[0], a);
    assert rows[0] in rows;
    assert forall k | 0 < k < |items| :: Above(a, items[k]);
  }

  lemma {:induction false} PrefixOf(items: seq<Record>, rows: seq<Record>)
    requires Descending(items) && Descending(rows) && forall r | r in items :: r in rows
    requires forall a, r | a in items && r in rows && r !in items :: Above(a, r)
    ensures items <= rows
  {
    if items != [] {
      SameFirst(items, rows);
      OutsidePrefixes(items);
      OutsidePrefixes(rows);
      assert items == [items[0]] + items[1..] && rows == [rows[0]] + rows[1..];
      forall r | r in items[1..] ensures r in rows[1..] {
        assert r in items && r != rows[0];
      }
      PrefixOf(items[1..], rows[1..]);
    }
  }

  lemma OutsidePrefixes(rows: seq<Record>)
    requires Descending(rows) && rows != []
    ensures rows[0] !in rows[1..] && Descending(rows[1..])
  {
    assert forall j | 1 <= j < |rows| :: Above(rows[0], rows[j]);
  }

  /** A page is the first `n` rows of what its cursor left. */
  lemma PageIsPrefix(page: Page, rows: seq<Record>, table: seq<Record>, org: Uuid, n: nat, cursor: Option<Cursor>)
    requires IsTop(page, table, org, n, cursor) && Enumerates(rows, table, org, cursor)
    ensures page.next.None? ==> page.items == rows && |rows| <= n
    ensures page.next.Some? ==>
      1 <= n < |rows| && page.items == rows[..n] && page.next == Some(EncodeCursor(rows[n - 1]))
  {
    PrefixOf(page.items, rows);
    if |page.items| < |rows| {
      OutsidePrefix(page.items, rows, |page.items|);
      assert rows[|page.items|] in rows;
    }
  }

  /** When the boundary loses nothing, the next cursor finds exactly the rest. */
  lemma RestEnumerates(rows: seq<Record>, table: seq<Record>, org: Uuid, n: nat, cursor: Option<Cursor>)
    requires Enumerates(rows, table, org, cursor) && 1 <= n < |rows| && CutKeeps(rows, n)
    ensures Enumerates(rows[n..], table, org, Some(EncodeCursor(rows[n - 1])))
  {
    var last, rest := rows[n - 1], rows[n..];
    assert last in rows;
    forall r | r in rest ensures r in table && Matches(r, org, Some(EncodeCursor(last))) {
      var j :| 0 <= j < |rest| && rest[j] == r;
      assert r == rows[j + n] && Above(last, r) && !Lost(last, r) && r in rows;
    }
    forall r | r in table && Matches(r, org, Some(EncodeCursor(last))) ensures r in rest {
      BeforeIsBelow(r, last);
      if cursor.Some? { BeforeChains(r, last, cursor.value); }
      assert r in rows;
      var j :| 0 <= j < |rows| && rows[j] == r;
      assert j < n - 1 ==> Above(rows[j], last);
      assert r == rest[j - n];
    }
  }

  /** A row the boundary loses is on no page, this one or later. */
  lemma LostIsNotListed(calls: seq<Fetching>, org: Uuid, pages: seq<Page>, rows: seq<Record>, n: nat, j: nat)
    requires Descending(rows) && 1 <= n <= j < |rows| && Lost(rows[n - 1], rows[j])
    requires Chain(calls, org, Some(EncodeCursor(rows[n - 1])), pages)
    ensures rows[j] !in rows[..n] && rows[j] !in Visited(pages)
  {
    RestStaysBelow(calls, org, rows[n - 1], pages);
    OutsidePrefix(rows[..n], rows, j);
  }

  ghost predicate AllOn(calls: seq<Fetching>, table: seq<Record>, n: nat) {
    forall k | 0 <= k < |calls| :: calls[k].table == table && NormalizeLimit(calls[k].limit) == n
  }

  ghost predicate AllIn(rows: seq<Record>, visited: seq<Record>) {
    forall r | r in rows :: r in visited
  }

  lemma AllInRest(rows: seq<Record>, n: nat, visited: seq<Record>)
    requires Descending(rows) && n <= |rows|
    ensures AllIn(rows, rows[..n] + visited) <==> AllIn(rows[n..], visited)
  {
    assert rows == rows[..n] + rows[n..];
    if AllIn(rows, rows[..n] + visited) {
      forall r | r in rows[n..] ensures r in visited {
        var j :| 0 <= j < |rows[n..]| && rows[n..][j] == r;
        assert r == rows[j + n] && r in rows;
        OutsidePrefix(rows[..n], rows, j + n);
      }
    }
  }

  /** The walk goes on, and its first boundary loses nothing: what remains is the same question. */
  lemma ChainRest(calls: seq<Fetching>, table: seq<Record>, org: Uuid, cursor: Option<Cursor>, pages: seq<Page>,
                  rows: seq<Record>, n: nat)
    requires calls != [] && AllOn(calls, table, n) && Chain(calls, org, cursor, pages) && Ended(pages)
    requires Enumerates(rows, table, org, cursor) && pages[0].next.Some?
    ensures 1 <= n < |rows| && pages[0].next == Some(EncodeCursor(rows[n - 1]))
    ensures Visited(pages) == rows[..n] + Visited(pages[1..])
    ensures AllOn(calls[1..], table, n) && Chain(calls[1..], org, pages[0].next, pages[1..]) && Ended(pages[1..])
  {
    PageIsPrefix(pages[0], rows, table, org, n, cursor);
    assert |pages| > 1;
    EndedLater(pages);
    forall k | 0 <= k < |calls[1..]| ensures calls[1..][k] == calls[k + 1] {
    }
  }

  lemma ChainLoses(calls: seq<Fetching>, org: Uuid, pages: seq<Page>, rows: seq<Record>, n: nat)
    requires Descending(rows) && 1 <= n < |rows| && !CutKeeps(rows, n)
    requires Chain(calls, org, Some(EncodeCursor(rows[n - 1])), pages)
    ensures !AllIn(rows, rows[..n] + Visited(pages))
  {
    var j :| n <= j < |rows| && Lost(rows[n - 1], rows[j]);
    LostIsNotListed(calls, org, pages, rows, n, j);
    assert rows[j] in rows;
  }

  /** A walk over an unchanging table returns every row below its cursor if and only if none of
      its page boundaries loses one. */
  lemma {:induction false} ChainListsIff(calls: seq<Fetching>, table: seq<Record>, org: Uuid, cursor: Option<Cursor>,
                                         pages: seq<Page>, rows: seq<Record>, n: nat)
    requires AllOn(calls, table, n) && Chain(calls, org, cursor, pages) && Ended(pages)
    requires Enumerates(rows, table, org, cursor)
    ensures AllIn(rows, Visited(pages)) <==> CutsKeep(rows, n)
    decreases |calls|
  {
    if pages[0].next.None? {
      PageIsPrefix(pages[0], rows, table, org, n, cursor);
      assert Visited(pages) == rows;
      ShortListing(rows, n);
    } else {
      ChainRest(calls, table, org, cursor, pages, rows, n);
      CutsUnfold(rows, n);
      if CutKeeps(rows, n) {
        AllInRest(rows, n, Visited(pages[1..]));
        RestEnumerates(rows, table, org, n, cursor);
        ChainListsIff(calls[1..], table, org, pages[0].next, pages[1..], rows[n..], n);
      } else {
        ChainLoses(calls[1..], org, pages[1..], rows, n);
      }
    }
  }

  /** For every table, whatever its stored times, and every page size: following the cursors
      returns all the rows if and only if no page boundary of the listing loses one. */
  lemma CompleteIffNothingLost(table: seq<Record>, org: Uuid, limit: Limit)
    requires DistinctIds(table)
    ensures ListsAll(table, org, limit) <==> CutsKeep(Listing(table, org, None), NormalizeLimit(limit))
  {
    var calls, rows, n := Still(table, limit), Listing(table, org, None), NormalizeLimit(limit);
    SortedMatching(table, org, None);
    StillEnds(table, org, limit);
    WalkChains(calls, org, None);
    ChainListsIff(calls, table, org, None, Walk(calls, org, None), rows, n);
    assert ListsAll(table, org, limit) <==> AllIn(rows, WalkAll(table, org, limit));
  }

  /** Every page size is complete exactly when no two rows of the organisation fall in one
      millisecond in a way a truncated cursor loses. */
  lemma CompleteForEveryLimit(table: seq<Record>, org: Uuid)
    requires DistinctIds(table)
    ensures (forall limit :: ListsAll(table, org, limit)) <==> NothingLost(table, org)
  {
    var rows := Listing(table, org, None);
    SortedMatching(table, org, None);
    if NothingLost(table, org) {
      forall limit ensures ListsAll(table, org, limit) {
        CompleteIffNothingLost(table, org, limit);
        forall cut: nat | 0 < cut < |rows| ensures CutKeeps(rows, cut) {
          assert rows[cut - 1] in rows && forall j | cut <= j < |rows| :: rows[j] in rows;
        }
      }
    } else {
      var a, b :| a in table && b in table && a.org == org && b.org == org && Lost(a, b);
      LostOneByOne(table, org, a, b);
    }
  }

  lemma SomeCutLoses(rows: seq<Record>, a: Record, b: Record)
    requires Descending(rows) && a in rows && b in rows && Lost(a, b)
    ensures !CutsKeep(rows, 1)
  {
    var i :| 0 <= i < |rows| && rows[i] == a;
    var j :| 0 <= j < |rows| && rows[j] == b;
    assert Boundary(i + 1, 1) == i + 1 && !CutKeeps(rows, i + 1);
  }

  /** Listed one by one, the lower of two such rows never appears. */
  lemma LostOneByOne(table: seq<Record>, org: Uuid, a: Record, b: Record)
    requires DistinctIds(table) && a in table && b in table && a.org == org && b.org == org && Lost(a, b)
    ensures !ListsAll(table, org, Number(1.0))
  {
    SortedMatching(table, org, None);
    CompleteIffNothingLost(table, org, Number(1.0));
    SomeCutLoses(Listing(table, org, None), a, b);
  }

  const NEWER := Record(2, 0, 1002)
  const OLDER := Record(1, 0, 1001)

  /** Two orders created in the same millisecond, listed one by one: the older one never
      appears. */
  lemma SameMillisecondIsLost()
    ensures !ListsAll([OLDER, NEWER], 0, Number(1.0))
  {
    LostOneByOne([OLDER, NEWER], 0, NEWER, OLDER);
  }

  /** The very same rows are listed in full with the default limit: they fit one page. */
  lemma SameMillisecondFitsOnePage()
    ensures ListsAll([OLDER, NEWER], 0, Absent)
  {
    CompleteIffNothingLost([OLDER, NEWER], 0, Absent);
    MatchingSize([OLDER, NEWER], 0, None);
    ShortListing(Listing([OLDER, NEWER], 0, None), DEFAULT_LIMIT);
  }

  lemma {:induction false} MatchingSize(table: seq<Record>, org: Uuid, cursor: Option<Cursor>)
    ensures |Matching(table, org, cursor)| <= |table|
  {
    if table != [] {
      MatchingSize(table[1..], org, cursor);
    }
  }
}
