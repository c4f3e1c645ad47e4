/** The paged dead-letter list: the service asks for one row more than a page
    holds, and the store takes that row off again when it computes the offset. */
module Pagination {
  import opened Model
  import opened Statements
  import opened Database
  import opened Retry

  const MAX_LIMIT: nat := 100

  datatype Listing<T> = Invalid | StoreError | Page(rows: seq<T>, hasNext: bool)

  /** ORDER BY updated_at DESC, with the tie order the database happens to use. */
  ghost predicate InOrder(ds: Deliveries, f: Filter, rows: seq<Id>) {
    && Distinct(rows) && Elements(rows) == FailedIds(ds, f)
    && forall i, j | 0 <= i < j < |rows| && rows[i] in ds && rows[j] in ds :: ds[rows[i]].updatedAt >= ds[rows[j]].updatedAt
  }

  function Min(a: int, b: int): int {
    if a < b then a else b
  }

  /** LIMIT limit OFFSET offset. */
  function Window<T>(table: seq<T>, limit: nat, offset: nat): seq<T> {
    table[Min(offset, |table|)..Min(offset + limit, |table|)]
  }

  /** The offset the store computes, in 64-bit arithmetic, from the limit it is passed. */
  function Offset(page: int, storeLimit: int): int {
    Wrap((page - 1) * (storeLimit - 1)) as int
  }

  /** The reply built from limit + 1 rows fetched at offset. */
  function ReplyAt<T>(table: seq<T>, limit: nat, offset: int): Listing<T> {
    if offset < 0 then StoreError   // OFFSET must not be negative
    else
      var rows := Window(table, limit + 1, offset);
      if |rows| > limit then Page(rows[..limit], true) else Page(rows, false)
  }

  /** What List replies, over the filtered table in its order. */
  function Listed<T>(table: seq<T>, page: int, limit: int): Listing<T> {
    if page < 1 || limit < 1 || limit > MAX_LIMIT then Invalid
    else ReplyAt(table, limit, Offset(page, limit + 1))
  }

  method List<T>(table: seq<T>, page: int, limit: int) returns (reply: Listing<T>)
    ensures reply == Listed(table, page, limit)
  {
    if page < 1 { return Invalid; }
    if limit < 1 || limit > MAX_LIMIT { return Invalid; }
    var offset := Offset(page, limit + 1);
    if offset < 0 { return StoreError; }
    var rows := Window(table, limit + 1, offset);
    var hasNext := |rows| > limit;
    if hasNext {
      rows := rows[..limit];
    }
    reply := Page(rows, hasNext);
  }

  /** Rows (page-1)*limit up to page*limit, and whether any remain after them. */
  function PageOf<T>(table: seq<T>, page: int, limit: int): Listing<T>
    requires page >= 1 && limit >= 1
  {
    var start := (page - 1) * limit;
    assert start >= 0;
    Page(Window(table, limit, start), start + limit < |table|)
  }

  lemma ReplyAtIff<T>(table: seq<T>, limit: nat, start: nat)
    requires limit >= 1 && |table| <= MAX_INT64
    ensures ReplyAt(table, limit, Wrap(start) as int) == Page(Window(table, limit, start), start + limit < |table|)
            <==> start <= MAX_INT64 || Wrap(start) as int >= |table|
  {
    var offset := Wrap(start) as int;
    if start <= MAX_INT64 {
      assert offset == start;
    } else {
      assert Window(table, limit, start) == [];
      if 0 <= offset < |table| { assert Window(table, limit + 1, offset) != []; }
    }
  }

  /** The limit + 1 of the service and the limit - 1 of the store cancel: the
      reply is the right page, exactly as long as the offset does not wrap onto
      a negative number or onto rows that exist. */
  lemma ListedIsPageIff<T>(table: seq<T>, page: int, limit: int)
    requires page >= 1 && 1 <= limit <= MAX_LIMIT && |table| <= MAX_INT64
    ensures Listed(table, page, limit) == PageOf(table, page, limit)
            <==> (page - 1) * limit <= MAX_INT64 || Wrap((page - 1) * limit) as int >= |table|
  {
    var start := (page - 1) * limit;
    assert start >= 0;
    hide ReplyAt, Window, Wrap;
    ReplyAtIff(table, limit, start);
  }

  /** Page is 1, or the page before it said that rows remain. */
  predicate Reached<T>(table: seq<T>, page: int, limit: int) {
    && page >= 1 && 1 <= limit <= MAX_LIMIT && |table| <= MAX_INT64
    && (page == 1 || (page - 1) * limit < |table|)
  }

  /** Every page reached by following has_next has an offset in range. */
  lemma ReachedPagesInRange<T>(table: seq<T>, page: int, limit: int)
    requires Reached(table, page, limit)
    ensures Listed(table, page, limit) == PageOf(table, page, limit)
  {
    ListedIsPageIff(table, page, limit);
  }

  /** What a client reads that follows has_next from page on. */
  function ReadOn<T>(table: seq<T>, page: int, limit: int): seq<T>
    requires Reached(table, page, limit)
    decreases |table| - (page - 1) * limit
  {
    ReachedPagesInRange(table, page, limit);
    var reply := Listed(table, page, limit);
    if reply.hasNext then
      assert page * limit == (page - 1) * limit + limit;
      reply.rows + ReadOn(table, page + 1, limit)
    else reply.rows
  }

  lemma {:induction false} ReadsTheRest<T>(table: seq<T>, page: int, limit: int)
    requires Reached(table, page, limit)
    ensures ReadOn(table, page, limit) == table[Min((page - 1) * limit, |table|)..]
    decreases |table| - (page - 1) * limit
  {
    hide Listed, ReplyAt, Offset, Wrap;
    ReachedPagesInRange(table, page, limit);
    assert page * limit == (page - 1) * limit + limit;
    if Listed(table, page, limit).hasNext {
      ReadsTheRest(table, page + 1, limit);
    }
  }

  /** Reading pages 1, 2, ... as List replies them, until has_next is false,
      yields the whole filtered list, every row once and in order. */
  lemma RoundTrip(ds: Deliveries, f: Filter, table: seq<Id>, limit: int)
    requires InOrder(ds, f, table) && 1 <= limit <= MAX_LIMIT && |table| <= MAX_INT64
    ensures ReadOn(table, 1, limit) == table
    ensures Elements(ReadOn(table, 1, limit)) == FailedIds(ds, f) && Distinct(ReadOn(table, 1, limit))
  {
    ReadsTheRest(table, 1, limit);
  }

  /** A page number can be so large that the offset wraps to 0: page 2^58 + 1
      with limit 64 is page 1 again. */
  lemma WrappedPage<T>(table: seq<T>)
    ensures Listed(table, 0x400_0000_0000_0000 + 1, 64) == Listed(table, 1, 64)
  {
  }

  /** updated_at alone does not fix the order: if two failed rows tie and the
      database orders them differently on two requests, one is listed twice
      and the other never. */
  lemma TiesCanHideARow(ds: Deliveries, f: Filter, a: Id, b: Id)
    requires a in ds && b in ds && a != b && FailedIds(ds, f) == {a, b} && ds[a].updatedAt == ds[b].updatedAt
    ensures InOrder(ds, f, [a, b]) && InOrder(ds, f, [b, a])
    ensures Listed([a, b], 1, 1) == Page([a], true) && Listed([b, a], 2, 1) == Page([a], false)
  {
    assert Elements([a, b]) == {a, b} && Elements([b, a]) == {a, b};
  }
}
