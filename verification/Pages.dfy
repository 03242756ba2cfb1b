/** The database's answer to a query of List, and the second part of List: reading
    the rows, trimming the extra one and deriving the next cursor. */
module Pages {
  import opened Prelude
  import opened Timestamps
  import opened Orders
  import opened Pagination
  import opened Listing

  function KeyOf(o: Order): Cursor { Cursor(o.createdAt, o.id) }

  /** Strictly descending in (created_at, id). */
  predicate Descending(s: seq<Order>) {
    forall i, j :: 0 <= i < j < |s| ==> KeyBefore(s[j], KeyOf(s[i]))
  }

  /** id is the primary key. */
  predicate UniqueIds(table: seq<Order>) {
    forall i, j :: 0 <= i < j < |table| ==> table[i].id != table[j].id
  }

  function Select(p: Order -> bool, s: seq<Order>): seq<Order> {
    if s == [] then []
    else (if p(s[0]) then [s[0]] else []) + Select(p, s[1..])
  }

  function Place(o: Order, s: seq<Order>): seq<Order> {
    if s == [] || KeyBefore(s[0], KeyOf(o)) then [o] + s else [s[0]] + Place(o, s[1..])
  }

  function SortDescending(s: seq<Order>): seq<Order> {
    if s == [] then [] else Place(s[0], SortDescending(s[1..]))
  }

  function Take(n: nat, s: seq<Order>): seq<Order> { if n <= |s| then s[..n] else s }

  /** The rows of the query: filtered, in descending key order, at most LIMIT. */
  function Answer(table: seq<Order>, query: Query, args: seq<Argument>): seq<Order> {
    var found := SortDescending(Select(o => AllHold(query.conditions, args, o), table));
    if Bound(args, query.limit) && args[query.limit - 1].Number? && args[query.limit - 1].n >= 0
    then Take(args[query.limit - 1].n, found) else found
  }

  // ---------------------------------------------------------------------
  // Specification

  datatype Page = Page(orders: seq<Order>, next: Option<Cursor>)

  /** Everything from the cursor on. */
  function Found(table: seq<Order>, f: ListFilter): seq<Order> {
    SortDescending(Select(o => Matches(f, o), table))
  }

  /** The first orders from the cursor on, and a next cursor exactly when there are
      more, at the last order shown. */
  function PageOf(table: seq<Order>, f: ListFilter): Page {
    var found := Found(table, f);
    Page(Take(Limit(f), found), if |found| > Limit(f) then Some(KeyOf(found[Limit(f) - 1])) else None)
  }

  // ---------------------------------------------------------------------
  // List

  datatype ReadFault = NoFault | QueryFails | ScanFails(at: nat) | RowsFail

  datatype ListError = QueryError | ScanError | RowsError

  /** The fault shows while the page is read. A scan fails only at a row that is read. */
  predicate ReadFails(table: seq<Order>, f: ListFilter, fault: ReadFault) {
    fault.QueryFails? || fault.RowsFail? || (fault.ScanFails? && fault.at < |Take(Limit(f) + 1, Found(table, f))|)
  }

  class OrdersTable {
    var rows: seq<Order>

    constructor (rows: seq<Order>)
      ensures this.rows == rows
    {
      this.rows := rows;
    }

    method QueryContext(query: Query, args: seq<Argument>) returns (answer: seq<Order>)
      ensures answer == Answer(rows, query, args)
    {
      answer := Answer(rows, query, args);
    }

    /** The row loop: scan every row, or stop at the one that fails. */
    method ReadRows(answer: seq<Order>, fault: ReadFault) returns (result: Result<seq<Order>, ListError>)
      ensures result ==
        if fault.ScanFails? && fault.at < |answer| then Err(ScanError)
        else if fault.RowsFail? then Err(RowsError)
        else Ok(answer)
    {
      var orders: seq<Order> := [];
      for i := 0 to |answer|
        invariant orders == answer[..i]
        invariant fault.ScanFails? ==> fault.at >= i
      {
        if fault == ScanFails(i) {
          return Err(ScanError);
        }
        orders := orders + [answer[i]];
      }
      assert orders == answer;
      result := if fault.RowsFail? then Err(RowsError) else Ok(orders);
    }

    /** List. */
    method List(f: ListFilter, fault: ReadFault) returns (result: Result<Page, ListError>)
      ensures result ==
        if !ReadFails(rows, f, fault) then Ok(PageOf(rows, f))
        else Err(if fault.QueryFails? then QueryError else if fault.RowsFail? then RowsError else ScanError)
      ensures result.Ok? && UniqueIds(rows) ==> IsPage(result.value, rows, f)
    {
      result := ReadPage(f, fault);
      if UniqueIds(rows) { FirstPageIs(rows, f); }
    }

    /** Building the query, running it and reading its rows. */
    method ReadPage(f: ListFilter, fault: ReadFault) returns (result: Result<Page, ListError>)
      ensures result ==
        if !ReadFails(rows, f, fault) then Ok(PageOf(rows, f))
        else Err(if fault.QueryFails? then QueryError else if fault.RowsFail? then RowsError else ScanError)
    {
      var limit := if f.limit <= 0 then DEFAULT_LIMIT else f.limit;
      var query, args := BuildQuery(f);
      if fault.QueryFails? {
        return Err(QueryError);
      }
      var answer := QueryContext(query, args);
      AnswerIsFound(rows, f, query, args);
      var read := ReadRows(answer, fault);
      match read {
        case Err(e) =>
          result := Err(e);
        case Ok(all) =>
          var orders, nextCursor := all, None;
          if |orders| > limit {
            orders := orders[..limit];
            var last := orders[|orders| - 1];
            nextCursor := Some(Cursor(last.createdAt, last.id));
          }
          TrimmedTake(Limit(f), Found(rows, f));
          result := Ok(Page(orders, nextCursor));
      }
    }
  }

  /** The extra row tells whether there are more, and trimming drops only that row. */
  lemma TrimmedTake(limit: nat, found: seq<Order>)
    ensures |Take(limit + 1, found)| > limit <==> |found| > limit
    ensures |found| > limit ==> Take(limit + 1, found)[..limit] == Take(limit, found)
    ensures |found| <= limit ==> Take(limit + 1, found) == Take(limit, found)
  {
  }

  lemma {:induction false} SelectSame(p: Order -> bool, q: Order -> bool, s: seq<Order>)
    requires forall o :: p(o) <==> q(o)
    ensures Select(p, s) == Select(q, s)
  {
    if s != [] { SelectSame(p, q, s[1..]); }
  }

  /** The compiled query asks for what the filter describes, and one row more. */
  lemma AnswerIsFound(table: seq<Order>, f: ListFilter, query: Query, args: seq<Argument>)
    requires |args| > 0 && query.limit == |args| && args[|args| - 1] == Number(Limit(f) + 1)
    requires forall o :: AllHold(query.conditions, args, o) <==> Matches(f, o)
    ensures Answer(table, query, args) == Take(Limit(f) + 1, Found(table, f))
  {
    SelectSame(o => AllHold(query.conditions, args, o), o => Matches(f, o), table);
  }

  // ---------------------------------------------------------------------
  // Facts about found orders

  lemma {:induction false} SelectMembers(p: Order -> bool, s: seq<Order>)
    ensures forall o :: o in Select(p, s) <==> o in s && p(o)
    ensures UniqueIds(s) ==> UniqueIds(Select(p, s))
  {
    if s != [] {
      SelectMembers(p, s[1..]);
      assert s == [s[0]] + s[1..];
      if UniqueIds(s) {
        assert forall x :: x in s[1..] ==> x.id != s[0].id;
        assert forall x :: x in Select(p, s[1..]) ==> x.id != s[0].id;
      }
    }
  }

  lemma {:induction false} PlaceMembers(o: Order, s: seq<Order>)
    ensures forall x :: x in Place(o, s) <==> x == o || x in s
  {
    if s != [] && !KeyBefore(s[0], KeyOf(o)) {
      PlaceMembers(o, s[1..]);
      assert s == [s[0]] + s[1..];
    }
  }

  lemma {:induction false} PlaceDescends(o: Order, s: seq<Order>)
    requires Descending(s) && forall x :: x in s ==> x.id != o.id
    ensures Descending(Place(o, s))
  {
    if s == [] {
    } else if KeyBefore(s[0], KeyOf(o)) {
      assert forall x :: x in s ==> KeyBefore(x, KeyOf(o));
    } else {
      assert s[0] in s && KeyBefore(o, KeyOf(s[0]));
      assert forall x :: x in s[1..] ==> x in s;
      PlaceDescends(o, s[1..]);
      PlaceMembers(o, s[1..]);
      assert forall x :: x in Place(o, s[1..]) ==> KeyBefore(x, KeyOf(s[0]));
    }
  }

  lemma {:induction false} SortedFacts(s: seq<Order>)
    requires UniqueIds(s)
    ensures Descending(SortDescending(s))
    ensures forall x :: x in SortDescending(s) <==> x in s
  {
    if s != [] {
      SortedFacts(s[1..]);
      PlaceMembers(s[0], SortDescending(s[1..]));
      assert forall x :: x in s[1..] ==> x.id != s[0].id;
      PlaceDescends(s[0], SortDescending(s[1..]));
      assert s == [s[0]] + s[1..];
    }
  }

  /** What is found is exactly what matches, in descending order. */
  lemma FoundFacts(table: seq<Order>, f: ListFilter)
    requires UniqueIds(table)
    ensures Descending(Found(table, f))
    ensures forall o :: o in Found(table, f) <==> o in table && Matches(f, o)
  {
    SelectMembers(o => Matches(f, o), table);
    SortedFacts(Select(o => Matches(f, o), table));
  }

  /** A descending sequence is determined by its members. */
  lemma {:induction false} DescendingUnique(a: seq<Order>, b: seq<Order>)
    requires Descending(a) && Descending(b) && forall o :: o in a <==> o in b
    ensures a == b
  {
    HeadIn(a);
    HeadIn(b);
    if a != [] {
      assert a[0] == b[0];
      forall o ensures o in a[1..] <==> o in b[1..] {
        assert o in a[1..] ==> o in a && o != a[0];
        assert o in b[1..] ==> o in b && o != b[0];
      }
      DescendingUnique(a[1..], b[1..]);
    }
  }

  // ---------------------------------------------------------------------
  // What a page is, spelled out

  /** Created at a later instant, or at the same one with a larger id. */
  predicate Newer(o: Order, than: Cursor) {
    || Instant(o.createdAt) > Instant(than.createdAt)
    || (Instant(o.createdAt) == Instant(than.createdAt) && o.id > than.id)
  }

  predicate NewestFirst(orders: seq<Order>) {
    forall i, j :: 0 <= i < j < |orders| ==> Newer(orders[i], Cursor(orders[j].createdAt, orders[j].id))
  }

  /** The order is one of the caller's, has what the filter names, was created strictly
      between its times, and is older than its cursor. */
  predicate Wanted(f: ListFilter, o: Order) {
    && o.userId == f.userId
    && (f.status.Some? ==> o.status == f.status.value)
    && (f.side.Some? ==> o.side == f.side.value)
    && (f.executionType.Some? ==> o.executionType == f.executionType.value)
    && (f.assetSymbol.Some? ==> o.assetSymbol == f.assetSymbol.value)
    && (f.createdAfter.Some? ==> Instant(f.createdAfter.value) < Instant(o.createdAt))
    && (f.createdBefore.Some? ==> Instant(o.createdAt) < Instant(f.createdBefore.value))
    && (f.cursor.Some? ==>
          || Instant(o.createdAt) < Instant(f.cursor.value.createdAt)
          || (Instant(o.createdAt) == Instant(f.cursor.value.createdAt) && o.id < f.cursor.value.id))
  }

  function PageSize(f: ListFilter): nat { if f.limit > 0 then f.limit else 20 }

  /** The page shows wanted rows only, the newest first. Without a next cursor it shows
      them all. With one it is full, the cursor is the position of its last order, more
      rows are wanted, and they are all older than that. */
  ghost predicate IsPage(page: Page, table: seq<Order>, f: ListFilter) {
    && NewestFirst(page.orders) && |page.orders| <= PageSize(f)
    && (forall o :: o in page.orders ==> o in table && Wanted(f, o))
    && match page.next
       case None => forall o :: o in table && Wanted(f, o) ==> o in page.orders
       case Some(c) =>
         && |page.orders| == PageSize(f)
         && c.createdAt == page.orders[|page.orders| - 1].createdAt && c.id == page.orders[|page.orders| - 1].id
         && (exists o :: o in table && Wanted(f, o) && o !in page.orders)
         && (forall o :: o in table && Wanted(f, o) && o !in page.orders ==>
               || Instant(o.createdAt) < Instant(c.createdAt)
               || (Instant(o.createdAt) == Instant(c.createdAt) && o.id < c.id))
  }

  lemma WantedIff(f: ListFilter, o: Order)
    ensures Wanted(f, o) <==> Matches(f, o)
  {
  }

  lemma NewestFirstIff(s: seq<Order>)
    ensures NewestFirst(s) <==> Descending(s)
  {
    assert forall i, j :: 0 <= i < j < |s| ==>
      (Newer(s[i], Cursor(s[j].createdAt, s[j].id)) <==> KeyBefore(s[j], KeyOf(s[i])));
  }

  /** What a full page leaves of the list. */
  lemma FullPageSplits(page: Page, table: seq<Order>, f: ListFilter) returns (rest: seq<Order>)
    requires UniqueIds(table) && IsPage(page, table, f) && page.next.Some?
    ensures Found(table, f) == page.orders + rest && rest != []
  {
    var last := page.orders[|page.orders| - 1];
    rest := Found(table, f.(cursor := Some(KeyOf(last))));
    assert last in page.orders;
    NewestFirstIff(page.orders);
    FoundIsWanted(table, f);
    WantedAfter(table, f, last);
    var more :| more in table && Wanted(f, more) && more !in page.orders;
    assert more in rest;
    PageThenRest(page.orders, rest, last);
    DescendingUnique(Found(table, f), page.orders + rest);
  }

  lemma FoundIsWanted(table: seq<Order>, f: ListFilter)
    requires UniqueIds(table)
    ensures Descending(Found(table, f)) && NewestFirst(Found(table, f))
    ensures forall o :: o in Found(table, f) <==> o in table && Wanted(f, o)
  {
    FoundFacts(table, f);
    NewestFirstIff(Found(table, f));
    forall o ensures Wanted(f, o) <==> Matches(f, o) { WantedIff(f, o); }
  }

  /** From an order on, the wanted orders behind it are listed. */
  lemma WantedAfter(table: seq<Order>, f: ListFilter, last: Order)
    requires UniqueIds(table) && Wanted(f, last)
    ensures var rest := Found(table, f.(cursor := Some(KeyOf(last))));
      Descending(rest) && forall o :: o in rest <==> o in table && Wanted(f, o) && KeyBefore(o, KeyOf(last))
  {
    FoundIsWanted(table, f.(cursor := Some(KeyOf(last))));
  }

  lemma LastPageIsAll(page: Page, table: seq<Order>, f: ListFilter)
    requires UniqueIds(table) && IsPage(page, table, f) && page.next.None?
    ensures Found(table, f) == page.orders
  {
    FoundIsWanted(table, f);
    NewestFirstIff(page.orders);
    DescendingUnique(Found(table, f), page.orders);
  }

  lemma PageThenRest(page: seq<Order>, rest: seq<Order>, last: Order)
    requires Descending(page) && Descending(rest) && page != [] && last == page[|page| - 1]
    requires forall o :: o in rest ==> KeyBefore(o, KeyOf(last))
    ensures Descending(page + rest)
  {
    forall i, j | 0 <= i < |page| && 0 <= j < |rest| ensures KeyBefore(rest[j], KeyOf(page[i])) {
      assert rest[j] in rest;
    }
  }

  lemma FirstPageIs(table: seq<Order>, f: ListFilter)
    requires UniqueIds(table)
    ensures IsPage(PageOf(table, f), table, f)
  {
    var found, page := Found(table, f), PageOf(table, f);
    FoundIsWanted(table, f);
    assert Descending(page.orders);
    NewestFirstIff(page.orders);
    assert forall o :: o in page.orders ==> o in found;
    if page.next.Some? { Remainder(found, Limit(f)); }
  }

  /** What stands behind the first n orders is not among them, and older. */
  lemma Remainder(found: seq<Order>, n: nat)
    requires Descending(found) && 1 <= n < |found|
    ensures found[n] in found && found[n] !in found[..n]
    ensures forall o :: o in found && o !in found[..n] ==> KeyBefore(o, KeyOf(found[n - 1]))
  {
    assert forall i :: 0 <= i < n ==> KeyBefore(found[n], KeyOf(found[i]));
    forall o | o in found && o !in found[..n] ensures KeyBefore(o, KeyOf(found[n - 1])) {
      var k :| 0 <= k < |found| && found[k] == o;
      assert forall i :: 0 <= i < n ==> found[i] in found[..n];
      assert k >= n;
    }
  }

  /** There is exactly one such page, and it is the one that List returns. */
  lemma PageIff(page: Page, table: seq<Order>, f: ListFilter)
    requires UniqueIds(table)
    ensures IsPage(page, table, f) <==> page == PageOf(table, f)
  {
    FirstPageIs(table, f);
    if IsPage(page, table, f) { PageIsFirst(page, table, f); }
  }

  lemma PageIsFirst(page: Page, table: seq<Order>, f: ListFilter)
    requires UniqueIds(table) && IsPage(page, table, f)
    ensures page == PageOf(table, f)
  {
    if page.next.None? {
      LastPageIsAll(page, table, f);
    } else {
      var rest := FullPageSplits(page, table, f);
      assert (page.orders + rest)[..|page.orders|] == page.orders;
    }
  }
}
