/** Following nextCursor: on a table that stands still and on one that changes. */
module PageWalk {
  import opened Prelude
  import opened Timestamps
  import opened Orders
  import opened Pagination
  import opened Listing
  import opened Pages

  function AllOrders(pages: seq<Page>): seq<Order> {
    if pages == [] then [] else pages[0].orders + AllOrders(pages[1..])
  }

  // ---------------------------------------------------------------------
  // One page

  lemma TakeFacts(n: nat, s: seq<Order>)
    ensures |Take(n, s)| == if n <= |s| then n else |s|
    ensures Take(n, s) <= s
  {
  }

  /** The page after the cursor at position k - 1 starts at position k. */
  lemma FoundAfter(table: seq<Order>, f: ListFilter, k: nat)
    requires UniqueIds(table) && 1 <= k <= |Found(table, f)|
    ensures Found(table, f.(cursor := Some(KeyOf(Found(table, f)[k - 1])))) == Found(table, f)[k..]
  {
    var all := Found(table, f);
    var last := all[k - 1];
    var g := f.(cursor := Some(KeyOf(last)));
    FoundFacts(table, f);
    FoundFacts(table, g);
    forall o ensures o in all[k..] <==> o in Found(table, g) {
      if o in all[k..] {
        assert KeyBefore(o, KeyOf(last)) && o in all;
      }
      if o in Found(table, g) {
        assert last in all && Matches(f, last);
        assert Matches(f, o);
        var i :| 0 <= i < |all| && all[i] == o;
        assert i >= k;
        assert o == all[k..][i - k];
      }
    }
    DescendingUnique(all[k..], Found(table, g));
  }

  // ---------------------------------------------------------------------
  // A walk over a table that stands still

  function StaticWalk(table: seq<Order>, f: ListFilter): seq<Page>
    requires UniqueIds(table)
    decreases |Found(table, f)|
  {
    var page := PageOf(table, f);
    if page.next.None? then [page]
    else
      FoundAfter(table, f, Limit(f));
      [page] + StaticWalk(table, f.(cursor := page.next))
  }

  /** k is max(1, ceil(n / limit)): the least number of pages, at least one, that n
      orders fit on. */
  predicate LeastPages(k: nat, n: nat, limit: nat) {
    1 <= k && n <= k * limit && (k > 1 ==> (k - 1) * limit < n)
  }

  lemma OneFullPageMore(k: nat, n: nat, limit: nat)
    requires n > limit >= 1 && LeastPages(k, n - limit, limit)
    ensures LeastPages(k + 1, n, limit)
  {
    assert (k + 1) * limit == k * limit + limit;
    if k > 1 { assert k * limit == (k - 1) * limit + limit; }
  }

  lemma StaticWalkUnfolds(table: seq<Order>, f: ListFilter)
    requires UniqueIds(table)
    ensures var page := PageOf(table, f);
      var rest := f.(cursor := page.next);
      if page.next.None? then
        StaticWalk(table, f) == [page] && page.orders == Found(table, f) && |Found(table, f)| <= Limit(f)
      else
        && |Found(table, f)| > Limit(f) && page.orders == Found(table, f)[..Limit(f)]
        && Found(table, rest) == Found(table, f)[Limit(f)..]
        && StaticWalk(table, f) == [page] + StaticWalk(table, rest)
  {
    TakeFacts(Limit(f), Found(table, f));
    if PageOf(table, f).next.Some? { FoundAfter(table, f, Limit(f)); }
  }

  lemma {:induction false} StaticWalkIsShort(table: seq<Order>, f: ListFilter)
    requires UniqueIds(table)
    ensures LeastPages(|StaticWalk(table, f)|, |Found(table, f)|, Limit(f))
    decreases |Found(table, f)|
  {
    var page := PageOf(table, f);
    StaticWalkUnfolds(table, f);
    if page.next.None? {
      OnePageIsLeast(|Found(table, f)|, Limit(f));
    } else {
      var rest := f.(cursor := page.next);
      StaticWalkIsShort(table, rest);
      OneFullPageMore(|StaticWalk(table, rest)|, |Found(table, f)|, Limit(f));
    }
  }

  lemma OnePageIsLeast(n: nat, limit: nat)
    requires n <= limit
    ensures LeastPages(1, n, limit)
  {
  }

  /** The pages together are the whole sorted list of matching orders, in the least
      number of pages. */
  lemma {:induction false} StaticWalkIsWhole(table: seq<Order>, f: ListFilter)
    requires UniqueIds(table)
    ensures AllOrders(StaticWalk(table, f)) == Found(table, f)
    ensures LeastPages(|StaticWalk(table, f)|, |Found(table, f)|, Limit(f))
    decreases |Found(table, f)|
  {
    var found := Found(table, f);
    var page := PageOf(table, f);
    StaticWalkIsShort(table, f);
    StaticWalkUnfolds(table, f);
    if page.next.None? {
      FirstPage(page, []);
    } else {
      var rest := f.(cursor := page.next);
      StaticWalkIsWhole(table, rest);
      FirstPage(page, StaticWalk(table, rest));
      assert found == found[..Limit(f)] + found[Limit(f)..];
    }
  }

  /** Every page but the last is full and has a next cursor; the last has none. */
  lemma {:induction false} OnlyLastPageEnds(table: seq<Order>, f: ListFilter)
    requires UniqueIds(table)
    ensures forall i :: 0 <= i < |StaticWalk(table, f)| ==>
      (StaticWalk(table, f)[i].next.Some? <==> i < |StaticWalk(table, f)| - 1)
    ensures forall i :: 0 <= i < |StaticWalk(table, f)| - 1 ==> |StaticWalk(table, f)[i].orders| == Limit(f)
    decreases |Found(table, f)|
  {
    var page := PageOf(table, f);
    StaticWalkUnfolds(table, f);
    if page.next.Some? {
      OnlyLastPageEnds(table, f.(cursor := page.next));
    }
  }

  lemma FirstPage(page: Page, rest: seq<Page>)
    ensures AllOrders([page] + rest) == page.orders + AllOrders(rest)
  {
    assert ([page] + rest)[1..] == rest;
  }

  // ---------------------------------------------------------------------
  // A walk over a changing table

  /** The table and the page size at one request of the walk. */
  datatype Visit = Visit(table: seq<Order>, limit: int)

  /** Each request continues at the cursor of the page before it, from cursor c. */
  ghost predicate Walk(f: ListFilter, c: Option<Cursor>, visits: seq<Visit>, pages: seq<Page>)
    decreases |visits|
  {
    && |visits| == |pages|
    && (visits != [] ==>
          && pages[0] == PageOf(visits[0].table, f.(cursor := c, limit := visits[0].limit))
          && (|pages| > 1 ==> pages[0].next.Some?)
          && Walk(f, pages[0].next, visits[1..], pages[1..]))
  }

  /** Rows are inserted anywhere and statuses change, but no row disappears and no
      creation time changes. */
  ghost predicate TableEvolves(a: seq<Order>, b: seq<Order>) {
    && UniqueIds(a) && UniqueIds(b)
    && forall i :: 0 <= i < |a| ==> exists j :: 0 <= j < |b| && b[j].id == a[i].id && b[j].createdAt == a[i].createdAt
  }

  ghost predicate TablesEvolve(visits: seq<Visit>) {
    && (forall i :: 0 <= i < |visits| ==> UniqueIds(visits[i].table))
    && forall i :: 0 <= i < |visits| - 1 ==> TableEvolves(visits[i].table, visits[i + 1].table)
  }

  lemma {:induction false} RowStays(visits: seq<Visit>, i: nat, j: nat, o: Order) returns (p: Order)
    requires TablesEvolve(visits) && i <= j < |visits| && o in visits[i].table
    ensures p in visits[j].table && p.id == o.id && p.createdAt == o.createdAt
    decreases j - i
  {
    if i == j { return o; }
    assert TableEvolves(visits[i].table, visits[i + 1].table);
    var k :| 0 <= k < |visits[i].table| && visits[i].table[k] == o;
    var l :| 0 <= l < |visits[i + 1].table| && visits[i + 1].table[l].id == visits[i].table[k].id
      && visits[i + 1].table[l].createdAt == visits[i].table[k].createdAt;
    p := RowStays(visits, i + 1, j, visits[i + 1].table[l]);
  }

  /** One id, one creation time, at every visit. */
  lemma SameRow(visits: seq<Visit>, i: nat, j: nat, o: Order, p: Order)
    requires TablesEvolve(visits) && i <= j < |visits|
    requires o in visits[i].table && p in visits[j].table && o.id == p.id
    ensures o.createdAt == p.createdAt
  {
    var q := RowStays(visits, i, j, o);
    assert q == p;
  }

  lemma PageFacts(table: seq<Order>, f: ListFilter)
    requires UniqueIds(table)
    ensures forall o :: o in PageOf(table, f).orders ==> o in table && Matches(f, o)
  {
    FoundFacts(table, f);
    TakeFacts(Limit(f), Found(table, f));
    assert forall o :: o in PageOf(table, f).orders ==> o in Found(table, f);
  }

  /** The next cursor lies behind the cursor that was asked for. */
  lemma NextIsBehind(table: seq<Order>, f: ListFilter)
    requires UniqueIds(table) && PageOf(table, f).next.Some?
    ensures f.cursor.Some? ==>
      forall o :: KeyBefore(o, PageOf(table, f).next.value) ==> KeyBefore(o, f.cursor.value)
  {
    var found := Found(table, f);
    FoundFacts(table, f);
    assert found[Limit(f) - 1] in found;
  }

  lemma {:induction false} PagesDescend(f: ListFilter, c: Option<Cursor>, visits: seq<Visit>, pages: seq<Page>)
    requires Walk(f, c, visits, pages) && forall i :: 0 <= i < |visits| ==> UniqueIds(visits[i].table)
    ensures Descending(AllOrders(pages))
    ensures c.Some? ==> forall o :: o in AllOrders(pages) ==> KeyBefore(o, c.value)
    decreases |visits|
  {
    if visits != [] {
      var table := visits[0].table;
      var g := f.(cursor := c, limit := visits[0].limit);
      FoundFacts(table, g);
      PageFacts(table, g);
      PagesDescend(f, pages[0].next, visits[1..], pages[1..]);
      PageBeforeRest(pages[0].orders, AllOrders(pages[1..]), pages[0].next, Found(table, g), Limit(g));
      if pages[0].next.Some? {
        NextIsBehind(table, g);
      }
    }
  }

  lemma {:induction false} PagesSelected(f: ListFilter, c: Option<Cursor>, visits: seq<Visit>, pages: seq<Page>, o: Order)
    returns (i: nat)
    requires Walk(f, c, visits, pages) && forall i :: 0 <= i < |visits| ==> UniqueIds(visits[i].table)
    requires o in AllOrders(pages)
    ensures i < |visits| && o in visits[i].table && Selected(f, o)
    decreases |visits|
  {
    PageFacts(visits[0].table, f.(cursor := c, limit := visits[0].limit));
    if o in pages[0].orders {
      i := 0;
    } else {
      i := PagesSelected(f, pages[0].next, visits[1..], pages[1..], o);
      i := i + 1;
    }
  }

  /** The orders of a page come before everything behind its cursor. */
  lemma PageBeforeRest(page: seq<Order>, rest: seq<Order>, next: Option<Cursor>, found: seq<Order>, limit: nat)
    requires Descending(found) && page == Take(limit, found) && limit >= 1
    requires next == if |found| > limit then Some(KeyOf(found[limit - 1])) else None
    requires Descending(rest) && (next.Some? ==> forall o :: o in rest ==> KeyBefore(o, next.value))
    requires next.None? ==> rest == []
    ensures Descending(page + rest)
  {
    if next.Some? {
      forall i, j | 0 <= i < |page| && 0 <= j < |rest| ensures KeyBefore(rest[j], KeyOf(page[i])) {
        assert rest[j] in rest;
        assert page[i] == found[i];
      }
    }
  }

  /** However the table changes between requests, the walk only goes down: no order
      is shown twice. */
  lemma WalkNeverRepeats(f: ListFilter, visits: seq<Visit>, pages: seq<Page>)
    requires Walk(f, None, visits, pages) && TablesEvolve(visits)
    ensures Descending(AllOrders(pages)) && NewestFirst(AllOrders(pages)) && UniqueIds(AllOrders(pages))
    ensures forall o :: o in AllOrders(pages) ==> Selected(f, o)
  {
    PagesDescend(f, None, visits, pages);
    NewestFirstIff(AllOrders(pages));
    var all := AllOrders(pages);
    forall o | o in all ensures Selected(f, o) {
      var k := PagesSelected(f, None, visits, pages, o);
    }
    forall i, j | 0 <= i < j < |all| ensures all[i].id != all[j].id {
      var k := PagesSelected(f, None, visits, pages, all[i]);
      var l := PagesSelected(f, None, visits, pages, all[j]);
      if all[i].id == all[j].id {
        if k <= l { SameRow(visits, k, l, all[i], all[j]); } else { SameRow(visits, l, k, all[j], all[i]); }
      }
    }
  }

  /** The order of this id is there and selected at every request. */
  ghost predicate AlwaysSelected(f: ListFilter, visits: seq<Visit>, id: Uuid) {
    forall i :: 0 <= i < |visits| ==> Offers(visits[i].table, f, id)
  }

  ghost predicate Offers(table: seq<Order>, f: ListFilter, id: Uuid) {
    exists o :: o in table && o.id == id && Selected(f, o)
  }

  /** A matching order is on the page, or behind the page's cursor. */
  lemma OnPageOrBehind(table: seq<Order>, f: ListFilter, o: Order)
    requires UniqueIds(table) && o in table && Matches(f, o)
    ensures o in PageOf(table, f).orders
      || (PageOf(table, f).next.Some? && Precedes(o.createdAt, o.id, PageOf(table, f).next.value))
  {
    var found := Found(table, f);
    FoundFacts(table, f);
    assert o in found;
    var k :| 0 <= k < |found| && found[k] == o;
    if k < Limit(f) {
      assert o == Take(Limit(f), found)[k];
    } else {
      assert KeyBefore(found[k], KeyOf(found[Limit(f) - 1]));
    }
  }

  lemma {:induction false} CompletedWalkShows(f: ListFilter, c: Option<Cursor>, visits: seq<Visit>, pages: seq<Page>,
                                              id: Uuid, createdAt: Time)
    requires Walk(f, c, visits, pages) && pages != [] && pages[|pages| - 1].next.None?
    requires forall i :: 0 <= i < |visits| ==> UniqueIds(visits[i].table)
    requires forall i, o :: 0 <= i < |visits| && o in visits[i].table && o.id == id ==> o.createdAt == createdAt
    requires AlwaysSelected(f, visits, id)
    requires c.Some? ==> Precedes(createdAt, id, c.value)
    ensures exists o :: o in AllOrders(pages) && o.id == id
    decreases |visits|
  {
    var g := f.(cursor := c, limit := visits[0].limit);
    var o :| o in visits[0].table && o.id == id && Selected(f, o);
    OnPageOrBehind(visits[0].table, g, o);
    if o in pages[0].orders {
      assert o in AllOrders(pages);
    } else {
      assert |pages| > 1;
      var later := visits[1..];
      assert forall i :: 0 <= i < |later| ==> later[i] == visits[i + 1];
      CompletedWalkShows(f, pages[0].next, later, pages[1..], id, createdAt);
      var p :| p in AllOrders(pages[1..]) && p.id == id;
      assert p in AllOrders(pages);
    }
  }

  /** A walk to the end shows every order that matched at the time of every request,
      and by WalkNeverRepeats exactly once. */
  lemma WalkSkipsNothing(f: ListFilter, visits: seq<Visit>, pages: seq<Page>, id: Uuid)
    requires Walk(f, None, visits, pages) && TablesEvolve(visits)
    requires pages != [] && pages[|pages| - 1].next.None?
    requires AlwaysSelected(f, visits, id)
    ensures exists i :: 0 <= i < |AllOrders(pages)| && AllOrders(pages)[i].id == id
    ensures forall o, p :: o in AllOrders(pages) && p in AllOrders(pages) && o.id == id && p.id == id ==> o == p
    ensures UniqueIds(AllOrders(pages))
  {
    var first :| first in visits[0].table && first.id == id && Selected(f, first);
    forall i, o | 0 <= i < |visits| && o in visits[i].table && o.id == id ensures o.createdAt == first.createdAt {
      SameRow(visits, 0, i, first, o);
    }
    CompletedWalkShows(f, None, visits, pages, id, first.createdAt);
    WalkNeverRepeats(f, visits, pages);
  }
}
