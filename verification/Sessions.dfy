/** A client that lists orders page by page, handing each token back: the whole path
    from query strings through the database to tokens and back. */
module Sessions {
  import opened Prelude
  import opened Orders
  import opened Pagination
  import opened Listing
  import opened Pages
  import opened PageWalk
  import opened Parameters
  import opened ListOrders

  /** One request: what the table holds when it is served, and the limit parameter. */
  datatype Ask = Ask(table: seq<Order>, limit: string)

  predicate Sound(table: seq<Order>) {
    UniqueIds(table) && forall o :: o in table ==> Presentable(o)
  }

  /** Every request after the first repeats the parameters with the token it got; the
      limit may differ from request to request. */
  ghost predicate Session(p: Params, userId: Uuid, requests: seq<Ask>, replies: seq<Reply>)
    decreases |requests|
  {
    && |requests| == |replies|
    && (requests != [] ==>
          var asked := p.(limit := requests[0].limit);
          && Usable(asked) && Sound(requests[0].table)
          && replies[0] == ReplyOf(requests[0].table, asked, userId)
          && (|replies| > 1 ==>
                && replies[0].Listed? && replies[0].nextCursor.Some?
                && Session(p.(cursor := replies[0].nextCursor.value), userId, requests[1..], replies[1..])))
  }

  function Visits(requests: seq<Ask>, userId: Uuid, p: Params): (v: seq<Visit>)
    ensures |v| == |requests|
  {
    seq(|requests|, i requires 0 <= i < |requests| =>
      Visit(requests[i].table, FilterOf(p.(limit := requests[i].limit), userId).limit))
  }

  /** Everything the client was shown. */
  function AllShown(replies: seq<Reply>): seq<OrderResponse>
    requires forall i :: 0 <= i < |replies| ==> replies[i].Listed?
  {
    if replies == [] then [] else replies[0].orders + AllShown(replies[1..])
  }

  /** The reply shows the page. */
  predicate Shows(reply: Reply, page: Page) {
    && reply.Listed? && reply.orders == Responses(page.orders)
    && (reply.nextCursor.Some? <==> page.next.Some?)
  }

  ghost predicate Mirrors(replies: seq<Reply>, pages: seq<Page>) {
    && |replies| == |pages|
    && forall i :: 0 <= i < |replies| ==> Shows(replies[i], pages[i])
  }

  /** The limit parameter decides about the limit and nothing else. */
  lemma ChangeLimit(p: Params, limit: string, userId: Uuid, f: ListFilter, n: int)
    requires SameFilter(FilterOf(p.(limit := limit), userId), f)
    ensures SameFilter(FilterOf(p, userId).(limit := n), f.(limit := n))
  {
  }

  lemma OnlyCursorDiffers(p: Params, limit: string, userId: Uuid, f: ListFilter, c: Option<Cursor>)
    requires SameFilter(FilterOf(p, userId).(limit := f.limit), f.(cursor := c))
    ensures forall d :: FilterOf(p.(limit := limit), userId).(cursor := d, limit := f.limit) == f.(cursor := d)
  {
  }

  /** The first reply is the page at the position asked for, and the next request asks
      for the position of its cursor. */
  lemma FirstReply(p: Params, userId: Uuid, ask: Ask, f: ListFilter, c: Option<Cursor>)
    requires SameFilter(FilterOf(p, userId).(limit := f.limit), f.(cursor := c))
    requires Usable(p.(limit := ask.limit)) && Sound(ask.table)
    ensures var asked := p.(limit := ask.limit);
      var page := PageOf(ask.table, f.(cursor := c, limit := FilterOf(asked, userId).limit));
      var reply := ReplyOf(ask.table, asked, userId);
      && Shows(reply, page)
      && (reply.nextCursor.Some? ==>
            SameFilter(FilterOf(p.(cursor := reply.nextCursor.value), userId).(limit := f.limit),
                       f.(cursor := page.next)))
  {
    var asked := p.(limit := ask.limit);
    SameFilterSamePage(ask.table, FilterOf(asked, userId), f.(cursor := c, limit := FilterOf(asked, userId).limit));
    NextRequest(ask.table, asked, userId);
    var reply := ReplyOf(ask.table, asked, userId);
    if reply.nextCursor.Some? {
      var page := PageOf(ask.table, FilterOf(asked, userId));
      var q := p.(cursor := reply.nextCursor.value);
      assert q.(limit := ask.limit) == asked.(cursor := reply.nextCursor.value);
      ChangeLimit(q, ask.limit, userId, FilterOf(asked, userId).(cursor := page.next), f.limit);
      OnlyCursorDiffers(p, ask.limit, userId, f, c);
    }
  }

  lemma VisitsTail(requests: seq<Ask>, userId: Uuid, p: Params, q: Params)
    requires requests != [] && q == p.(cursor := q.cursor)
    ensures Visits(requests, userId, p)[1..] == Visits(requests[1..], userId, q)
    ensures Visits(requests, userId, p)[0]
         == Visit(requests[0].table, FilterOf(p.(limit := requests[0].limit), userId).limit)
  {
  }

  lemma WalkLonger(f: ListFilter, c: Option<Cursor>, visits: seq<Visit>, page: Page, rest: seq<Page>)
    requires visits != [] && page == PageOf(visits[0].table, f.(cursor := c, limit := visits[0].limit))
    requires rest != [] ==> page.next.Some?
    requires Walk(f, page.next, visits[1..], rest)
    ensures Walk(f, c, visits, [page] + rest)
  {
    assert ([page] + rest)[1..] == rest;
  }

  /** A session is a walk along next cursors, from a position that the first request
      names; c is any way to write that position. */
  lemma {:induction false} SessionIsWalk(p: Params, userId: Uuid, requests: seq<Ask>, replies: seq<Reply>,
                                         f: ListFilter, c: Option<Cursor>) returns (pages: seq<Page>)
    requires Session(p, userId, requests, replies)
    requires SameFilter(FilterOf(p, userId).(limit := f.limit), f.(cursor := c))
    ensures Walk(f, c, Visits(requests, userId, p), pages)
    ensures Mirrors(replies, pages)
    decreases |requests|
  {
    if requests == [] { return []; }
    FirstReply(p, userId, requests[0], f, c);
    var visits := Visits(requests, userId, p);
    var page := PageOf(visits[0].table, f.(cursor := c, limit := visits[0].limit));
    var rest, q := [], p;
    if |requests| > 1 {
      q := p.(cursor := replies[0].nextCursor.value);
      rest := SessionIsWalk(q, userId, requests[1..], replies[1..], f, page.next);
    }
    VisitsTail(requests, userId, p, q);
    WalkLonger(f, c, visits, page, rest);
    MirrorsLonger(replies, page, rest);
    pages := [page] + rest;
  }

  lemma MirrorsLonger(replies: seq<Reply>, page: Page, rest: seq<Page>)
    requires replies != [] && Shows(replies[0], page) && Mirrors(replies[1..], rest)
    ensures Mirrors(replies, [page] + rest)
  {
    forall i | 0 <= i < |replies| ensures Shows(replies[i], ([page] + rest)[i]) {
      if i > 0 { assert replies[i] == replies[1..][i - 1]; }
    }
  }

  lemma {:induction false} ShownOrders(replies: seq<Reply>, pages: seq<Page>)
    requires Mirrors(replies, pages)
    ensures AllShown(replies) == Responses(AllOrders(pages))
  {
    if replies != [] {
      ShownOrders(replies[1..], pages[1..]);
    }
  }

  // ---------------------------------------------------------------------
  // A table that changes

  predicate Started(p: Params) { p.cursor == "" }

  lemma DistinctIds(orders: seq<Order>)
    requires UniqueIds(orders)
    ensures forall i, j :: 0 <= i < j < |orders| ==> Responses(orders)[i].orderId != Responses(orders)[j].orderId
  {
    forall i, j | 0 <= i < j < |orders| ensures Responses(orders)[i].orderId != Responses(orders)[j].orderId {
      ParseUuidText(orders[i].id);
      ParseUuidText(orders[j].id);
    }
  }

  /** However orders are added and change status between the requests, no order id is
      shown twice in a session. */
  lemma SessionNeverRepeats(p: Params, userId: Uuid, requests: seq<Ask>, replies: seq<Reply>)
    requires Started(p) && Session(p, userId, requests, replies) && TablesEvolve(Visits(requests, userId, p))
    ensures forall i :: 0 <= i < |replies| ==> replies[i].Listed?
    ensures var shown := AllShown(replies);
      forall i, j :: 0 <= i < j < |shown| ==> shown[i].orderId != shown[j].orderId
  {
    var f := FilterOf(p, userId);
    var pages := SessionIsWalk(p, userId, requests, replies, f, None);
    WalkNeverRepeats(f, Visits(requests, userId, p), pages);
    ShownOrders(replies, pages);
    DistinctIds(AllOrders(pages));
  }

  lemma ShownId(orders: seq<Order>, id: Uuid)
    requires exists i :: 0 <= i < |orders| && orders[i].id == id
    ensures exists i :: 0 <= i < |orders| && Responses(orders)[i].orderId == UuidText(id)
  {
    var i :| 0 <= i < |orders| && orders[i].id == id;
    assert Responses(orders)[i].orderId == UuidText(id);
  }

  /** At every request the table has an order of this id that the parameters name. */
  ghost predicate AlwaysWanted(p: Params, userId: Uuid, requests: seq<Ask>, id: Uuid) {
    forall i :: 0 <= i < |requests| ==> HasWanted(requests[i].table, p, userId, id)
  }

  ghost predicate HasWanted(table: seq<Order>, p: Params, userId: Uuid, id: Uuid) {
    exists o :: o in table && o.id == id && WantedBy(p, userId, o)
  }

  lemma WantedIsSelected(p: Params, limit: string, userId: Uuid, o: Order)
    requires Usable(p.(limit := limit))
    ensures WantedBy(p, userId, o) <==> Selected(FilterOf(p, userId), o)
  {
    var q := p.(limit := limit);
    AsksForIff(q, userId, FilterOf(q, userId));
    SelectedIff(q, userId, FilterOf(q, userId), o);
    var f, g := FilterOf(p, userId), FilterOf(q, userId);
    assert g == f.(limit := g.limit);
    SameButLimit(f, g, o);
    LimitWantsNothing(p, limit, userId, o);
  }

  lemma LimitWantsNothing(p: Params, limit: string, userId: Uuid, o: Order)
    ensures WantedBy(p.(limit := limit), userId, o) <==> WantedBy(p, userId, o)
  {
  }

  lemma SameButLimit(f: ListFilter, g: ListFilter, o: Order)
    requires g == f.(limit := g.limit)
    ensures Selected(f, o) <==> Selected(g, o)
  {
  }

  lemma WantedHere(p: Params, limit: string, userId: Uuid, table: seq<Order>, f: ListFilter, id: Uuid)
    requires Usable(p.(limit := limit)) && f == FilterOf(p, userId)
    requires HasWanted(table, p, userId, id)
    ensures Offers(table, f, id)
  {
    var o :| o in table && o.id == id && WantedBy(p, userId, o);
    WantedIsSelected(p, limit, userId, o);
  }

  lemma AlwaysWantedIsSelected(p: Params, userId: Uuid, requests: seq<Ask>, id: Uuid, f: ListFilter,
                               visits: seq<Visit>)
    requires requests != [] && Usable(p.(limit := requests[0].limit)) && AlwaysWanted(p, userId, requests, id)
    requires f == FilterOf(p, userId) && visits == Visits(requests, userId, p)
    ensures AlwaysSelected(f, visits, id)
  {
    forall i | 0 <= i < |visits| ensures Offers(visits[i].table, f, id) {
      assert visits[i].table == requests[i].table;
      WantedHere(p, requests[0].limit, userId, visits[i].table, f, id);
    }
  }

  lemma SelectedIsShown(p: Params, userId: Uuid, requests: seq<Ask>, replies: seq<Reply>, id: Uuid)
    requires Started(p) && Session(p, userId, requests, replies) && TablesEvolve(Visits(requests, userId, p))
    requires replies != [] && replies[|replies| - 1].Listed? && replies[|replies| - 1].nextCursor.None?
    requires AlwaysSelected(FilterOf(p, userId), Visits(requests, userId, p), id)
    ensures forall i :: 0 <= i < |replies| ==> replies[i].Listed?
    ensures exists i :: 0 <= i < |AllShown(replies)| && AllShown(replies)[i].orderId == UuidText(id)
  {
    var f := FilterOf(p, userId);
    var pages := SessionIsWalk(p, userId, requests, replies, f, None);
    WalkSkipsNothing(f, Visits(requests, userId, p), pages, id);
    ShownOrders(replies, pages);
    ShownId(AllOrders(pages), id);
  }

  /** A session that follows the tokens to the end has shown every order that the
      parameters named whenever it asked. */
  lemma SessionSkipsNothing(p: Params, userId: Uuid, requests: seq<Ask>, replies: seq<Reply>, id: Uuid)
    requires Started(p) && Session(p, userId, requests, replies) && TablesEvolve(Visits(requests, userId, p))
    requires replies != [] && replies[|replies| - 1].Listed? && replies[|replies| - 1].nextCursor.None?
    requires AlwaysWanted(p, userId, requests, id)
    ensures forall i :: 0 <= i < |replies| ==> replies[i].Listed?
    ensures exists i :: 0 <= i < |AllShown(replies)| && AllShown(replies)[i].orderId == UuidText(id)
  {
    AlwaysWantedIsSelected(p, userId, requests, id, FilterOf(p, userId), Visits(requests, userId, p));
    SelectedIsShown(p, userId, requests, replies, id);
  }

  // ---------------------------------------------------------------------
  // A table that stands still

  /** On one table with one limit, a walk to the end is the static walk. */
  lemma {:induction false} WalkOnStillTable(f: ListFilter, c: Option<Cursor>, visits: seq<Visit>, pages: seq<Page>,
                                            table: seq<Order>)
    requires Walk(f, c, visits, pages) && pages != [] && pages[|pages| - 1].next.None? && UniqueIds(table)
    requires forall i :: 0 <= i < |visits| ==> visits[i] == Visit(table, f.limit)
    ensures pages == StaticWalk(table, f.(cursor := c))
    decreases |visits|
  {
    var g := f.(cursor := c);
    assert pages[0] == PageOf(table, g) by { assert g == f.(cursor := c, limit := visits[0].limit); }
    assert pages == [pages[0]] + pages[1..];
    StaticWalkUnfolds(table, g);
    if |pages| > 1 {
      var later := visits[1..];
      assert forall i :: 0 <= i < |later| ==> later[i] == visits[i + 1];
      WalkOnStillTable(f, pages[0].next, later, pages[1..], table);
      assert g.(cursor := pages[0].next) == f.(cursor := pages[0].next);
    }
  }

  /** While nothing changes, the pages of a session put together are the matching
      orders in descending order, all of them, in the least number of requests. */
  lemma SessionShowsTheList(p: Params, userId: Uuid, requests: seq<Ask>, replies: seq<Reply>, table: seq<Order>)
    requires Started(p) && Session(p, userId, requests, replies) && UniqueIds(table)
    requires forall i :: 0 <= i < |requests| ==> requests[i] == Ask(table, p.limit)
    requires replies != [] && replies[|replies| - 1].Listed? && replies[|replies| - 1].nextCursor.None?
    ensures forall i :: 0 <= i < |replies| ==> replies[i].Listed?
    ensures AllShown(replies) == Responses(Found(table, FilterOf(p, userId)))
    ensures LeastPages(|replies|, |Found(table, FilterOf(p, userId))|, Limit(FilterOf(p, userId)))
  {
    var f := FilterOf(p, userId);
    StartsWithoutCursor(p, userId);
    var pages := SessionIsWalk(p, userId, requests, replies, f, None);
    SameVisits(requests, userId, p, table);
    WalkOnStillTable(f, None, Visits(requests, userId, p), pages, table);
    StaticWalkIsWhole(table, f);
    ShownOrders(replies, pages);
  }

  lemma ListIsWanted(p: Params, userId: Uuid, f: ListFilter, table: seq<Order>)
    requires Started(p) && AsksFor(p, userId, f) && UniqueIds(table)
    ensures forall o :: o in Found(table, f) <==> o in table && WantedBy(p, userId, o)
    ensures NewestFirst(Found(table, f))
  {
    FoundFacts(table, f);
    NewestFirstIff(Found(table, f));
    forall o ensures Matches(f, o) <==> WantedBy(p, userId, o) { SelectedIff(p, userId, f, o); }
  }

  /** Said through the parameters: while nothing changes, the orders shown in a session
      are exactly those that the parameters name, the newest first, each as it is. */
  lemma SessionShowsExactly(p: Params, userId: Uuid, requests: seq<Ask>, replies: seq<Reply>, table: seq<Order>)
    returns (orders: seq<Order>)
    requires Started(p) && Session(p, userId, requests, replies) && UniqueIds(table)
    requires forall i :: 0 <= i < |requests| ==> requests[i] == Ask(table, p.limit)
    requires replies != [] && replies[|replies| - 1].Listed? && replies[|replies| - 1].nextCursor.None?
    ensures forall i :: 0 <= i < |replies| ==> replies[i].Listed?
    ensures |AllShown(replies)| == |orders|
    ensures forall i :: 0 <= i < |orders| ==> ShowsOrder(AllShown(replies)[i], orders[i])
    ensures forall o :: o in orders <==> o in table && WantedBy(p, userId, o)
    ensures NewestFirst(orders)
  {
    var f := FilterOf(p, userId);
    SessionShowsTheList(p, userId, requests, replies, table);
    orders := Found(table, f);
    assert p.(limit := p.limit) == p;
    AsksForIff(p, userId, f);
    ListIsWanted(p, userId, f, table);
    EachIsShown(orders);
  }

  lemma EachIsShown(orders: seq<Order>)
    ensures forall i :: 0 <= i < |orders| ==> ShowsOrder(Responses(orders)[i], orders[i])
  {
  }

  lemma StartsWithoutCursor(p: Params, userId: Uuid)
    requires Started(p)
    ensures var f := FilterOf(p, userId);
      f.(cursor := None) == f && SameFilter(f.(limit := f.limit), f.(cursor := None))
  {
  }

  lemma SameVisits(requests: seq<Ask>, userId: Uuid, p: Params, table: seq<Order>)
    requires forall i :: 0 <= i < |requests| ==> requests[i] == Ask(table, p.limit)
    ensures forall i :: 0 <= i < |requests| ==>
      Visits(requests, userId, p)[i] == Visit(table, FilterOf(p, userId).limit)
  {
    assert p.(limit := p.limit) == p;
  }

  // ---------------------------------------------------------------------
  // Sessions come to an end

  /** Behind a page that is followed by another, less is left. */
  lemma LessIsLeft(table: seq<Order>, f: ListFilter, g: ListFilter)
    requires UniqueIds(table) && PageOf(table, f).next.Some? && SameFilter(g, f.(cursor := PageOf(table, f).next))
    ensures |Found(table, g)| < |Found(table, f)|
  {
    var rest := f.(cursor := PageOf(table, f).next);
    FoundAfter(table, f, Limit(f));
    SelectSame(o => Matches(g, o), o => Matches(rest, o), table);
  }

  lemma OneRequestMore(p: Params, userId: Uuid, table: seq<Order>, requests: seq<Ask>, replies: seq<Reply>)
    requires Usable(p) && Sound(table) && ReplyOf(table, p, userId).Listed?
    requires ReplyOf(table, p, userId).nextCursor.Some?
    requires Session(p.(cursor := ReplyOf(table, p, userId).nextCursor.value), userId, requests, replies)
    ensures Session(p, userId, [Ask(table, p.limit)] + requests, [ReplyOf(table, p, userId)] + replies)
  {
    assert p.(limit := p.limit) == p;
    assert ([Ask(table, p.limit)] + requests)[1..] == requests;
    assert ([ReplyOf(table, p, userId)] + replies)[1..] == replies;
  }

  lemma OneRequest(p: Params, userId: Uuid, table: seq<Order>)
    requires Usable(p) && Sound(table)
    ensures Session(p, userId, [Ask(table, p.limit)], [ReplyOf(table, p, userId)])
  {
    assert p.(limit := p.limit) == p;
  }

  /** From any usable parameters a client can follow the tokens to the end: no token on
      the way is refused, and on a table that stands still there is a last one. */
  lemma {:induction false} SessionCanEnd(p: Params, userId: Uuid, table: seq<Order>)
    returns (requests: seq<Ask>, replies: seq<Reply>)
    requires Usable(p) && Sound(table)
    ensures Session(p, userId, requests, replies)
    ensures forall i :: 0 <= i < |requests| ==> requests[i] == Ask(table, p.limit)
    ensures replies != [] && replies[|replies| - 1].Listed? && replies[|replies| - 1].nextCursor.None?
    decreases |Found(table, FilterOf(p, userId))|
  {
    var reply := ReplyOf(table, p, userId);
    NextRequest(table, p, userId);
    if reply.nextCursor.None? {
      OneRequest(p, userId, table);
      return [Ask(table, p.limit)], [reply];
    }
    var q := p.(cursor := reply.nextCursor.value);
    LessIsLeft(table, FilterOf(p, userId), FilterOf(q, userId));
    requests, replies := SessionCanEnd(q, userId, table);
    OneRequestMore(p, userId, table, requests, replies);
    requests, replies := [Ask(table, p.limit)] + requests, [reply] + replies;
  }
}
