/** ListOrders of internal/order/handler.go: from query parameters to a page and a
    token, and what a client sees that hands tokens back. */
module ListOrders {
  import opened Prelude
  import opened Timestamps
  import opened Orders
  import opened Pagination
  import opened Listing
  import opened Pages
  import opened Parameters
  import Base64
  import Numerals
  import Rfc3339

  datatype OrderResponse = OrderResponse(
    orderId: string, assetSymbol: string, quantity: int, side: string, executionType: string,
    limitPrice: Option<real>, status: string, createdAt: Time)

  datatype Reply =
    | NotAuthorized
    | BadRequest(fields: seq<ParamName>)
    | ServerError
    | Listed(orders: seq<OrderResponse>, nextCursor: Option<string>, hasMore: bool)

  function ResponseOf(o: Order): OrderResponse {
    OrderResponse(UuidText(o.id), o.assetSymbol, o.quantity, o.side, o.executionType, o.limitPrice,
                  StatusText(o.status), o.createdAt)
  }

  function Responses(orders: seq<Order>): (r: seq<OrderResponse>)
    ensures |r| == |orders|
  {
    seq(|orders|, i requires 0 <= i < |orders| => ResponseOf(orders[i]))
  }

  // ---------------------------------------------------------------------
  // Specification

  /** A page as the client sees it. */
  function Present(page: Page): Reply {
    if page.next.Some? && EncodeCursor(page.next.value).None? then ServerError
    else
      Listed(Responses(page.orders), if page.next.Some? then EncodeCursor(page.next.value) else None, page.next.Some?)
  }

  function ReplyOf(table: seq<Order>, p: Params, userId: Uuid): Reply {
    Present(PageOf(table, FilterOf(p, userId)))
  }

  /** The response shows the order, with its status by name. */
  predicate ShowsOrder(r: OrderResponse, o: Order) {
    && r.orderId == UuidText(o.id) && r.assetSymbol == o.assetSymbol && r.quantity == o.quantity
    && r.side == o.side && r.executionType == o.executionType && r.limitPrice == o.limitPrice
    && r.createdAt == o.createdAt
    && r.status == match o.status
       case Pending => "PENDING"
       case Executed => "EXECUTED"
       case Cancelled => "CANCELLED"
       case Rejected => "REJECTED"
  }

  /** The reply shows the page, and has a token and says that there is more exactly when
      the page has a next cursor, for that cursor. */
  predicate ShowsPage(reply: Reply, page: Page) {
    && reply.Listed? && |reply.orders| == |page.orders|
    && (forall i :: 0 <= i < |page.orders| ==> ShowsOrder(reply.orders[i], page.orders[i]))
    && reply.hasMore == page.next.Some? == reply.nextCursor.Some?
    && (page.next.Some? ==> reply.nextCursor == EncodeCursor(page.next.value))
  }

  /** The reply shows the page that the parameters ask for. */
  ghost predicate IsListing(reply: Reply, table: seq<Order>, p: Params, userId: Uuid) {
    exists f, page :: AsksFor(p, userId, f) && IsPage(page, table, f) && ShowsPage(reply, page)
  }

  lemma PresentShows(page: Page)
    ensures Present(page).Listed? ==> ShowsPage(Present(page), page)
  {
  }

  lemma ReplyIsListing(table: seq<Order>, p: Params, userId: Uuid)
    requires Usable(p) && UniqueIds(table) && ReplyOf(table, p, userId).Listed?
    ensures IsListing(ReplyOf(table, p, userId), table, p, userId)
  {
    var f := FilterOf(p, userId);
    AsksForIff(p, userId, f);
    PageIff(PageOf(table, f), table, f);
    PresentShows(PageOf(table, f));
    assert AsksFor(p, userId, f) && IsPage(PageOf(table, f), table, f);
  }

  // ---------------------------------------------------------------------
  // The handler

  method ReadFilter(p: Params, userId: Uuid) returns (filter: ListFilter, fields: seq<ParamName>)
    ensures forall name :: name in fields <==> Bad(p, name)
    ensures fields == [] ==> filter == FilterOf(p, userId)
    ensures fields == [] ==> AsksFor(p, userId, filter)
    ensures fields != [] ==> forall f :: !AsksFor(p, userId, f)
  {
    filter := ListFilter(userId, None, DEFAULT_LIMIT, None, None, None, None, None, None);
    var page, sides, rest;
    filter, page := ReadPosition(p, filter);
    filter, sides := ReadStatusAndSide(p, filter);
    filter, rest := ReadRest(p, filter);
    fields := page + sides + rest;
    assert fields == [] ==> page == [] && sides == [] && rest == [];
    EveryName(p, page, sides, rest);
    AsksForFields(p, userId, filter, fields);
  }

  lemma AsksForFields(p: Params, userId: Uuid, filter: ListFilter, fields: seq<ParamName>)
    requires forall name :: name in fields <==> Bad(p, name)
    requires fields == [] ==> filter == FilterOf(p, userId)
    ensures fields == [] ==> AsksFor(p, userId, filter)
    ensures fields != [] ==> forall f :: !AsksFor(p, userId, f)
  {
    forall f ensures AsksFor(p, userId, f) <==> Usable(p) && f == FilterOf(p, userId) { AsksForIff(p, userId, f); }
    if fields != [] { assert Bad(p, fields[0]); }
  }

  lemma EveryName(p: Params, page: seq<ParamName>, sides: seq<ParamName>, rest: seq<ParamName>)
    requires forall name :: name in page <==> name in {LimitParam, CursorParam} && Bad(p, name)
    requires forall name :: name in sides <==> name in {StatusParam, SideParam} && Bad(p, name)
    requires forall name :: name in rest <==>
      name in {ExecutionTypeParam, CreatedAfterParam, CreatedBeforeParam} && Bad(p, name)
    ensures forall name :: name in page + sides + rest <==> Bad(p, name)
  {
  }

  /** limit and cursor. */
  method ReadPosition(p: Params, before: ListFilter) returns (filter: ListFilter, fields: seq<ParamName>)
    requires before.limit == DEFAULT_LIMIT && before.cursor.None?
    ensures forall name :: name in fields <==> name in {LimitParam, CursorParam} && Bad(p, name)
    ensures filter == before.(limit := filter.limit, cursor := filter.cursor)
    ensures fields == [] ==>
      var f := FilterOf(p, before.userId);
      filter == before.(limit := f.limit, cursor := f.cursor)
  {
    filter := before;
    fields := [];
    if p.limit != "" {
      var n := Numerals.Atoi(p.limit);
      if n.None? || n.value < 1 {
        fields := fields + [LimitParam];
      } else {
        filter := filter.(limit := if n.value > MAX_LIMIT then MAX_LIMIT else n.value);
      }
    }
    if p.cursor != "" {
      var c := DecodeCursor(p.cursor);
      if c.None? {
        fields := fields + [CursorParam];
      } else {
        filter := filter.(cursor := c);
      }
    }
  }

  /** status and side. */
  method ReadStatusAndSide(p: Params, before: ListFilter) returns (filter: ListFilter, fields: seq<ParamName>)
    requires before.status.None? && before.side.None?
    ensures forall name :: name in fields <==> name in {StatusParam, SideParam} && Bad(p, name)
    ensures filter == before.(status := filter.status, side := filter.side)
    ensures fields == [] ==>
      var f := FilterOf(p, before.userId);
      filter == before.(status := f.status, side := f.side)
  {
    filter := before;
    fields := [];
    if p.status != "" {
      var s := StatusOf(Upper(p.status));
      if s.None? {
        fields := fields + [StatusParam];
      } else {
        filter := filter.(status := s);
      }
    }
    if p.side != "" {
      var s := Upper(p.side);
      if !IsValidSide(s) {
        fields := fields + [SideParam];
      } else {
        filter := filter.(side := Some(s));
      }
    }
  }

  /** The remaining parameters. */
  method ReadRest(p: Params, before: ListFilter) returns (filter: ListFilter, fields: seq<ParamName>)
    requires before.executionType.None? && before.assetSymbol.None?
    requires before.createdAfter.None? && before.createdBefore.None?
    ensures forall name :: name in fields <==>
      name in {ExecutionTypeParam, CreatedAfterParam, CreatedBeforeParam} && Bad(p, name)
    ensures fields == [] ==>
      var f := FilterOf(p, before.userId);
      filter == before.(executionType := f.executionType, assetSymbol := f.assetSymbol,
                        createdAfter := f.createdAfter, createdBefore := f.createdBefore)
  {
    filter := before;
    fields := [];
    if p.executionType != "" {
      var e := Upper(p.executionType);
      if !IsValidExecutionType(e) {
        fields := fields + [ExecutionTypeParam];
      } else {
        filter := filter.(executionType := Some(e));
      }
    }
    if p.assetSymbol != "" {
      filter := filter.(assetSymbol := Some(p.assetSymbol));
    }
    if p.createdAfter != "" {
      var t := Rfc3339.Parse(p.createdAfter);
      if t.None? {
        fields := fields + [CreatedAfterParam];
      } else {
        filter := filter.(createdAfter := t);
      }
    }
    if p.createdBefore != "" {
      var t := Rfc3339.Parse(p.createdBefore);
      if t.None? {
        fields := fields + [CreatedBeforeParam];
      } else {
        filter := filter.(createdBefore := t);
      }
    }
  }

  /** ListOrders. */
  method ListOrders(auth: Option<Uuid>, p: Params, store: OrdersTable, fault: ReadFault) returns (reply: Reply)
    ensures reply.NotAuthorized? <==> auth.None?
    ensures auth.Some? ==> (reply.BadRequest? <==> !Usable(p))
    ensures auth.Some? ==> (reply.BadRequest? <==> forall f :: !AsksFor(p, auth.value, f))
    ensures reply.BadRequest? ==> forall name :: name in reply.fields <==> Bad(p, name)
    ensures auth.Some? && Usable(p) ==>
      reply == if ReadFails(store.rows, FilterOf(p, auth.value), fault) then ServerError
               else ReplyOf(store.rows, p, auth.value)
    ensures reply.Listed? && UniqueIds(store.rows) ==> auth.Some? && IsListing(reply, store.rows, p, auth.value)
  {
    reply := Serve(auth, p, store, fault);
    if reply.Listed? && UniqueIds(store.rows) { ReplyIsListing(store.rows, p, auth.value); }
    if auth.Some? { UsableIff(p, auth.value); }
  }

  lemma UsableIff(p: Params, userId: Uuid)
    ensures Usable(p) <==> exists f :: AsksFor(p, userId, f)
  {
    AsksForIff(p, userId, FilterOf(p, userId));
    if f :| AsksFor(p, userId, f) { AsksForIff(p, userId, f); }
  }

  /** The body of ListOrders. */
  method Serve(auth: Option<Uuid>, p: Params, store: OrdersTable, fault: ReadFault) returns (reply: Reply)
    ensures reply.NotAuthorized? <==> auth.None?
    ensures auth.Some? ==> (reply.BadRequest? <==> !Usable(p))
    ensures reply.BadRequest? ==> forall name :: name in reply.fields <==> Bad(p, name)
    ensures auth.Some? && Usable(p) ==>
      reply == if ReadFails(store.rows, FilterOf(p, auth.value), fault) then ServerError
               else ReplyOf(store.rows, p, auth.value)
  {
    if auth.None? {
      return NotAuthorized;
    }
    var filter, fields := ReadFilter(p, auth.value);
    if |fields| > 0 {
      assert Bad(p, fields[0]);
      return BadRequest(fields);
    }
    assert Usable(p);
    var result := store.List(filter, fault);
    if result.Err? {
      return ServerError;
    }
    var orders, nextCursor := result.value.orders, result.value.next;
    var shown := FillResponses(orders);
    var token := None;
    if nextCursor.Some? {
      token := EncodeCursor(nextCursor.value);
      if token.None? {
        return ServerError;
      }
    }
    reply := Listed(shown, token, nextCursor.Some?);
  }

  /** The loop of ListOrders that fills resp.Orders by index. */
  method FillResponses(orders: seq<Order>) returns (shown: seq<OrderResponse>)
    ensures shown == Responses(orders)
  {
    var slots := new OrderResponse[|orders|];
    for i := 0 to |orders|
      invariant slots[..i] == Responses(orders)[..i]
    {
      slots[i] := ResponseOf(orders[i]);
    }
    shown := slots[..];
  }

  // ---------------------------------------------------------------------
  // Handing tokens back

  /** The database holds creation times that a token can carry without loss. */
  predicate Presentable(o: Order) {
    && Rfc3339.Printable(o.createdAt) && o.createdAt.offset % 60 == 0
    && !IsZero(o.createdAt) && o.id != NIL
  }

  /** Filters that differ at most in how they write the same position. */
  predicate SameFilter(f: ListFilter, g: ListFilter) {
    && f.(cursor := None) == g.(cursor := None)
    && f.cursor.Some? == g.cursor.Some?
    && (f.cursor.Some? ==> SamePlace(f.cursor.value, g.cursor.value))
  }

  lemma SameFilterSamePage(table: seq<Order>, f: ListFilter, g: ListFilter)
    requires SameFilter(f, g)
    ensures PageOf(table, f) == PageOf(table, g)
  {
    SelectSame(o => Matches(f, o), o => Matches(g, o), table);
  }

  /** The cursor of a page stands on one of its orders. */
  lemma NextIsPresentable(table: seq<Order>, f: ListFilter)
    requires UniqueIds(table) && forall o :: o in table ==> Presentable(o)
    ensures PageOf(table, f).next.Some? ==>
      var c := PageOf(table, f).next.value;
      && Rfc3339.Printable(c.createdAt) && c.createdAt.offset % 60 == 0
      && !IsZero(c.createdAt) && c.id != NIL
  {
    FoundFacts(table, f);
    var found := Found(table, f);
    if |found| > Limit(f) {
      assert found[Limit(f) - 1] in found;
    }
  }

  /** A token that ListOrders gives out is one that ListOrders takes, exactly when the
      position it carries is not the zero time or the nil id once it is printed. */
  lemma TokenIsAcceptedIff(p: Params, c: Cursor)
    requires EncodeCursor(c).Some?
    ensures Bad(p.(cursor := EncodeCursor(c).value), CursorParam)
       <==> IsZero(Rfc3339.Rounded(c.createdAt)) || c.id == NIL
  {
    DecodeEncode(c);
    EmptyIsNoToken();
    if EncodeCursor(c).value == "" {
      MarshalIsAscii(c);
      DecodeToken(Marshal(c).value);
    }
  }

  lemma EmptyIsNoToken()
    ensures Base64.Decode("") == Some("") && DecodeCursor("").None?
  {
  }

  /** The next request: the same parameters, the token as cursor. It is accepted, and
      on any table it is answered with the page right after the last order shown. */
  lemma NextRequest(table: seq<Order>, p: Params, userId: Uuid)
    requires Usable(p) && UniqueIds(table) && forall o :: o in table ==> Presentable(o)
    ensures ReplyOf(table, p, userId).Listed?
    ensures var page := PageOf(table, FilterOf(p, userId));
      var reply := ReplyOf(table, p, userId);
      && reply.nextCursor.Some? == page.next.Some?
      && (page.next.Some? ==>
            && Usable(p.(cursor := reply.nextCursor.value))
            && SameFilter(FilterOf(p.(cursor := reply.nextCursor.value), userId),
                          FilterOf(p, userId).(cursor := page.next)))
  {
    var page := PageOf(table, FilterOf(p, userId));
    NextIsPresentable(table, FilterOf(p, userId));
    if page.next.Some? {
      var c := page.next.value;
      RoundTripIff(c);
      Rfc3339.SameInstantIff(c.createdAt);
      TokenIsAcceptedIff(p, c);
      OtherParams(p, p.(cursor := EncodeCursor(c).value));
      EmptyIsNoToken();
    }
  }

  lemma OtherParams(p: Params, q: Params)
    requires Usable(p) && q == p.(cursor := q.cursor) && !Bad(q, CursorParam)
    ensures Usable(q)
  {
    forall name ensures !Bad(q, name) {
      assert !Bad(p, name);
    }
  }
}
