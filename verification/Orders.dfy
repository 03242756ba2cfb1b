/** The order domain: internal/order/model.go, the event contract of
    internal/order/events.go and the field rules of CreateOrder. */
module Orders {
  import opened Prelude
  import opened Timestamps

  const UUID_LIMIT: nat := 0x1_0000_0000_0000_0000_0000_0000_0000_0000

  /** A UUID as the number its sixteen bytes spell; uuid.Nil is 0. */
  type Uuid = n: nat | n < UUID_LIMIT

  const NIL: Uuid := 0

  type Side = string
  type ExecutionType = string

  const BUY: Side := "BUY"
  const SELL: Side := "SELL"
  const MARKET: ExecutionType := "MARKET"
  const LIMIT: ExecutionType := "LIMIT"

  datatype Status = Pending | Executed | Cancelled | Rejected

  datatype Order = Order(
    id: Uuid, userId: Uuid, assetSymbol: string, quantity: int, side: Side,
    executionType: ExecutionType, limitPrice: Option<real>, status: Status, createdAt: Time)

  datatype Event = Event(
    orderId: Uuid, userId: Uuid, assetSymbol: string, quantity: int, side: Side,
    executionType: ExecutionType, limitPrice: Option<real>, createdAt: Time)

  predicate IsValidSide(s: Side) { s == BUY || s == SELL }

  predicate IsValidExecutionType(e: ExecutionType) { e == MARKET || e == LIMIT }

  function NewOrderCreatedEvent(o: Order): Event {
    Event(o.id, o.userId, o.assetSymbol, o.quantity, o.side, o.executionType, o.limitPrice, o.createdAt)
  }

  datatype ContractError =
    | MissingOrderId | MissingUserId | MissingSymbol | BadQuantity | BadSide | BadExecutionType
    | LimitPriceRequired | LimitPriceForbidden

  /** OrderCreatedEvent.Validate: the first violation, or None. */
  function Validate(e: Event): Option<ContractError> {
    if e.orderId == NIL then Some(MissingOrderId)
    else if e.userId == NIL then Some(MissingUserId)
    else if e.assetSymbol == "" then Some(MissingSymbol)
    else if e.quantity <= 0 then Some(BadQuantity)
    else if !IsValidSide(e.side) then Some(BadSide)
    else if !IsValidExecutionType(e.executionType) then Some(BadExecutionType)
    else if e.executionType == LIMIT then
      (if e.limitPrice.None? || e.limitPrice.value <= 0.0 then Some(LimitPriceRequired) else None)
    else if e.limitPrice.Some? then Some(LimitPriceForbidden)
    else None
  }

  // ---------------------------------------------------------------------
  // CreateOrder

  datatype Request = Request(
    assetSymbol: string, quantity: int, side: string, executionType: string, limitPrice: Option<real>)

  datatype Body = TooLarge | Malformed | Decoded(request: Request)

  datatype Field = AssetSymbolField | QuantityField | SideField | ExecutionTypeField | LimitPriceField

  datatype Response =
    | Unauthorized | PayloadTooLarge | MalformedBody | Invalid(fields: seq<Field>) | InternalError
    | Created(order: Order)

  function UpperChar(c: char): char {
    if 'a' <= c <= 'z' then c - 'a' + 'A' else c
  }

  function Upper(s: string): (r: string)
    ensures |r| == |s|
  {
    seq(|s|, i requires 0 <= i < |s| => UpperChar(s[i]))
  }

  predicate IsSpace(c: char) { c in " \t\n\r\U{B}\U{C}" }

  function TrimLeft(s: string): string {
    if s != "" && IsSpace(s[0]) then TrimLeft(s[1..]) else s
  }

  function TrimRight(s: string): string {
    if s != "" && IsSpace(s[|s| - 1]) then TrimRight(s[..|s| - 1]) else s
  }

  function Trim(s: string): string { TrimRight(TrimLeft(s)) }

  /** assetSymbolPattern: four capital letters, then one or two digits. */
  predicate IsTicker(s: string) {
    && 5 <= |s| <= 6
    && (forall i :: 0 <= i < 4 ==> 'A' <= s[i] <= 'Z')
    && (forall i :: 4 <= i < |s| ==> '0' <= s[i] <= '9')
  }

  /** The order CreateOrder builds from a request. */
  function OrderFrom(req: Request, id: Uuid, userId: Uuid, createdAt: Time): Order {
    Order(id, userId, Upper(Trim(req.assetSymbol)), req.quantity, Upper(req.side),
          Upper(req.executionType), req.limitPrice, Pending, createdAt)
  }

  /** What CreateOrder accepts, said through the event contract: a ticker-shaped
      symbol in an order whose event a consumer will find valid. */
  predicate Acceptable(req: Request, id: Uuid, userId: Uuid, createdAt: Time) {
    && IsTicker(Upper(Trim(req.assetSymbol)))
    && Validate(NewOrderCreatedEvent(OrderFrom(req, id, userId, createdAt))).None?
  }

  /** The rule that CreateOrder checks for a field is broken. */
  predicate Broken(req: Request, field: Field) {
    match field
    case AssetSymbolField => !IsTicker(Upper(Trim(req.assetSymbol)))
    case QuantityField => req.quantity <= 0
    case SideField => !IsValidSide(Upper(req.side))
    case ExecutionTypeField => !IsValidExecutionType(Upper(req.executionType))
    case LimitPriceField =>
      if Upper(req.executionType) == LIMIT then req.limitPrice.None? || req.limitPrice.value <= 0.0
      else Upper(req.executionType) == MARKET && req.limitPrice.Some?
  }

  /** The field rules of the API and the contract of the event agree: a request
      breaks no rule exactly when its event is one that consumers accept. */
  lemma RulesMatchContract(req: Request, id: Uuid, userId: Uuid, createdAt: Time)
    requires id != NIL && userId != NIL
    ensures (forall f :: !Broken(req, f)) <==> Acceptable(req, id, userId, createdAt)
  {
    if forall f :: !Broken(req, f) {
      assert !Broken(req, AssetSymbolField) && !Broken(req, QuantityField) && !Broken(req, SideField);
      assert !Broken(req, ExecutionTypeField) && !Broken(req, LimitPriceField);
    }
  }

  /** PostgreSQL refuses an INTEGER outside 32 bits and a duplicate primary key. */
  predicate Storable(orders: map<Uuid, Order>, o: Order) {
    o.id !in orders && -0x8000_0000 <= o.quantity <= 0x7fff_ffff
  }

  /** Normalizing a ticker changes nothing. */
  lemma TickerIsNormal(s: string)
    requires IsTicker(s)
    ensures Upper(Trim(s)) == s
  {
    assert Trim(s) == s;
    assert Upper(s) == s;
  }

  /** Any MARKET order for a ticker-shaped symbol is acceptable, as it stands. */
  lemma MarketOrderIsAcceptable(symbol: string, quantity: int, id: Uuid, user: Uuid, createdAt: Time)
    requires IsTicker(symbol) && quantity > 0
    ensures var req := Request(symbol, quantity, "BUY", "MARKET", None);
      && OrderFrom(req, id, user, createdAt)
         == Order(id, user, symbol, quantity, BUY, MARKET, None, Pending, createdAt)
      && (id != NIL && user != NIL ==> Acceptable(req, id, user, createdAt))
  {
    TickerIsNormal(symbol);
    assert Upper("BUY") == "BUY" && Upper("MARKET") == "MARKET";
  }

  // ---------------------------------------------------------------------
  // What requests and events mean, spelled out

  /** t is s in capitals. */
  predicate InCapitals(s: string, t: string) {
    |s| == |t| && forall i :: 0 <= i < |s| ==>
      if 'a' <= s[i] <= 'z' then t[i] as int == s[i] as int - 32 else t[i] == s[i]
  }

  lemma UpperIff(s: string, t: string)
    ensures Upper(s) == t <==> InCapitals(s, t)
  {
    if InCapitals(s, t) {
      forall i | 0 <= i < |s| ensures Upper(s)[i] == t[i] {
        assert Upper(s)[i] as int == t[i] as int;
      }
    }
  }

  /** Tab, line feed, vertical tab, form feed, carriage return and space. */
  predicate Blank(c: char) { 9 <= c as int <= 13 || c as int == 32 }

  predicate AllBlank(s: string) { forall k :: 0 <= k < |s| ==> Blank(s[k]) }

  /** t is s without the blanks around it. */
  ghost predicate Trims(s: string, t: string) {
    && (t != "" ==> !Blank(t[0]) && !Blank(t[|t| - 1]))
    && exists before, after :: AllBlank(before) && AllBlank(after) && s == before + t + after
  }

  lemma {:induction false} TrimLeftCuts(s: string)
    ensures |TrimLeft(s)| <= |s| && TrimLeft(s) == s[|s| - |TrimLeft(s)|..]
    ensures AllBlank(s[..|s| - |TrimLeft(s)|])
    ensures TrimLeft(s) != "" ==> !Blank(TrimLeft(s)[0])
  {
    if s != "" && IsSpace(s[0]) {
      TrimLeftCuts(s[1..]);
      assert s[..|s| - |TrimLeft(s)|] == [s[0]] + s[1..][..|s| - 1 - |TrimLeft(s)|];
    }
  }

  lemma {:induction false} TrimRightCuts(s: string)
    ensures |TrimRight(s)| <= |s| && TrimRight(s) == s[..|TrimRight(s)|]
    ensures AllBlank(s[|TrimRight(s)|..])
    ensures TrimRight(s) != "" ==> !Blank(TrimRight(s)[|TrimRight(s)| - 1])
  {
    if s != "" && IsSpace(s[|s| - 1]) {
      var init := s[..|s| - 1];
      TrimRightCuts(init);
      assert s[|TrimRight(s)|..] == init[|TrimRight(s)|..] + [s[|s| - 1]];
    }
  }

  lemma TrimTrims(s: string)
    ensures Trims(s, Trim(s))
  {
    var left := TrimLeft(s);
    TrimLeftCuts(s);
    TrimRightCuts(left);
    assert s == s[..|s| - |left|] + Trim(s) + left[|Trim(s)|..];
  }

  /** Blanks in front of a text end before its first other character. */
  lemma BlanksEndBefore(s: string, before: string, text: string, blanks: string, rest: string)
    requires s == before + text && text != "" && !Blank(text[0])
    requires s == blanks + rest && AllBlank(blanks)
    ensures |blanks| <= |before|
  {
    assert s[|before|] == text[0];
    assert forall k :: 0 <= k < |blanks| ==> s[k] == blanks[k];
  }

  /** Blanks behind a text begin after its last other character. */
  lemma BlanksBeginAfter(s: string, text: string, after: string, rest: string, blanks: string)
    requires s == text + after && text != "" && !Blank(text[|text| - 1])
    requires s == rest + blanks && AllBlank(blanks)
    ensures |blanks| <= |after|
  {
    assert s[|text| - 1] == text[|text| - 1];
    assert forall k :: |rest| <= k < |s| ==> s[k] == blanks[k - |rest|];
  }

  /** There is only one way to trim. */
  lemma TrimsOnce(s: string, t: string, u: string)
    requires Trims(s, t) && Trims(s, u)
    ensures t == u
  {
    var b, a :| AllBlank(b) && AllBlank(a) && s == b + t + a;
    var c, d :| AllBlank(c) && AllBlank(d) && s == c + u + d;
    assert t == "" ==> AllBlank(s);
    assert u == "" ==> AllBlank(s);
    assert t != "" ==> s[|b|] == t[0];
    assert u != "" ==> s[|c|] == u[0];
    if t != "" && u != "" {
      SameEnds(s, b, t, a, c, u, d);
    }
  }

  lemma SameEnds(s: string, b: string, t: string, a: string, c: string, u: string, d: string)
    requires s == b + t + a && s == c + u + d && t != "" && u != ""
    requires AllBlank(a) && AllBlank(b) && AllBlank(c) && AllBlank(d)
    requires !Blank(t[0]) && !Blank(t[|t| - 1]) && !Blank(u[0]) && !Blank(u[|u| - 1])
    ensures t == u
  {
    assert s == b + (t + a) == c + (u + d);
    BlanksEndBefore(s, b, t + a, c, u + d);
    BlanksEndBefore(s, c, u + d, b, t + a);
    BlanksBeginAfter(s, b + t, a, c + u, d);
    BlanksBeginAfter(s, c + u, d, b + t, a);
    assert t == s[|b|..|b| + |t|] && u == s[|c|..|c| + |u|];
  }

  lemma TrimIff(s: string, t: string)
    ensures Trim(s) == t <==> Trims(s, t)
  {
    TrimTrims(s);
    if Trims(s, t) { TrimsOnce(s, t, Trim(s)); }
  }

  /** Four capital letters and then one or two digits, and nothing else. */
  ghost predicate TickerShape(s: string) {
    exists letters, digits ::
      && s == letters + digits && |letters| == 4 && 1 <= |digits| <= 2
      && (forall i :: 0 <= i < |letters| ==> 65 <= letters[i] as int <= 90)
      && (forall i :: 0 <= i < |digits| ==> 48 <= digits[i] as int <= 57)
  }

  lemma TickerIff(s: string)
    ensures IsTicker(s) <==> TickerShape(s)
  {
    if IsTicker(s) {
      assert s == s[..4] + s[4..];
    }
  }

  /** The symbol that a request asks for, as it is stored. */
  ghost predicate SymbolOf(asked: string, symbol: string) {
    exists t :: Trims(asked, t) && InCapitals(t, symbol)
  }

  lemma SymbolIff(asked: string, symbol: string)
    ensures SymbolOf(asked, symbol) <==> symbol == Upper(Trim(asked))
  {
    TrimIff(asked, Trim(asked));
    UpperIff(Trim(asked), symbol);
    if t :| Trims(asked, t) && InCapitals(t, symbol) { TrimIff(asked, t); }
  }

  /** The requests that the API documents. */
  ghost predicate WellFormed(req: Request) {
    && (exists symbol :: SymbolOf(req.assetSymbol, symbol) && TickerShape(symbol))
    && req.quantity > 0
    && (InCapitals(req.side, "BUY") || InCapitals(req.side, "SELL"))
    && ((InCapitals(req.executionType, "MARKET") && req.limitPrice.None?)
        || (InCapitals(req.executionType, "LIMIT") && req.limitPrice.Some? && req.limitPrice.value > 0.0))
  }

  /** Which fields are reported. */
  lemma BrokenIff(req: Request)
    ensures Broken(req, AssetSymbolField) <==>
      !exists symbol :: SymbolOf(req.assetSymbol, symbol) && TickerShape(symbol)
    ensures Broken(req, QuantityField) <==> req.quantity <= 0
    ensures Broken(req, SideField) <==> !InCapitals(req.side, "BUY") && !InCapitals(req.side, "SELL")
    ensures Broken(req, ExecutionTypeField) <==>
      !InCapitals(req.executionType, "MARKET") && !InCapitals(req.executionType, "LIMIT")
    ensures Broken(req, LimitPriceField) <==>
      || (InCapitals(req.executionType, "LIMIT") && !(req.limitPrice.Some? && req.limitPrice.value > 0.0))
      || (InCapitals(req.executionType, "MARKET") && req.limitPrice.Some?)
  {
    var symbol := Upper(Trim(req.assetSymbol));
    SymbolIff(req.assetSymbol, symbol);
    TickerIff(symbol);
    forall other | SymbolOf(req.assetSymbol, other) ensures other == symbol { SymbolIff(req.assetSymbol, other); }
    UpperIff(req.side, "BUY");
    UpperIff(req.side, "SELL");
    UpperIff(req.executionType, "MARKET");
    UpperIff(req.executionType, "LIMIT");
  }

  /** The events that the contract allows. */
  predicate ValidEvent(e: Event) {
    && e.orderId != 0 && e.userId != 0 && |e.assetSymbol| > 0 && e.quantity > 0
    && (e.side == "BUY" || e.side == "SELL")
    && ((e.executionType == "MARKET" && e.limitPrice.None?)
        || (e.executionType == "LIMIT" && e.limitPrice.Some? && e.limitPrice.value > 0.0))
  }

  lemma ValidIff(e: Event)
    ensures Validate(e).None? <==> ValidEvent(e)
  {
  }

  /** Of several violations the first in the order of the contract is reported. */
  lemma FirstViolation(e: Event)
    ensures Validate(e) == Some(MissingOrderId) <==> e.orderId == 0
    ensures Validate(e) == Some(MissingUserId) <==> e.orderId != 0 && e.userId == 0
    ensures Validate(e) == Some(MissingSymbol) <==> e.orderId != 0 && e.userId != 0 && |e.assetSymbol| == 0
    ensures Validate(e) == Some(BadQuantity) <==>
      e.orderId != 0 && e.userId != 0 && |e.assetSymbol| > 0 && e.quantity <= 0
  {
  }

  /** What is accepted is what is documented. */
  lemma AcceptableIff(req: Request, id: Uuid, userId: Uuid, createdAt: Time)
    requires id != NIL && userId != NIL
    ensures Acceptable(req, id, userId, createdAt) <==> WellFormed(req)
  {
    var symbol := Upper(Trim(req.assetSymbol));
    SymbolIff(req.assetSymbol, symbol);
    TickerIff(symbol);
    forall other | SymbolOf(req.assetSymbol, other) ensures other == symbol { SymbolIff(req.assetSymbol, other); }
    UpperIff(req.side, "BUY");
    UpperIff(req.side, "SELL");
    UpperIff(req.executionType, "MARKET");
    UpperIff(req.executionType, "LIMIT");
    ValidIff(NewOrderCreatedEvent(OrderFrom(req, id, userId, createdAt)));
  }

  /** The order that a well-formed request asks for, field by field. */
  ghost predicate MadeFrom(o: Order, req: Request, id: Uuid, userId: Uuid, createdAt: Time) {
    && o.id == id && o.userId == userId && o.createdAt == createdAt && o.status == Pending
    && o.quantity == req.quantity && o.limitPrice == req.limitPrice
    && SymbolOf(req.assetSymbol, o.assetSymbol)
    && (o.side == "BUY" <==> InCapitals(req.side, "BUY")) && (o.side == "SELL" <==> InCapitals(req.side, "SELL"))
    && (o.executionType == "MARKET" <==> InCapitals(req.executionType, "MARKET"))
    && (o.executionType == "LIMIT" <==> InCapitals(req.executionType, "LIMIT"))
  }

  lemma OrderIsMade(req: Request, id: Uuid, userId: Uuid, createdAt: Time)
    ensures MadeFrom(OrderFrom(req, id, userId, createdAt), req, id, userId, createdAt)
  {
    SymbolIff(req.assetSymbol, Upper(Trim(req.assetSymbol)));
    UpperIff(req.side, "BUY");
    UpperIff(req.side, "SELL");
    UpperIff(req.executionType, "MARKET");
    UpperIff(req.executionType, "LIMIT");
  }

  /** The event carries every field of the order but its status. */
  lemma EventCarriesOrder(o: Order)
    ensures NewOrderCreatedEvent(o) == Event(o.id, o.userId, o.assetSymbol, o.quantity, o.side, o.executionType,
                                             o.limitPrice, o.createdAt)
  {
  }
}
