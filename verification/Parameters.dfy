/** The query parameters of ListOrders in internal/order/handler.go: which of them can be
    used, and what they ask for. */
module Parameters {
  import opened Prelude
  import opened Timestamps
  import opened Orders
  import opened Pagination
  import opened Listing
  import opened Pages
  import Numerals
  import Rfc3339

  const MAX_LIMIT := 100

  /** The raw query parameters; an absent one is empty. */
  datatype Params = Params(
    limit: string, cursor: string, status: string, side: string, executionType: string,
    assetSymbol: string, createdAfter: string, createdBefore: string)

  datatype ParamName =
    | LimitParam | CursorParam | StatusParam | SideParam | ExecutionTypeParam
    | CreatedAfterParam | CreatedBeforeParam

  function StatusText(s: Status): string {
    match s
    case Pending => "PENDING"
    case Executed => "EXECUTED"
    case Cancelled => "CANCELLED"
    case Rejected => "REJECTED"
  }

  function StatusOf(s: string): (r: Option<Status>)
    ensures r.Some? ==> StatusText(r.value) == s
    ensures r.None? ==> forall status :: StatusText(status) != s
  {
    if s == "PENDING" then Some(Pending)
    else if s == "EXECUTED" then Some(Executed)
    else if s == "CANCELLED" then Some(Cancelled)
    else if s == "REJECTED" then Some(Rejected)
    else None
  }

  /** The parameter is given and says nothing that can be used. */
  predicate Bad(p: Params, name: ParamName) {
    match name
    case LimitParam => p.limit != "" && (Numerals.Atoi(p.limit).None? || Numerals.Atoi(p.limit).value < 1)
    case CursorParam => p.cursor != "" && DecodeCursor(p.cursor).None?
    case StatusParam => p.status != "" && StatusOf(Upper(p.status)).None?
    case SideParam => p.side != "" && !IsValidSide(Upper(p.side))
    case ExecutionTypeParam => p.executionType != "" && !IsValidExecutionType(Upper(p.executionType))
    case CreatedAfterParam => p.createdAfter != "" && Rfc3339.Parse(p.createdAfter).None?
    case CreatedBeforeParam => p.createdBefore != "" && Rfc3339.Parse(p.createdBefore).None?
  }

  ghost predicate Usable(p: Params) { forall name :: !Bad(p, name) }

  function Given(raw: string): Option<string> { if raw == "" then None else Some(raw) }

  /** The filter that usable parameters ask for. */
  function FilterOf(p: Params, userId: Uuid): ListFilter {
    var n := Numerals.Atoi(p.limit);
    ListFilter(
      userId,
      if p.cursor == "" then None else DecodeCursor(p.cursor),
      if n.None? then DEFAULT_LIMIT else if n.value > MAX_LIMIT then MAX_LIMIT else n.value,
      if p.status == "" then None else StatusOf(Upper(p.status)),
      if p.side == "" then None else Some(Upper(p.side)),
      if p.executionType == "" then None else Some(Upper(p.executionType)),
      Given(p.assetSymbol),
      if p.createdAfter == "" then None else Rfc3339.Parse(p.createdAfter),
      if p.createdBefore == "" then None else Rfc3339.Parse(p.createdBefore))
  }

  // ---------------------------------------------------------------------
  // What the parameters mean, spelled out

  /** The text is the name of the status, in either case. */
  predicate NamesStatus(text: string, status: Status) {
    match status
    case Pending => InCapitals(text, "PENDING")
    case Executed => InCapitals(text, "EXECUTED")
    case Cancelled => InCapitals(text, "CANCELLED")
    case Rejected => InCapitals(text, "REJECTED")
  }

  ghost predicate AsksForPlace(p: Params, f: ListFilter) {
    && (if p.limit == "" then f.limit == 20
        else exists n :: n >= 1 && Numerals.Reads(p.limit, n) && f.limit == if n > 100 then 100 else n)
    && (if p.cursor == "" then f.cursor.None? else f.cursor.Some? && DecodeCursor(p.cursor) == f.cursor)
  }

  predicate AsksForKind(p: Params, f: ListFilter) {
    && (if p.status == "" then f.status.None? else f.status.Some? && NamesStatus(p.status, f.status.value))
    && (if p.side == "" then f.side.None?
        else f.side.Some? && (f.side.value == "BUY" || f.side.value == "SELL") && InCapitals(p.side, f.side.value))
    && (if p.executionType == "" then f.executionType.None?
        else
          && f.executionType.Some? && (f.executionType.value == "MARKET" || f.executionType.value == "LIMIT")
          && InCapitals(p.executionType, f.executionType.value))
    && (if p.assetSymbol == "" then f.assetSymbol.None? else f.assetSymbol == Some(p.assetSymbol))
  }

  /** An absent text stands for no time, any other for the time that it spells. */
  ghost predicate AsksForTime(text: string, t: Option<Time>) {
    if text == "" then t.None? else t.Some? && Rfc3339.SpellsTime(text, t.value)
  }

  ghost predicate AsksForTimes(p: Params, f: ListFilter) {
    AsksForTime(p.createdAfter, f.createdAfter) && AsksForTime(p.createdBefore, f.createdBefore)
  }

  /** The filter has what each parameter says, and nothing for an absent one. */
  ghost predicate AsksFor(p: Params, userId: Uuid, f: ListFilter) {
    f.userId == userId && AsksForPlace(p, f) && AsksForKind(p, f) && AsksForTimes(p, f)
  }

  lemma StatusIff(text: string, status: Status)
    ensures StatusOf(Upper(text)) == Some(status) <==> NamesStatus(text, status)
  {
    UpperIff(text, StatusText(status));
  }

  lemma LimitIff(p: Params, userId: Uuid, f: ListFilter)
    ensures !Bad(p, LimitParam) && f.limit == FilterOf(p, userId).limit <==>
      if p.limit == "" then f.limit == 20
      else exists n :: n >= 1 && Numerals.Reads(p.limit, n) && f.limit == if n > 100 then 100 else n
  {
    assert Numerals.Atoi("").None?;
    forall n ensures Numerals.Atoi(p.limit) == Some(n) <==> Numerals.Reads(p.limit, n) { Numerals.AtoiIff(p.limit, n); }
    if !Bad(p, LimitParam) && p.limit != "" {
      assert Numerals.Reads(p.limit, Numerals.Atoi(p.limit).value);
    }
  }

  lemma PlaceIff(p: Params, userId: Uuid, f: ListFilter)
    ensures AsksForPlace(p, f) <==>
      && !Bad(p, LimitParam) && !Bad(p, CursorParam)
      && f.limit == FilterOf(p, userId).limit && f.cursor == FilterOf(p, userId).cursor
  {
    LimitIff(p, userId, f);
  }

  lemma KindIff(p: Params, userId: Uuid, f: ListFilter)
    ensures AsksForKind(p, f) <==>
      var g := FilterOf(p, userId);
      && !Bad(p, StatusParam) && !Bad(p, SideParam) && !Bad(p, ExecutionTypeParam)
      && f.status == g.status && f.side == g.side && f.executionType == g.executionType
      && f.assetSymbol == g.assetSymbol
  {
    forall status ensures StatusOf(Upper(p.status)) == Some(status) <==> NamesStatus(p.status, status) {
      StatusIff(p.status, status);
    }
    if f.side.Some? { UpperIff(p.side, f.side.value); }
    if f.executionType.Some? { UpperIff(p.executionType, f.executionType.value); }
  }

  lemma TimeIff(text: string, t: Option<Time>)
    ensures AsksForTime(text, t) <==>
      if text == "" then t.None? else Rfc3339.Parse(text).Some? && t == Rfc3339.Parse(text)
  {
    if t.Some? { Rfc3339.ParseIff(text, t.value); }
  }

  lemma TimesIff(p: Params, userId: Uuid, f: ListFilter)
    ensures AsksForTimes(p, f) <==>
      var g := FilterOf(p, userId);
      && !Bad(p, CreatedAfterParam) && !Bad(p, CreatedBeforeParam)
      && f.createdAfter == g.createdAfter && f.createdBefore == g.createdBefore
  {
    TimeIff(p.createdAfter, f.createdAfter);
    TimeIff(p.createdBefore, f.createdBefore);
  }

  lemma UsableIsAll(p: Params)
    ensures Usable(p) <==>
      && !Bad(p, LimitParam) && !Bad(p, CursorParam) && !Bad(p, StatusParam) && !Bad(p, SideParam)
      && !Bad(p, ExecutionTypeParam) && !Bad(p, CreatedAfterParam) && !Bad(p, CreatedBeforeParam)
  {
    if Usable(p) {
      assert !Bad(p, LimitParam) && !Bad(p, CursorParam) && !Bad(p, StatusParam) && !Bad(p, SideParam);
      assert !Bad(p, ExecutionTypeParam) && !Bad(p, CreatedAfterParam) && !Bad(p, CreatedBeforeParam);
    }
  }

  lemma SameFields(f: ListFilter, g: ListFilter)
    requires f.userId == g.userId && f.cursor == g.cursor && f.limit == g.limit && f.status == g.status
    requires f.side == g.side && f.executionType == g.executionType && f.assetSymbol == g.assetSymbol
    requires f.createdAfter == g.createdAfter && f.createdBefore == g.createdBefore
    ensures f == g
  {
  }

  /** Parameters are usable exactly when some filter is what they ask for, and there is
      only one. */
  lemma AsksForIff(p: Params, userId: Uuid, f: ListFilter)
    ensures AsksFor(p, userId, f) <==> Usable(p) && f == FilterOf(p, userId)
  {
    PlaceIff(p, userId, f);
    KindIff(p, userId, f);
    TimesIff(p, userId, f);
    UsableIsAll(p);
    if AsksFor(p, userId, f) { SameFields(f, FilterOf(p, userId)); }
  }

  /** Which parameters are reported: those given that say nothing of what they should. */
  lemma BadIff(p: Params)
    ensures Bad(p, LimitParam) <==> p.limit != "" && !exists n :: n >= 1 && Numerals.Reads(p.limit, n)
    ensures Bad(p, StatusParam) <==> p.status != "" && !exists status :: NamesStatus(p.status, status)
    ensures Bad(p, SideParam) <==> p.side != "" && !InCapitals(p.side, "BUY") && !InCapitals(p.side, "SELL")
    ensures Bad(p, ExecutionTypeParam) <==>
      p.executionType != "" && !InCapitals(p.executionType, "MARKET") && !InCapitals(p.executionType, "LIMIT")
    ensures Bad(p, CreatedAfterParam) <==> p.createdAfter != "" && !exists t :: Rfc3339.SpellsTime(p.createdAfter, t)
    ensures Bad(p, CreatedBeforeParam) <==> p.createdBefore != "" && !exists t :: Rfc3339.SpellsTime(p.createdBefore, t)
  {
    BadLimitIff(p);
    BadTimeIff(p.createdAfter);
    BadTimeIff(p.createdBefore);
    BadKindIff(p);
  }

  lemma BadLimitIff(p: Params)
    ensures Bad(p, LimitParam) <==> p.limit != "" && !exists n :: n >= 1 && Numerals.Reads(p.limit, n)
  {
    forall n ensures Numerals.Atoi(p.limit) == Some(n) <==> Numerals.Reads(p.limit, n) { Numerals.AtoiIff(p.limit, n); }
    if p.limit != "" && !Bad(p, LimitParam) {
      assert Numerals.Reads(p.limit, Numerals.Atoi(p.limit).value);
    }
  }

  lemma BadTimeIff(text: string)
    ensures Rfc3339.Parse(text).Some? <==> exists t :: Rfc3339.SpellsTime(text, t)
  {
    if Rfc3339.Parse(text).Some? { Rfc3339.ParseIff(text, Rfc3339.Parse(text).value); }
    if t :| Rfc3339.SpellsTime(text, t) { Rfc3339.ParseIff(text, t); }
  }

  lemma BadKindIff(p: Params)
    ensures Bad(p, StatusParam) <==> p.status != "" && !exists status :: NamesStatus(p.status, status)
    ensures Bad(p, SideParam) <==> p.side != "" && !InCapitals(p.side, "BUY") && !InCapitals(p.side, "SELL")
    ensures Bad(p, ExecutionTypeParam) <==>
      p.executionType != "" && !InCapitals(p.executionType, "MARKET") && !InCapitals(p.executionType, "LIMIT")
  {
    forall status ensures StatusOf(Upper(p.status)) == Some(status) <==> NamesStatus(p.status, status) {
      StatusIff(p.status, status);
    }
    if StatusOf(Upper(p.status)).Some? { assert NamesStatus(p.status, StatusOf(Upper(p.status)).value); }
    UpperIff(p.side, "BUY");
    UpperIff(p.side, "SELL");
    UpperIff(p.executionType, "MARKET");
    UpperIff(p.executionType, "LIMIT");
  }

  // ---------------------------------------------------------------------
  // Which orders are listed

  /** The order is one of the caller's and has everything that the parameters name; its
      creation lies strictly between the times that they give. */
  ghost predicate WantedBy(p: Params, userId: Uuid, o: Order) {
    && o.userId == userId
    && (p.status != "" ==> NamesStatus(p.status, o.status))
    && (p.side != "" ==> InCapitals(p.side, o.side))
    && (p.executionType != "" ==> InCapitals(p.executionType, o.executionType))
    && (p.assetSymbol != "" ==> o.assetSymbol == p.assetSymbol)
    && (p.createdAfter != "" ==> LaterThan(p.createdAfter, o))
    && (p.createdBefore != "" ==> EarlierThan(p.createdBefore, o))
  }

  ghost predicate LaterThan(text: string, o: Order) {
    exists t :: Rfc3339.SpellsTime(text, t) && Instant(t) < Instant(o.createdAt)
  }

  ghost predicate EarlierThan(text: string, o: Order) {
    exists t :: Rfc3339.SpellsTime(text, t) && Instant(o.createdAt) < Instant(t)
  }

  lemma OneTime(text: string, t: Time, o: Order)
    requires Rfc3339.SpellsTime(text, t)
    ensures LaterThan(text, o) <==> Instant(t) < Instant(o.createdAt)
    ensures EarlierThan(text, o) <==> Instant(o.createdAt) < Instant(t)
  {
    forall u | Rfc3339.SpellsTime(text, u) ensures u == t { SpellsOneTime(text, t, u); }
  }

  lemma SpellsOneTime(text: string, t: Time, u: Time)
    requires Rfc3339.SpellsTime(text, t) && Rfc3339.SpellsTime(text, u)
    ensures t == u
  {
    Rfc3339.ParseIff(text, t);
    Rfc3339.ParseIff(text, u);
  }

  lemma NamesOneStatus(text: string, s: Status, t: Status)
    requires NamesStatus(text, s)
    ensures NamesStatus(text, t) <==> s == t
  {
    StatusIff(text, s);
    StatusIff(text, t);
  }

  lemma OneInCapitals(s: string, t: string, u: string)
    requires InCapitals(s, t)
    ensures InCapitals(s, u) <==> t == u
  {
    UpperIff(s, t);
    UpperIff(s, u);
  }

  lemma KindSelectedIff(p: Params, f: ListFilter, o: Order)
    requires AsksForKind(p, f)
    ensures Is(f.status, o.status) <==> (p.status != "" ==> NamesStatus(p.status, o.status))
    ensures Is(f.side, o.side) <==> (p.side != "" ==> InCapitals(p.side, o.side))
    ensures Is(f.executionType, o.executionType) <==>
      (p.executionType != "" ==> InCapitals(p.executionType, o.executionType))
    ensures Is(f.assetSymbol, o.assetSymbol) <==> (p.assetSymbol != "" ==> o.assetSymbol == p.assetSymbol)
  {
    if p.status != "" { NamesOneStatus(p.status, f.status.value, o.status); }
    if p.side != "" { OneInCapitals(p.side, f.side.value, o.side); }
    if p.executionType != "" { OneInCapitals(p.executionType, f.executionType.value, o.executionType); }
  }

  lemma TimeSelectedIff(text: string, t: Option<Time>, o: Order)
    requires AsksForTime(text, t)
    ensures (t.Some? ==> Instant(o.createdAt) > Instant(t.value)) <==> (text != "" ==> LaterThan(text, o))
    ensures (t.Some? ==> Instant(o.createdAt) < Instant(t.value)) <==> (text != "" ==> EarlierThan(text, o))
  {
    if text != "" { OneTime(text, t.value, o); }
  }

  /** Usable parameters without a cursor select exactly those orders. */
  lemma SelectedIff(p: Params, userId: Uuid, f: ListFilter, o: Order)
    requires AsksFor(p, userId, f)
    ensures Selected(f, o) <==> WantedBy(p, userId, o)
  {
    KindSelectedIff(p, f, o);
    TimeSelectedIff(p.createdAfter, f.createdAfter, o);
    TimeSelectedIff(p.createdBefore, f.createdBefore, o);
  }

  /** An order is selected by a usable status parameter exactly when the parameter
      names its status, in either case. */
  lemma StatusIsNamed(p: Params, userId: Uuid, f: ListFilter, o: Order)
    requires AsksFor(p, userId, f) && p.status != ""
    ensures Is(f.status, o.status) <==> NamesStatus(p.status, o.status)
  {
    NamesOneStatus(p.status, f.status.value, o.status);
  }

  /** No request can ask for an unbounded or an empty page, and a page never holds
      more than was asked for. */
  lemma LimitIsBounded(p: Params, userId: Uuid, f: ListFilter, table: seq<Order>)
    requires AsksFor(p, userId, f) && UniqueIds(table)
    ensures 1 <= f.limit <= 100 && (p.limit == "" ==> f.limit == 20)
    ensures forall n :: Numerals.Reads(p.limit, n) ==> f.limit == if n > 100 then 100 else n
    ensures forall page :: IsPage(page, table, f) ==> |page.orders| <= f.limit
  {
    forall n | Numerals.Reads(p.limit, n) ensures f.limit == if n > 100 then 100 else n {
      Numerals.AtoiIff(p.limit, n);
      AsksForIff(p, userId, f);
      assert Numerals.Atoi("").None?;
      assert !Bad(p, LimitParam);
    }
  }
}
