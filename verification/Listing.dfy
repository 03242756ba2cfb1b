/** PostgresOrderStore.List of internal/order/store.go: compiling optional filters to
    numbered placeholders, and one page of the keyset. */
module Listing {
  import opened Prelude
  import opened Timestamps
  import opened Orders
  import opened Pagination

  const DEFAULT_LIMIT := 20

  datatype ListFilter = ListFilter(
    userId: Uuid, cursor: Option<Cursor>, limit: int, status: Option<Status>, side: Option<Side>,
    executionType: Option<ExecutionType>, assetSymbol: Option<string>,
    createdAfter: Option<Time>, createdBefore: Option<Time>)

  /** A key lies before the position in (created_at, id). */
  predicate Precedes(createdAt: Time, id: Uuid, c: Cursor) {
    || Instant(createdAt) < Instant(c.createdAt)
    || (Instant(createdAt) == Instant(c.createdAt) && id < c.id)
  }

  predicate KeyBefore(o: Order, c: Cursor) { Precedes(o.createdAt, o.id, c) }

  predicate Is<T(==)>(wanted: Option<T>, x: T) { wanted.Some? ==> wanted.value == x }

  /** What the caller asks for, whatever the page. */
  predicate Selected(f: ListFilter, o: Order) {
    && o.userId == f.userId
    && Is(f.status, o.status) && Is(f.side, o.side) && Is(f.executionType, o.executionType)
    && Is(f.assetSymbol, o.assetSymbol)
    && (f.createdAfter.Some? ==> Instant(o.createdAt) > Instant(f.createdAfter.value))
    && (f.createdBefore.Some? ==> Instant(o.createdAt) < Instant(f.createdBefore.value))
  }

  /** What the page after the cursor may show. */
  predicate Matches(f: ListFilter, o: Order) {
    Selected(f, o) && (f.cursor.Some? ==> KeyBefore(o, f.cursor.value))
  }

  // ---------------------------------------------------------------------
  // Queries

  datatype Column = UserIdColumn | StatusColumn | SideColumn | ExecutionTypeColumn | AssetSymbolColumn

  datatype Argument =
    | UuidValue(id: Uuid) | TimeValue(time: Time) | StatusValue(status: Status) | Text(text: string)
    | Number(n: int)

  /** A condition of the WHERE clause; p and q are placeholder numbers, from 1. */
  datatype Condition =
    | Equals(column: Column, p: nat)
    | KeyBelow(p: nat, q: nat)       // (created_at, id) < ($p, $q)
    | CreatedAbove(p: nat)
    | CreatedBelow(p: nat)

  /** SELECT ... WHERE all conditions ORDER BY created_at DESC, id DESC LIMIT $limit. */
  datatype Query = Query(conditions: seq<Condition>, limit: nat)

  function Value(o: Order, column: Column): Argument {
    match column
    case UserIdColumn => UuidValue(o.userId)
    case StatusColumn => StatusValue(o.status)
    case SideColumn => Text(o.side)
    case ExecutionTypeColumn => Text(o.executionType)
    case AssetSymbolColumn => Text(o.assetSymbol)
  }

  predicate Bound(args: seq<Argument>, p: nat) { 1 <= p <= |args| }

  /** The database's evaluation of a condition for a row. */
  predicate Holds(c: Condition, args: seq<Argument>, o: Order) {
    match c
    case Equals(column, p) => Bound(args, p) && args[p - 1] == Value(o, column)
    case KeyBelow(p, q) =>
      && Bound(args, p) && Bound(args, q) && args[p - 1].TimeValue? && args[q - 1].UuidValue?
      && KeyBefore(o, Cursor(args[p - 1].time, args[q - 1].id))
    case CreatedAbove(p) =>
      Bound(args, p) && args[p - 1].TimeValue? && Instant(o.createdAt) > Instant(args[p - 1].time)
    case CreatedBelow(p) =>
      Bound(args, p) && args[p - 1].TimeValue? && Instant(o.createdAt) < Instant(args[p - 1].time)
  }

  predicate AllHold(conditions: seq<Condition>, args: seq<Argument>, o: Order) {
    forall i :: 0 <= i < |conditions| ==> Holds(conditions[i], args, o)
  }

  function Placeholders(c: Condition): seq<nat> {
    match c
    case KeyBelow(p, q) => [p, q]
    case _ => [c.p]
  }

  /** The placeholders of a query text, from left to right. */
  function AllPlaceholders(conditions: seq<Condition>): seq<nat> {
    if conditions == [] then []
    else AllPlaceholders(conditions[..|conditions| - 1]) + Placeholders(conditions[|conditions| - 1])
  }

  function UpTo(n: nat): seq<nat> { seq(n, i => i + 1) }

  /** A condition keeps its meaning when more arguments are appended. */
  lemma MoreArguments(c: Condition, args: seq<Argument>, more: seq<Argument>, o: Order)
    requires forall p :: p in Placeholders(c) ==> Bound(args, p)
    ensures Holds(c, args + more, o) <==> Holds(c, args, o)
  {
    match c
    case KeyBelow(p, q) => assert p in Placeholders(c) && q in Placeholders(c);
    case _ => assert c.p in Placeholders(c);
  }

  /** The conditions say what the filter says, and use every argument once, in order. */
  ghost predicate Compiled(conditions: seq<Condition>, args: seq<Argument>, f: ListFilter) {
    && AllPlaceholders(conditions) == UpTo(|args|)
    && forall o :: AllHold(conditions, args, o) <==> Matches(f, o)
  }

  lemma {:induction false} PlaceholdersInRange(conditions: seq<Condition>, i: nat, p: nat)
    requires i < |conditions| && p in Placeholders(conditions[i])
    ensures p in AllPlaceholders(conditions)
  {
    if i < |conditions| - 1 { PlaceholdersInRange(conditions[..|conditions| - 1], i, p); }
  }

  /** One more filter: its arguments and its condition go to the end. */
  lemma OneMore(conditions: seq<Condition>, args: seq<Argument>, f: ListFilter,
                c: Condition, more: seq<Argument>, g: ListFilter)
    requires Compiled(conditions, args, f)
    requires Placeholders(c) == seq(|more|, i => |args| + i + 1)
    requires forall o :: Matches(g, o) <==> Matches(f, o) && Holds(c, args + more, o)
    ensures Compiled(conditions + [c], args + more, g)
  {
    var all := conditions + [c];
    assert all[..|conditions|] == conditions;
    assert UpTo(|args + more|) == UpTo(|args|) + seq(|more|, i => |args| + i + 1);
    forall o ensures AllHold(all, args + more, o) <==> Matches(g, o) {
      forall i | 0 <= i < |conditions| ensures Holds(all[i], args + more, o) <==> Holds(conditions[i], args, o) {
        forall p | p in Placeholders(conditions[i]) ensures Bound(args, p) {
          PlaceholdersInRange(conditions, i, p);
        }
        MoreArguments(conditions[i], args, more, o);
      }
      assert all[|conditions|] == c;
      if AllHold(all, args + more, o) {
        assert AllHold(conditions, args, o) by {
          forall i | 0 <= i < |conditions| ensures Holds(conditions[i], args, o) {
            assert Holds(all[i], args + more, o);
          }
        }
        assert Holds(all[|conditions|], args + more, o);
      }
    }
  }

  lemma WithCursor(conditions: seq<Condition>, args: seq<Argument>, f: ListFilter, c: Cursor)
    requires Compiled(conditions, args, f) && f.cursor.None?
    ensures var longer := args + [TimeValue(c.createdAt), UuidValue(c.id)];
      Compiled(conditions + [KeyBelow(|longer| - 1, |longer|)], longer, f.(cursor := Some(c)))
  {
    OneMore(conditions, args, f, KeyBelow(|args| + 1, |args| + 2), [TimeValue(c.createdAt), UuidValue(c.id)],
            f.(cursor := Some(c)));
  }

  lemma WithStatus(conditions: seq<Condition>, args: seq<Argument>, f: ListFilter, v: Status)
    requires Compiled(conditions, args, f) && f.status.None?
    ensures var longer := args + [StatusValue(v)];
      Compiled(conditions + [Equals(StatusColumn, |longer|)], longer, f.(status := Some(v)))
  {
    OneMore(conditions, args, f, Equals(StatusColumn, |args| + 1), [StatusValue(v)], f.(status := Some(v)));
  }

  lemma WithSide(conditions: seq<Condition>, args: seq<Argument>, f: ListFilter, v: Side)
    requires Compiled(conditions, args, f) && f.side.None?
    ensures var longer := args + [Text(v)];
      Compiled(conditions + [Equals(SideColumn, |longer|)], longer, f.(side := Some(v)))
  {
    OneMore(conditions, args, f, Equals(SideColumn, |args| + 1), [Text(v)], f.(side := Some(v)));
  }

  lemma WithExecutionType(conditions: seq<Condition>, args: seq<Argument>, f: ListFilter, v: ExecutionType)
    requires Compiled(conditions, args, f) && f.executionType.None?
    ensures var longer := args + [Text(v)];
      Compiled(conditions + [Equals(ExecutionTypeColumn, |longer|)], longer, f.(executionType := Some(v)))
  {
    OneMore(conditions, args, f, Equals(ExecutionTypeColumn, |args| + 1), [Text(v)], f.(executionType := Some(v)));
  }

  lemma WithAssetSymbol(conditions: seq<Condition>, args: seq<Argument>, f: ListFilter, v: string)
    requires Compiled(conditions, args, f) && f.assetSymbol.None?
    ensures var longer := args + [Text(v)];
      Compiled(conditions + [Equals(AssetSymbolColumn, |longer|)], longer, f.(assetSymbol := Some(v)))
  {
    OneMore(conditions, args, f, Equals(AssetSymbolColumn, |args| + 1), [Text(v)], f.(assetSymbol := Some(v)));
  }

  lemma WithCreatedAfter(conditions: seq<Condition>, args: seq<Argument>, f: ListFilter, v: Time)
    requires Compiled(conditions, args, f) && f.createdAfter.None?
    ensures var longer := args + [TimeValue(v)];
      Compiled(conditions + [CreatedAbove(|longer|)], longer, f.(createdAfter := Some(v)))
  {
    OneMore(conditions, args, f, CreatedAbove(|args| + 1), [TimeValue(v)], f.(createdAfter := Some(v)));
  }

  lemma WithCreatedBefore(conditions: seq<Condition>, args: seq<Argument>, f: ListFilter, v: Time)
    requires Compiled(conditions, args, f) && f.createdBefore.None?
    ensures var longer := args + [TimeValue(v)];
      Compiled(conditions + [CreatedBelow(|longer|)], longer, f.(createdBefore := Some(v)))
  {
    OneMore(conditions, args, f, CreatedBelow(|args| + 1), [TimeValue(v)], f.(createdBefore := Some(v)));
  }

  /** The filter without the parts that the second half of List compiles. */
  function FirstHalf(f: ListFilter): ListFilter {
    f.(assetSymbol := None, createdAfter := None, createdBefore := None)
  }

  method CompileFirstHalf(f: ListFilter) returns (conditions: seq<Condition>, args: seq<Argument>)
    ensures Compiled(conditions, args, FirstHalf(f))
  {
    conditions := [Equals(UserIdColumn, 1)];
    args := [UuidValue(f.userId)];
    ghost var done := ListFilter(f.userId, None, f.limit, None, None, None, None, None, None);
    OnlyUser(f);
    assert Compiled(conditions, args, done);
    if f.cursor.Some? {
      WithCursor(conditions, args, done, f.cursor.value);
      args := args + [TimeValue(f.cursor.value.createdAt), UuidValue(f.cursor.value.id)];
      conditions := conditions + [KeyBelow(|args| - 1, |args|)];
    }
    done := done.(cursor := f.cursor);
    assert Compiled(conditions, args, done);
    if f.status.Some? {
      WithStatus(conditions, args, done, f.status.value);
      args := args + [StatusValue(f.status.value)];
      conditions := conditions + [Equals(StatusColumn, |args|)];
    }
    done := done.(status := f.status);
    assert Compiled(conditions, args, done);
    if f.side.Some? {
      WithSide(conditions, args, done, f.side.value);
      args := args + [Text(f.side.value)];
      conditions := conditions + [Equals(SideColumn, |args|)];
    }
    done := done.(side := f.side);
    assert Compiled(conditions, args, done);
    if f.executionType.Some? {
      WithExecutionType(conditions, args, done, f.executionType.value);
      args := args + [Text(f.executionType.value)];
      conditions := conditions + [Equals(ExecutionTypeColumn, |args|)];
    }
    done := done.(executionType := f.executionType);
    assert Compiled(conditions, args, done);
  }

  method CompileSecondHalf(f: ListFilter, before: seq<Condition>, argsBefore: seq<Argument>)
    returns (conditions: seq<Condition>, args: seq<Argument>)
    requires Compiled(before, argsBefore, FirstHalf(f))
    ensures Compiled(conditions, args, f)
  {
    conditions, args := before, argsBefore;
    ghost var done := FirstHalf(f);
    if f.assetSymbol.Some? {
      WithAssetSymbol(conditions, args, done, f.assetSymbol.value);
      args := args + [Text(f.assetSymbol.value)];
      conditions := conditions + [Equals(AssetSymbolColumn, |args|)];
    }
    done := done.(assetSymbol := f.assetSymbol);
    assert Compiled(conditions, args, done);
    if f.createdAfter.Some? {
      WithCreatedAfter(conditions, args, done, f.createdAfter.value);
      args := args + [TimeValue(f.createdAfter.value)];
      conditions := conditions + [CreatedAbove(|args|)];
    }
    done := done.(createdAfter := f.createdAfter);
    assert Compiled(conditions, args, done);
    if f.createdBefore.Some? {
      WithCreatedBefore(conditions, args, done, f.createdBefore.value);
      args := args + [TimeValue(f.createdBefore.value)];
      conditions := conditions + [CreatedBelow(|args|)];
    }
    done := done.(createdBefore := f.createdBefore);
    assert Compiled(conditions, args, done);
  }

  lemma OnlyUser(f: ListFilter)
    ensures Compiled([Equals(UserIdColumn, 1)], [UuidValue(f.userId)],
                     ListFilter(f.userId, None, f.limit, None, None, None, None, None, None))
  {
    var conditions := [Equals(UserIdColumn, 1)];
    assert conditions[..0] == [];
    assert AllPlaceholders(conditions) == [1] == UpTo(1);
  }

  /** The first part of List: the query and its arguments. */
  method BuildQuery(f: ListFilter) returns (query: Query, args: seq<Argument>)
    ensures |args| > 0 && Compiled(query.conditions, args[..|args| - 1], f)
    ensures query.limit == |args| && args[|args| - 1] == Number(Limit(f) + 1)
    ensures forall o :: AllHold(query.conditions, args, o) <==> Matches(f, o)
  {
    var limit := if f.limit <= 0 then DEFAULT_LIMIT else f.limit;
    var conditions;
    conditions, args := CompileFirstHalf(f);
    conditions, args := CompileSecondHalf(f, conditions, args);
    var last := Number(limit + 1);
    CompiledStays(conditions, args, f, last);
    args := args + [last];
    query := Query(conditions, |args|);
  }

  lemma CompiledStays(conditions: seq<Condition>, args: seq<Argument>, f: ListFilter, last: Argument)
    requires Compiled(conditions, args, f)
    ensures var all := args + [last];
      && all[|all| - 1] == last && Compiled(conditions, all[..|all| - 1], f)
      && forall o :: AllHold(conditions, all, o) <==> Matches(f, o)
  {
    assert (args + [last])[..|args|] == args;
    forall o ensures AllHold(conditions, args + [last], o) <==> AllHold(conditions, args, o) {
      forall i | 0 <= i < |conditions| ensures Holds(conditions[i], args + [last], o) <==> Holds(conditions[i], args, o) {
        forall p | p in Placeholders(conditions[i]) ensures Bound(args, p) {
          PlaceholdersInRange(conditions, i, p);
        }
        MoreArguments(conditions[i], args, [last], o);
      }
    }
  }

  /** The page size that List applies. */
  function Limit(f: ListFilter): (n: nat)
    ensures n >= 1
  {
    if f.limit <= 0 then DEFAULT_LIMIT else f.limit
  }
}
