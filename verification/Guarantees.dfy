/** What holds in every state that any run of the protocol reaches. */
module Guarantees {
  import opened Prelude
  import opened Orders
  import opened Delivery
  import opened Protocol
  import opened ProtocolInvariant
  import P = ProtocolPreservation
  import Failure
  import DB = Database

  ghost predicate Reachable(s: State) {
    exists n, actions :: ValidRun(Init(n), actions) && s == Run(Init(n), actions)
  }

  lemma ReachableInv(s: State)
    requires Reachable(s)
    ensures Inv(s)
  {
    var n, actions :| ValidRun(Init(n), actions) && s == Run(Init(n), actions);
    InitInv(n);
    P.RunKeepsInv(Init(n), actions);
  }

  // ---------------------------------------------------------------------
  // Exactly-once effect

  /** One executions row per EXECUTED order and none for any other, with no help
      from the schema. */
  lemma ExactlyOnceEffect(s: State, o: Uuid)
    requires Reachable(s)
    ensures DB.Count(s.db.executions, o) == if DB.IsExecuted(s.db.orders, o) then 1 else 0
  {
    ReachableInv(s);
  }

  // ---------------------------------------------------------------------
  // Conservation and fidelity

  function Quantity(e: DB.Execution): int { e.quantity }

  function ExecutedShare(o: Order): int { if o.status == Executed then o.quantity else 0 }

  /** The quantity of all EXECUTED orders together. */
  ghost function ExecutedQuantity(orders: map<Uuid, Order>): int {
    if orders == map[] then 0
    else
      var o :| o in orders;
      ExecutedShare(orders[o]) + ExecutedQuantity(orders - {o})
  }

  lemma {:induction false} ExecutedQuantityPick(orders: map<Uuid, Order>, o: Uuid)
    requires o in orders
    ensures ExecutedQuantity(orders) == ExecutedShare(orders[o]) + ExecutedQuantity(orders - {o})
  {
    var p :| p in orders && ExecutedQuantity(orders) == ExecutedShare(orders[p]) + ExecutedQuantity(orders - {p});
    if p != o {
      ExecutedQuantityPick(orders - {p}, o);
      ExecutedQuantityPick(orders - {o}, p);
      assert orders - {p} - {o} == orders - {o} - {p};
    }
  }

  lemma {:induction false} NothingExecuted(orders: map<Uuid, Order>)
    requires forall o :: o in orders ==> orders[o].status != Executed
    ensures ExecutedQuantity(orders) == 0
  {
    if orders != map[] {
      var o :| o in orders && ExecutedQuantity(orders) == ExecutedShare(orders[o]) + ExecutedQuantity(orders - {o});
      assert ExecutedShare(orders[o]) == 0;
      assert forall p :: p in orders - {o} ==> p in orders && (orders - {o})[p] == orders[p];
      NothingExecuted(orders - {o});
    }
  }

  lemma {:induction false} QuantitiesAgree(orders: map<Uuid, Order>, executions: seq<DB.Execution>)
    requires DB.ExactlyOnce(orders, executions)
    requires forall e :: e in executions && e.orderId in orders ==> e.quantity == orders[e.orderId].quantity
    ensures Sum(Quantity, executions) == ExecutedQuantity(orders)
  {
    if executions == [] {
      assert forall o: Uuid :: DB.Count(executions, o) == 0;
      assert forall o :: o in orders ==> !DB.IsExecuted(orders, o);
      NothingExecuted(orders);
    } else {
      var rest := executions[..|executions| - 1];
      var last := executions[|executions| - 1];
      assert executions == rest + [last];
      forall o: Uuid ensures DB.Count(rest, o) == if DB.IsExecuted(orders - {last.orderId}, o) then 1 else 0 {
        DB.CountAppend(rest, last, o);
        assert DB.Count(executions, o) == if DB.IsExecuted(orders, o) then 1 else 0;
      }
      DB.CountAppend(rest, last, last.orderId);
      assert DB.IsExecuted(orders, last.orderId);
      ExecutedQuantityPick(orders, last.orderId);
      QuantitiesAgree(orders - {last.orderId}, rest);
    }
  }

  /** Nothing is executed twice or lost in the totals. */
  lemma QuantityIsConserved(s: State)
    requires Reachable(s)
    ensures Sum(Quantity, s.db.executions) == ExecutedQuantity(s.db.orders)
  {
    ReachableInv(s);
    QuantitiesAgree(s.db.orders, s.db.executions);
  }

  lemma {:induction false} CountedRowExists(executions: seq<DB.Execution>, o: Uuid) returns (e: DB.Execution)
    requires DB.Count(executions, o) > 0
    ensures e in executions && e.orderId == o
  {
    var last := executions[|executions| - 1];
    if last.orderId == o { e := last; } else { e := CountedRowExists(executions[..|executions| - 1], o); }
  }

  /** The row of an executed order has the order's quantity and a price that was
      quoted for its symbol; an order whose symbol has no price never executes. */
  lemma ExecutionIsFaithful(s: State, o: Uuid) returns (e: DB.Execution)
    requires Reachable(s) && DB.IsExecuted(s.db.orders, o)
    ensures e in s.db.executions && e.orderId == o
    ensures e.quantity == s.db.orders[o].quantity
    ensures CanQuote(s.db.orders[o].assetSymbol, e.price)
    ensures s.db.orders[o].assetSymbol in BASE_PRICES
    ensures match s.db.orders[o].assetSymbol
      case "PETR4" => 38.0358 <= e.price <= 38.8042
      case "VALE3" => 60.5385 <= e.price <= 61.7615
      case "ITUB4" => 32.571 <= e.price <= 33.229
      case _ => false
  {
    ReachableInv(s);
    assert DB.Count(s.db.executions, o) == 1;
    e := CountedRowExists(s.db.executions, o);
  }

  // ---------------------------------------------------------------------
  // Skips and acknowledgements

  /** The EXISTS query of an API event never misses the order, and the order it
      skips is not PENDING, then or in any continuation of the run. */
  lemma SkipIsSafe(s: State, c: Id, actions: seq<Action>)
    requires Reachable(s) && Enabled(s, ExistsReply(c)) && ValidRun(s, actions)
    ensures s.consumers[c].phase.m.body.Encoded?
    ensures DB.ExistsReply(s.db, c)
    ensures !DB.IsPending(s.db.orders, s.consumers[c].phase.m.body.event.orderId)
    ensures !DB.IsPending(Run(s, actions).db.orders, s.consumers[c].phase.m.body.event.orderId)
  {
    ReachableInv(s);
    P.OutcomeSettles(s, ExistsReply(c), c);
    assert ConsumerInv(s.db, s.now, c, s.consumers[c]);
    assert Contract(s.db, s.consumers[c].phase.m.body.event);
    assert DB.TxInv(s.db, c);
    P.RunKeepsInv(s, actions);
  }

  /** A delivery that is acked without a retry copy leaves nothing behind: its
      order is settled for good. */
  lemma PlainAckIsSafe(s: State, c: Id, actions: seq<Action>)
    requires Reachable(s) && IsUp(s, c) && s.consumers[c].phase.Succeeded? && ValidRun(s, actions)
    ensures s.consumers[c].phase.m.body.Encoded?
    ensures s.consumers[c].phase.m.body.event.orderId in Run(s, actions).db.orders
    ensures !DB.IsPending(Run(s, actions).db.orders, s.consumers[c].phase.m.body.event.orderId)
  {
    ReachableInv(s);
    assert ConsumerInv(s.db, s.now, c, s.consumers[c]);
    assert Contract(s.db, s.consumers[c].phase.m.body.event);
    P.RunKeepsInv(s, actions);
  }

  // ---------------------------------------------------------------------
  // The event contract

  /** A message is somewhere: queued, delivered, being handled or on its way. */
  ghost predicate InSystem(s: State, m: Message) {
    || m in s.work
    || (exists d :: d in s.retry && d.message == m)
    || (exists d :: d in s.dlq && d.message == m)
    || (exists c :: 0 <= c < |s.consumers| && s.consumers[c].Up? && HeldBy(s.consumers[c], m))
  }

  ghost predicate HeldBy(k: Consumer, m: Message)
    requires k.Up?
  {
    k.unacked == Some(m) || k.inbox == Some(m) || (!Resting(k.phase) && k.phase.m == m) || Publish(m) in k.sent
  }

  /** Every event in the system names a stored order, agrees with it in every field
      and is valid; every copy carries a retry count of 0, 1 or 2. */
  lemma MessagesAreSound(s: State, m: Message)
    requires Reachable(s) && InSystem(s, m)
    ensures m.body.Encoded? && Contract(s.db, m.body.event) && ValidEvent(m.body.event)
    ensures m.body.event.orderId in s.db.orders
    ensures var o := s.db.orders[m.body.event.orderId];
      m.body.event
        == Event(o.id, o.userId, o.assetSymbol, o.quantity, o.side, o.executionType, o.limitPrice, o.createdAt)
    ensures 0 <= RetryAttempt(m.headers) <= 2
  {
    ReachableInv(s);
    assert MessageOk(s.db, m) by {
      if m in s.work {
        assert Ready(s.db, s.now, m);
      } else if d :| d in s.retry && d.message == m {
        assert DelayedOk(s.db, s.now, d);
      } else if d :| d in s.dlq && d.message == m {
        assert DeadOk(s.db, s.now, d);
      } else {
        var c :| 0 <= c < |s.consumers| && s.consumers[c].Up? && HeldBy(s.consumers[c], m);
        HeldIsOk(s.db, s.now, c, s.consumers[c], m);
      }
    }
    ValidIff(m.body.event);
  }

  lemma HeldIsOk(db: DB.Db, now: nat, c: Id, k: Consumer, m: Message)
    requires ConsumerInv(db, now, c, k) && k.Up? && HeldBy(k, m)
    ensures MessageOk(db, m)
  {
  }

  /** Events not yet published keep the contract too, so a handler never finds an
      invalid event or a missing order. */
  lemma NoFailureBlamesTheMessage(s: State, c: Id)
    requires Reachable(s) && IsUp(s, c)
    ensures forall e :: e in s.api ==> Contract(s.db, e)
    ensures s.consumers[c].phase.Failed? ==>
      !Failure.Is(s.consumers[c].phase.cause, Failure.InvalidEvent) &&
      !Failure.Is(s.consumers[c].phase.cause, Failure.OrderNotFound)
  {
    ReachableInv(s);
    assert ConsumerInv(s.db, s.now, c, s.consumers[c]);
  }

  // ---------------------------------------------------------------------
  // Dead letters

  /** A dead-lettered copy just failed its third counted attempt, or its order names
      a symbol that the price service does not know. */
  lemma DeadLetterProvenance(s: State, d: DeadLetter)
    requires Reachable(s) && d in s.dlq
    ensures d.message.body.Encoded?
    ensures RetryAttempt(d.message.headers) == 2
      || (Failure.Classify(d.cause) == Failure.Permanent && d.message.body.event.assetSymbol !in BASE_PRICES)
  {
    ReachableInv(s);
    assert DeadOk(s.db, s.now, d);
  }

  /** The dead letter of an executed order never failed for good. */
  lemma ExecutedDeadLetterWasTransient(s: State, d: DeadLetter)
    requires Reachable(s) && d in s.dlq
    ensures d.message.body.Encoded?
    ensures DB.IsExecuted(s.db.orders, d.message.body.event.orderId) ==>
      Failure.Classify(d.cause) == Failure.Transient && RetryAttempt(d.message.headers) == 2
  {
    ReachableInv(s);
    assert DeadOk(s.db, s.now, d);
    if DB.IsExecuted(s.db.orders, d.message.body.event.orderId) {
      var e := ExecutionIsFaithful(s, d.message.body.event.orderId);
    }
  }

  /** The first and the third counted failure lie two full delays apart. */
  lemma ExhaustionTakesTime(s: State, d: DeadLetter)
    requires Reachable(s) && d in s.dlq
    requires RetryAttempt(d.message.headers) == 2
    ensures |d.message.failures| == 2
    ensures d.message.failures[0] + 5000 <= d.message.failures[1]
    ensures d.message.failures[1] + 5000 <= d.failedAt
  {
    ReachableInv(s);
    assert DeadOk(s.db, s.now, d);
    var f := d.message.failures;
    assert f[0] + RETRY_DELAY_MS <= f[1];
  }

  // ---------------------------------------------------------------------
  // The retry queue

  predicate Due(d: Delayed, now: nat) { d.since + RETRY_DELAY_MS <= now }

  /** How many messages expiry at the head can release now. */
  function Releasable(retry: seq<Delayed>, now: nat): nat {
    if retry != [] && Due(retry[0], now) then 1 + Releasable(retry[1..], now) else 0
  }

  lemma {:induction false} ReleasableSplits(retry: seq<Delayed>, now: nat)
    requires Sorted(retry)
    ensures Releasable(retry, now) <= |retry|
    ensures forall i :: 0 <= i < |retry| ==> (Due(retry[i], now) <==> i < Releasable(retry, now))
  {
    if retry != [] && Due(retry[0], now) {
      var rest := retry[1..];
      assert forall i :: 0 <= i < |rest| ==> rest[i] == retry[i + 1];
      ReleasableSplits(rest, now);
      forall i | 0 <= i < |retry| ensures Due(retry[i], now) <==> i < Releasable(retry, now) {
        if i > 0 { assert retry[i] == rest[i - 1]; }
      }
    }
  }

  function Expiries(n: nat): seq<Action> { seq(n, _ => Expire) }

  function Messages(delayed: seq<Delayed>): seq<Message> {
    seq(|delayed|, i requires 0 <= i < |delayed| => delayed[i].message)
  }

  lemma {:induction false} ExpiriesRelease(s: State, n: nat)
    requires n <= |s.retry| && forall i :: 0 <= i < n ==> Due(s.retry[i], s.now)
    ensures ValidRun(s, Expiries(n))
    ensures Run(s, Expiries(n)) == s.(retry := s.retry[n..], work := s.work + Messages(s.retry[..n]))
    decreases n
  {
    if n == 0 {
      assert s.work + Messages(s.retry[..0]) == s.work;
    } else {
      assert Expiries(n)[0] == Expire && Expiries(n)[1..] == Expiries(n - 1);
      assert Due(s.retry[0], s.now);
      var next := Next(s, Expire);
      assert next == s.(retry := s.retry[1..], work := s.work + [s.retry[0].message]);
      ExpiriesRelease(next, n - 1);
      assert s.retry[1..][n - 1..] == s.retry[n..];
      assert next.work + Messages(s.retry[1..][..n - 1]) == s.work + Messages(s.retry[..n]);
    }
  }

  /** Expiring at the head only, as RabbitMQ does, releases exactly the messages
      whose own delay has passed, in the order of their arrival. */
  lemma HeadExpiryIsExact(s: State)
    requires Sorted(s.retry)
    ensures var n := Releasable(s.retry, s.now);
      && n <= |s.retry| && ValidRun(s, Expiries(n))
      && (forall i :: 0 <= i < |s.retry| ==> (s.retry[i].since + 5000 <= s.now <==> i < n))
      && Run(s, Expiries(n)) == s.(retry := s.retry[n..], work := s.work + Messages(s.retry[..n]))
      && !Enabled(Run(s, Expiries(n)), Expire)
  {
    var n := Releasable(s.retry, s.now);
    ReleasableSplits(s.retry, s.now);
    ExpiriesRelease(s, n);
    NothingLeftToRelease(s, n);
  }

  lemma NothingLeftToRelease(s: State, n: nat)
    requires n <= |s.retry| && forall i :: n <= i < |s.retry| ==> !Due(s.retry[i], s.now)
    ensures !Enabled(s.(retry := s.retry[n..], work := s.work + Messages(s.retry[..n])), Expire)
  {
  }

  /** In reachable states the queue is in that order. */
  lemma RetryQueueIsFifo(s: State)
    requires Reachable(s)
    ensures Sorted(s.retry) && forall d :: d in s.retry ==> d.since <= s.now
  {
    ReachableInv(s);
    assert forall d :: d in s.retry ==> DelayedOk(s.db, s.now, d);
  }
}
