/** Orders execute at prices that a lookup returned for them. */
module Quotes {
  import opened Orders
  import opened Delivery
  import opened Protocol
  import opened ProtocolInvariant
  import P = ProtocolPreservation
  import Guarantees
  import DB = Database

  /** The price of this order's execution is one of the quotes recorded for it. */
  predicate Recorded(s: State, o: Uuid, price: real) {
    o in s.db.orders && Quote(o, s.db.orders[o].assetSymbol, price) in s.quotes
  }

  ghost predicate AllRecorded(s: State) {
    && (forall t :: t in s.db.txs ==> Recorded(s, s.db.txs[t].orderId, s.db.txs[t].price))
    && (forall e :: e in s.db.executions ==> Recorded(s, e.orderId, e.price))
  }

  lemma QuotesGrow(s: State, a: Action)
    requires Enabled(s, a)
    ensures s.quotes <= Next(s, a).quotes
  {
  }

  lemma RecordsStay(s: State, a: Action)
    requires Inv(s) && Enabled(s, a)
    ensures forall o, price :: Recorded(s, o, price) ==> Recorded(Next(s, a), o, price)
  {
    DbKeeps(s, a);
    QuotesGrow(s, a);
    StillRecorded(s, Next(s, a));
  }

  lemma StillRecorded(s: State, after: State)
    requires DB.Evolves(s.db, after.db) && s.quotes <= after.quotes
    ensures forall o, price :: Recorded(s, o, price) ==> Recorded(after, o, price)
  {
    forall o, price | Recorded(s, o, price) ensures Recorded(after, o, price) {
      SameSymbol(s.db, after.db, o);
    }
  }

  lemma SameSymbol(a: DB.Db, b: DB.Db, o: Uuid)
    requires DB.Evolves(a, b) && o in a.orders
    ensures o in b.orders && b.orders[o].assetSymbol == a.orders[o].assetSymbol
  {
    assert NewOrderCreatedEvent(b.orders[o]).assetSymbol == NewOrderCreatedEvent(a.orders[o]).assetSymbol;
  }

  /** Where a transaction and a row come from. */
  lemma TxOrigin(db: DB.Db, step: DB.Step, t: DB.TxId)
    requires DB.Enabled(db, step) && t in DB.Next(db, step).txs
    ensures var tx := DB.Next(db, step).txs[t];
      || (t in db.txs && tx.orderId == db.txs[t].orderId && tx.price == db.txs[t].price)
      || (step.Begin? && step.t == t && tx.orderId == step.orderId && tx.price == step.price)
  {
  }

  lemma RowOrigin(db: DB.Db, step: DB.Step, e: DB.Execution)
    requires DB.Enabled(db, step) && e in DB.Next(db, step).executions
    ensures e in db.executions || (step.Commit? && e == DB.Row(db.txs[step.t]))
  {
  }

  /** A transaction begins with the price that the lookup of its order brought. */
  lemma BeginsQuoted(s: State, a: Action)
    requires Inv(s) && Enabled(s, a) && DbStep(s, a).Some? && DbStep(s, a).value.Begin?
    ensures Recorded(Next(s, a), DbStep(s, a).value.orderId, DbStep(s, a).value.price)
  {
    assert ConsumerInv(s.db, s.now, a.c, s.consumers[a.c]);
    assert Contract(s.db, s.consumers[a.c].phase.m.body.event);
  }

  lemma StepRecords(s: State, a: Action)
    requires Inv(s) && Enabled(s, a) && AllRecorded(s)
    ensures AllRecorded(Next(s, a))
  {
    RecordsStay(s, a);
    DbStepIs(s, a);
    if DbStep(s, a).Some? {
      if DbStep(s, a).value.Begin? { BeginsQuoted(s, a); }
      StatementRecords(s, DbStep(s, a).value, Next(s, a));
    } else {
      NothingToRecord(s, Next(s, a));
    }
  }

  lemma NothingToRecord(s: State, after: State)
    requires AllRecorded(s) && after.db == s.db
    requires forall o, price :: Recorded(s, o, price) ==> Recorded(after, o, price)
    ensures AllRecorded(after)
  {
  }

  lemma StatementRecords(s: State, step: DB.Step, after: State)
    requires AllRecorded(s) && DB.Enabled(s.db, step) && after.db == DB.Next(s.db, step)
    requires forall o, price :: Recorded(s, o, price) ==> Recorded(after, o, price)
    requires step.Begin? ==> Recorded(after, step.orderId, step.price)
    ensures AllRecorded(after)
  {
    forall t | t in after.db.txs ensures Recorded(after, after.db.txs[t].orderId, after.db.txs[t].price) {
      TxOrigin(s.db, step, t);
    }
    forall e | e in after.db.executions ensures Recorded(after, e.orderId, e.price) {
      RowOrigin(s.db, step, e);
    }
  }

  lemma {:induction false} RunRecords(s: State, actions: seq<Action>)
    requires Inv(s) && ValidRun(s, actions) && AllRecorded(s)
    ensures AllRecorded(Run(s, actions))
    decreases |actions|
  {
    if actions != [] {
      StepRecords(s, actions[0]);
      P.StepKeepsInv(s, actions[0]);
      RunRecords(Next(s, actions[0]), actions[1..]);
    }
  }

  /** The action is a lookup that returns this quote while the order's event is handled. */
  predicate Returns(s: State, a: Action, q: Quote) {
    && Enabled(s, a) && a.Price? && a.reply == Quoted(q.price)
    && var event := s.consumers[a.c].phase.m.body.event; event.orderId == q.orderId && event.assetSymbol == q.symbol
  }

  ghost predicate ReturnedAt(s: State, actions: seq<Action>, i: nat, q: Quote)
    requires ValidRun(s, actions)
  {
    i < |actions| && ValidRun(s, actions[..i]) && Returns(Run(s, actions[..i]), actions[i], q)
  }

  /** Every recorded quote was returned by a lookup of the run. */
  lemma {:induction false} QuotesWereReturned(s: State, actions: seq<Action>, q: Quote) returns (i: nat)
    requires ValidRun(s, actions) && q in Run(s, actions).quotes && q !in s.quotes
    ensures ReturnedAt(s, actions, i, q)
    decreases |actions|
  {
    LastStep(s, actions);
    var before := actions[..|actions| - 1];
    if q in Run(s, before).quotes {
      i := QuotesWereReturned(s, before, q);
      assert before[..i] == actions[..i];
    } else {
      i := |before|;
      NewQuote(Run(s, before), actions[i], q);
    }
  }

  lemma NewQuote(s: State, a: Action, q: Quote)
    requires Enabled(s, a) && q in Next(s, a).quotes && q !in s.quotes
    ensures Returns(s, a, q)
  {
  }

  /** The row of an executed order has the order's quantity and a price that, earlier in
      the run, a lookup returned for its symbol while its event was handled. */
  lemma ExecutedAtReturnedPrice(n: nat, actions: seq<Action>, o: Uuid) returns (e: DB.Execution, i: nat)
    requires ValidRun(Init(n), actions) && DB.IsExecuted(Run(Init(n), actions).db.orders, o)
    ensures var s := Run(Init(n), actions);
      && e in s.db.executions && e.orderId == o && e.quantity == s.db.orders[o].quantity
      && ReturnedAt(Init(n), actions, i, Quote(o, s.db.orders[o].assetSymbol, e.price))
  {
    var s := Run(Init(n), actions);
    assert Guarantees.Reachable(s);
    e := Guarantees.ExecutionIsFaithful(s, o);
    InitInv(n);
    RunRecords(Init(n), actions);
    assert Recorded(s, e.orderId, e.price);
    i := QuotesWereReturned(Init(n), actions, Quote(o, s.db.orders[o].assetSymbol, e.price));
  }
}
