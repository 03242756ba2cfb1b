/** The interleaved statements of ExecuteOrder refine one atomic operation. */
module Refinement {
  import opened Prelude
  import opened Timestamps
  import opened Orders
  import opened Database

  /** What clients of the store can see: committed rows. */
  datatype Committed = Committed(orders: map<Uuid, Order>, executions: seq<Execution>)

  datatype Outcome = Done | AlreadyResolved | NotFound

  function View(db: Db): Committed { Committed(db.orders, db.executions) }

  /** ExecuteOrder as its documentation describes it: one indivisible step. */
  function Execute(c: Committed, o: Uuid, price: real, quantity: int): (Committed, Outcome) {
    if o !in c.orders then (c, NotFound)
    else if c.orders[o].status != Pending then (c, AlreadyResolved)
    else (Committed(c.orders[o := c.orders[o].(status := Executed)],
                    c.executions + [Execution(o, price, quantity)]), Done)
  }

  /** What one statement amounts to for the outside. Begun, blocked, failed and
      rolled back work amounts to nothing. */
  datatype Op =
    | Stutter
    | Call(orderId: Uuid, price: real, quantity: int, outcome: Outcome)
    | NewOrder(order: Order)
    | Settle(orderId: Uuid, status: Status)

  ghost predicate AtomicStep(a: Committed, op: Op, b: Committed) {
    match op
    case Stutter => b == a
    case Call(o, price, quantity, outcome) => (b, outcome) == Execute(a, o, price, quantity)
    case NewOrder(o) => o.id !in a.orders && b == a.(orders := a.orders[o.id := o])
    case Settle(o, status) =>
      && IsPending(a.orders, o) && status in {Cancelled, Rejected}
      && b == a.(orders := a.orders[o := a.orders[o].(status := status)])
  }

  function OpOf(db: Db, step: Step): Op
    requires Enabled(db, step)
  {
    match step
    case Commit(t) => Call(db.txs[t].orderId, db.txs[t].price, db.txs[t].quantity, Done)
    case Exists(t) =>
      Call(db.txs[t].orderId, db.txs[t].price, db.txs[t].quantity,
           if ExistsReply(db, t) then AlreadyResolved else NotFound)
    case Create(o) => NewOrder(o)
    case Resolve(o, status) => Settle(o, status)
    case _ => Stutter
  }

  /** The EXISTS query of a call finds a PENDING order, and the call skips it. */
  predicate PendingSkip(db: Db, step: Step)
    requires Enabled(db, step)
  {
    step.Exists? && IsPending(db.orders, db.txs[step.t].orderId)
  }

  /** Every statement refines its atomic operation, but for one. */
  lemma StepRefinesIff(db: Db, step: Step)
    requires Inv(db) && Enabled(db, step)
    ensures AtomicStep(View(db), OpOf(db, step), View(Next(db, step))) <==> !PendingSkip(db, step)
  {
    if step.Commit? || step.Exists? { assert TxInv(db, step.t); }
  }

  /** An atomic operation has at most one result, and a skipped PENDING order none. */
  lemma AtomicStepIsUnique(db: Db, step: Step, m: Committed)
    requires Inv(db) && Enabled(db, step) && AtomicStep(View(db), OpOf(db, step), m)
    ensures !PendingSkip(db, step) && m == View(Next(db, step))
  {
    if !PendingSkip(db, step) { StepRefinesIff(db, step); }
  }

  ghost predicate AtomicRun(a: Committed, ops: seq<Op>, b: Committed)
    decreases |ops|
  {
    if ops == [] then a == b
    else exists m :: AtomicStep(a, ops[0], m) && AtomicRun(m, ops[1..], b)
  }

  function Ops(db: Db, steps: seq<Step>): seq<Op>
    requires ValidRun(db, steps)
    decreases |steps|
  {
    if steps == [] then [] else [OpOf(db, steps[0])] + Ops(Next(db, steps[0]), steps[1..])
  }

  lemma {:induction false} NoPendingSkipAppend(db: Db, steps: seq<Step>, step: Step)
    requires ValidRun(db, steps) && NoPendingSkip(db, steps)
    requires Enabled(Run(db, steps), step) && !PendingSkip(Run(db, steps), step)
    ensures ValidRun(db, steps + [step]) && NoPendingSkip(db, steps + [step])
    decreases |steps|
  {
    if steps == [] {
      assert [] + [step] == [step] && [step][1..] == [];
    } else {
      assert (steps + [step])[1..] == steps[1..] + [step];
      NoPendingSkipAppend(Next(db, steps[0]), steps[1..], step);
    }
  }

  /** No call of the run skips a PENDING order. */
  predicate NoPendingSkip(db: Db, steps: seq<Step>)
    requires ValidRun(db, steps)
    decreases |steps|
  {
    steps != [] ==> !PendingSkip(db, steps[0]) && NoPendingSkip(Next(db, steps[0]), steps[1..])
  }

  /** Over whole runs: any number of transactions, interleaved in any way, for stored
      and for missing orders, with rollbacks anywhere, do to the committed rows what
      atomic calls would do, each taking effect when it returns, exactly when no call
      skips a PENDING order. */
  lemma {:induction false} RunRefinesIff(db: Db, steps: seq<Step>)
    requires Inv(db) && ValidRun(db, steps)
    ensures AtomicRun(View(db), Ops(db, steps), View(Run(db, steps))) <==> NoPendingSkip(db, steps)
    decreases |steps|
  {
    if steps != [] {
      var step := steps[0];
      var next := Next(db, step);
      var ops, after := Ops(db, steps), View(Run(db, steps));
      StepKeepsInv(db, step);
      StepRefinesIff(db, step);
      RunRefinesIff(next, steps[1..]);
      assert ops[0] == OpOf(db, step) && ops[1..] == Ops(next, steps[1..]);
      if m :| AtomicStep(View(db), ops[0], m) && AtomicRun(m, ops[1..], after) {
        AtomicStepIsUnique(db, step, m);
      }
    }
  }

  /** Every open call is for an order that was already stored when it began. */
  ghost predicate CallsKnown(db: Db) {
    forall t :: t in db.txs ==> db.txs[t].orderId in db.orders && db.txs[t].pc != Missed(false)
  }

  ghost predicate BeginsKnown(db: Db, steps: seq<Step>)
    requires ValidRun(db, steps)
    decreases |steps|
  {
    steps != [] ==>
      && (steps[0].Begin? ==> steps[0].orderId in db.orders)
      && BeginsKnown(Next(db, steps[0]), steps[1..])
  }

  lemma CallsStayKnown(db: Db, step: Step)
    requires Inv(db) && CallsKnown(db) && Enabled(db, step)
    requires step.Begin? ==> step.orderId in db.orders
    ensures CallsKnown(Next(db, step)) && !PendingSkip(db, step)
  {
    StepEvolves(db, step);
    if step.Exists? { assert TxInv(db, step.t); }
  }

  /** Storing an order before anyone asks to execute it keeps every run atomic. */
  lemma {:induction false} KnownCallsNeverSkipPending(db: Db, steps: seq<Step>)
    requires Inv(db) && CallsKnown(db) && ValidRun(db, steps) && BeginsKnown(db, steps)
    ensures NoPendingSkip(db, steps)
    ensures AtomicRun(View(db), Ops(db, steps), View(Run(db, steps)))
    decreases |steps|
  {
    if steps != [] {
      CallsStayKnown(db, steps[0]);
      StepKeepsInv(db, steps[0]);
      KnownCallsNeverSkipPending(Next(db, steps[0]), steps[1..]);
    }
    RunRefinesIff(db, steps);
  }

  // ---------------------------------------------------------------------
  // When a skip, the answer (false, nil), is safe

  /** The call that transaction t began is at its EXISTS query after these steps,
      none of which begins another call under the same name, and is about to
      answer (false, nil). */
  ghost predicate Skips(db: Db, t: TxId, steps: seq<Step>) {
    && ValidRun(db, steps)
    && (forall s :: s in steps ==> !(s.Begin? && s.t == t))
    && var after := Run(db, steps);
       Enabled(after, Exists(t)) && ExistsReply(after, t)
  }

  ghost predicate KnownCall(db: Db, t: TxId, o: Uuid) {
    t in db.txs ==> db.txs[t].orderId == o && o in db.orders && db.txs[t].pc != Missed(false)
  }

  lemma {:induction false} KnownCallStays(db: Db, t: TxId, o: Uuid, steps: seq<Step>)
    requires Inv(db) && KnownCall(db, t, o) && ValidRun(db, steps)
    requires forall s :: s in steps ==> !(s.Begin? && s.t == t)
    ensures KnownCall(Run(db, steps), t, o)
    decreases |steps|
  {
    if steps != [] {
      assert steps[0] in steps;
      KnownCallStep(db, t, o, steps[0]);
      StepKeepsInv(db, steps[0]);
      KnownCallStays(Next(db, steps[0]), t, o, steps[1..]);
    }
  }

  lemma KnownCallStep(db: Db, t: TxId, o: Uuid, step: Step)
    requires Inv(db) && KnownCall(db, t, o) && Enabled(db, step) && !(step.Begin? && step.t == t)
    ensures KnownCall(Next(db, step), t, o)
  {
    StepEvolves(db, step);
  }

  lemma KnownSkipIsSafe(db: Db, t: TxId, o: Uuid, steps: seq<Step>)
    requires Inv(db) && KnownCall(db, t, o) && Skips(db, t, steps)
    ensures !IsPending(Run(db, steps).orders, o)
  {
    KnownCallStays(db, t, o, steps);
    RunKeepsInv(db, steps);
    assert TxInv(Run(db, steps), t);
  }

  /** (false, nil) means "no longer PENDING" in every run of a call exactly when
      the order was stored before the call. An order that is inserted between the
      UPDATE that matched no row and the EXISTS query is skipped while PENDING. */
  lemma SkipSafeIff(db: Db, t: TxId, o: Uuid, price: real, quantity: int)
    requires Inv(db) && t !in db.txs
    ensures
      var begun := Next(db, Begin(t, o, price, quantity));
      (forall steps :: Skips(begun, t, steps) ==> !IsPending(Run(begun, steps).orders, o))
      <==> o in db.orders
  {
    var begun := Next(db, Begin(t, o, price, quantity));
    StepKeepsInv(db, Begin(t, o, price, quantity));
    if o in db.orders {
      forall steps | Skips(begun, t, steps) ensures !IsPending(Run(begun, steps).orders, o) {
        KnownSkipIsSafe(begun, t, o, steps);
      }
    } else {
      LateInsertIsSkipped(begun, t, o);
    }
  }

  lemma CreatedAfterScan(begun: Db, t: TxId, late: Order)
    requires At(begun, t, Begun) && begun.txs[t].orderId == late.id && late.id !in begun.orders
    requires late.status == Pending && Storable(begun.orders, late)
    ensures Skips(begun, t, [Scan(t), Create(late)])
    ensures IsPending(Run(begun, [Scan(t), Create(late)]).orders, late.id)
  {
    var steps := [Scan(t), Create(late)];
    var missed := Next(begun, Scan(t));
    assert steps[1..] == [Create(late)];
    assert steps[1..][1..] == [];
    assert ValidRun(missed, [Create(late)]);
    assert ValidRun(begun, steps);
    assert Run(missed, [Create(late)]) == Next(missed, Create(late)) by {
      assert [Create(late)][1..] == [];
    }
    assert Run(begun, steps) == Next(missed, Create(late));
  }

  const LATE_REQUEST := Request("PETR4", 1, "BUY", "MARKET", None)
  const LATE: Time := Clock(2024, 1, 1, 0, 0, 0, 0, 0)

  /** The run that breaks it: the API stores an acceptable order after the UPDATE. */
  lemma LateInsertIsSkipped(begun: Db, t: TxId, o: Uuid)
    requires At(begun, t, Begun) && begun.txs[t].orderId == o && o !in begun.orders
    ensures o != NIL ==> Acceptable(LATE_REQUEST, o, 1, LATE)
    ensures var steps := [Scan(t), Create(OrderFrom(LATE_REQUEST, o, 1, LATE))];
      Skips(begun, t, steps) && IsPending(Run(begun, steps).orders, o)
  {
    MarketOrderIsAcceptable("PETR4", 1, o, 1, LATE);
    CreatedAfterScan(begun, t, OrderFrom(LATE_REQUEST, o, 1, LATE));
  }
}
