/** ExecuteOrder of internal/order/store.go, statement by statement, for any
    number of concurrent transactions under PostgreSQL's READ COMMITTED level. */
module Database {
  import opened Orders

  type TxId = nat

  /** A row of the executions table. The schema has no uniqueness on orderId. */
  datatype Execution = Execution(orderId: Uuid, price: real, quantity: int)

  /** How far a transaction has got. Missed(found) remembers, for the proofs only,
      whether the order was there when the UPDATE matched no row. */
  datatype Pc = Begun | Waiting | Updated | Inserted | Missed(found: bool)

  datatype Tx = Tx(orderId: Uuid, price: real, quantity: int, pc: Pc)

  /** orders and executions hold committed rows only; locks says which open
      transaction holds the row lock of an order. */
  datatype Db = Db(
    orders: map<Uuid, Order>, executions: seq<Execution>,
    locks: map<Uuid, TxId>, txs: map<TxId, Tx>)

  datatype Step =
    | Begin(t: TxId, orderId: Uuid, price: real, quantity: int)
    | Scan(t: TxId)         // the UPDATE evaluates its WHERE clause on the statement's snapshot
    | Lock(t: TxId)         // the UPDATE gets the row lock and evaluates the WHERE clause again
    | Insert(t: TxId)       // the INSERT into executions, not visible before COMMIT
    | Commit(t: TxId)       // COMMIT takes effect
    | Exists(t: TxId)       // the EXISTS query after an UPDATE of no row; the transaction ends
    | Rollback(t: TxId)
    | Create(order: Order)  // the API's INSERT of a new order
    | Resolve(orderId: Uuid, status: Status)  // an order is cancelled or rejected elsewhere

  predicate IsPending(orders: map<Uuid, Order>, o: Uuid) {
    o in orders && orders[o].status == Pending
  }

  predicate HoldsLock(tx: Tx) { tx.pc == Updated || tx.pc == Inserted }

  predicate At(db: Db, t: TxId, pc: Pc) { t in db.txs && db.txs[t].pc == pc }

  /** A step can happen. A waiting UPDATE is blocked while another transaction
      holds the row lock, and so is a change of status from elsewhere. */
  predicate Enabled(db: Db, step: Step) {
    match step
    case Begin(t, _, _, _) => t !in db.txs
    case Scan(t) => At(db, t, Begun)
    case Lock(t) => At(db, t, Waiting) && db.txs[t].orderId !in db.locks
    case Insert(t) => At(db, t, Updated)
    case Commit(t) => At(db, t, Inserted)
    case Exists(t) => t in db.txs && db.txs[t].pc.Missed?
    case Rollback(t) => t in db.txs
    case Create(o) => Storable(db.orders, o) && o.status == Pending
    case Resolve(o, status) =>
      IsPending(db.orders, o) && o !in db.locks && (status == Cancelled || status == Rejected)
  }

  function SetStatus(orders: map<Uuid, Order>, o: Uuid, status: Status): map<Uuid, Order> {
    if o in orders then orders[o := orders[o].(status := status)] else orders
  }

  function SetPc(db: Db, t: TxId, pc: Pc): Db
    requires t in db.txs
  {
    db.(txs := db.txs[t := db.txs[t].(pc := pc)])
  }

  /** Ends a transaction and releases its row lock. */
  function Close(db: Db, t: TxId): Db
    requires t in db.txs
  {
    db.(txs := db.txs - {t},
        locks := if HoldsLock(db.txs[t]) then db.locks - {db.txs[t].orderId} else db.locks)
  }

  function Row(tx: Tx): Execution { Execution(tx.orderId, tx.price, tx.quantity) }

  function Next(db: Db, step: Step): Db
    requires Enabled(db, step)
  {
    match step
    case Begin(t, o, price, quantity) => db.(txs := db.txs[t := Tx(o, price, quantity, Begun)])
    case Scan(t) =>
      var o := db.txs[t].orderId;
      SetPc(db, t, if IsPending(db.orders, o) then Waiting else Missed(o in db.orders))
    case Lock(t) =>
      var o := db.txs[t].orderId;
      if IsPending(db.orders, o) then SetPc(db, t, Updated).(locks := db.locks[o := t])
      else SetPc(db, t, Missed(o in db.orders))
    case Insert(t) => SetPc(db, t, Inserted)
    case Commit(t) =>
      Close(db, t).(orders := SetStatus(db.orders, db.txs[t].orderId, Executed),
                    executions := db.executions + [Row(db.txs[t])])
    case Exists(t) => Close(db, t)
    case Rollback(t) => Close(db, t)
    case Create(o) => db.(orders := db.orders[o.id := o])
    case Resolve(o, status) => db.(orders := SetStatus(db.orders, o, status))
  }

  /** What EXISTS answers. */
  predicate ExistsReply(db: Db, t: TxId)
    requires t in db.txs
  {
    db.txs[t].orderId in db.orders
  }

  // ---------------------------------------------------------------------
  // Invariant

  /** How many committed executions rows an order has. */
  function Count(executions: seq<Execution>, o: Uuid): nat {
    if executions == [] then 0
    else
      var last := executions[|executions| - 1];
      Count(executions[..|executions| - 1], o) + if last.orderId == o then 1 else 0
  }

  predicate IsExecuted(orders: map<Uuid, Order>, o: Uuid) {
    o in orders && orders[o].status == Executed
  }

  /** One row for an executed order, none for any other. */
  ghost predicate ExactlyOnce(orders: map<Uuid, Order>, executions: seq<Execution>) {
    forall o: Uuid :: Count(executions, o) == if IsExecuted(orders, o) then 1 else 0
  }

  ghost predicate TxInv(db: Db, t: TxId)
    requires t in db.txs
  {
    var tx := db.txs[t];
    && (HoldsLock(tx) ==> tx.orderId in db.locks && db.locks[tx.orderId] == t)
    && (HoldsLock(tx) ==> IsPending(db.orders, tx.orderId))
    && (tx.pc == Waiting ==> tx.orderId in db.orders)
    && (tx.pc == Missed(true) ==> tx.orderId in db.orders && !IsPending(db.orders, tx.orderId))
  }

  ghost predicate Inv(db: Db) {
    && (forall o :: o in db.orders ==> db.orders[o].id == o)
    && ExactlyOnce(db.orders, db.executions)
    && (forall t :: t in db.txs ==> TxInv(db, t))
    && (forall o :: o in db.locks ==>
          db.locks[o] in db.txs && db.txs[db.locks[o]].orderId == o && HoldsLock(db.txs[db.locks[o]]))
  }

  const EMPTY: Db := Db(map[], [], map[], map[])

  lemma CountAppend(executions: seq<Execution>, row: Execution, o: Uuid)
    ensures Count(executions + [row], o) == Count(executions, o) + if row.orderId == o then 1 else 0
  {
    assert (executions + [row])[..|executions|] == executions;
  }

  /** The rows stay one per executed order: whoever commits holds the row lock
      of an order that is still PENDING, so it has no row yet. */
  lemma StepKeepsExactlyOnce(db: Db, step: Step)
    requires Inv(db) && Enabled(db, step)
    ensures ExactlyOnce(Next(db, step).orders, Next(db, step).executions)
  {
    var after := Next(db, step);
    forall o: Uuid ensures Count(after.executions, o) == if IsExecuted(after.orders, o) then 1 else 0 {
      if step.Commit? {
        assert TxInv(db, step.t);
        CountAppend(db.executions, Row(db.txs[step.t]), o);
      }
    }
  }

  lemma StepKeepsLocks(db: Db, step: Step)
    requires Inv(db) && Enabled(db, step)
    ensures forall o :: o in Next(db, step).locks ==>
      var t := Next(db, step).locks[o];
      t in Next(db, step).txs && Next(db, step).txs[t].orderId == o && HoldsLock(Next(db, step).txs[t])
  {
    if !step.Begin? && !step.Create? && !step.Resolve? { assert TxInv(db, step.t); }
  }

  lemma StepKeepsTx(db: Db, step: Step, t: TxId)
    requires Inv(db) && Enabled(db, step)
    requires t in Next(db, step).txs
    ensures TxInv(Next(db, step), t)
  {
    if t in db.txs { assert TxInv(db, t); }
  }

  lemma StepKeepsInv(db: Db, step: Step)
    requires Inv(db) && Enabled(db, step)
    ensures Inv(Next(db, step))
  {
    StepKeepsExactlyOnce(db, step);
    StepKeepsLocks(db, step);
    forall t | t in Next(db, step).txs ensures TxInv(Next(db, step), t) {
      StepKeepsTx(db, step, t);
    }
    assert forall o :: o in Next(db, step).orders ==> Next(db, step).orders[o].id == o;
  }

  // ---------------------------------------------------------------------
  // How one state follows another

  /** Orders are never deleted, only their status changes, and only away from PENDING. */
  ghost predicate Evolves(a: Db, b: Db) {
    forall o :: o in a.orders ==>
      && o in b.orders
      && NewOrderCreatedEvent(b.orders[o]) == NewOrderCreatedEvent(a.orders[o])
      && (a.orders[o].status != Pending ==> b.orders[o].status == a.orders[o].status)
  }

  lemma StepEvolves(db: Db, step: Step)
    requires Inv(db) && Enabled(db, step)
    ensures Evolves(db, Next(db, step))
  {
  }

  predicate ValidRun(db: Db, steps: seq<Step>)
    decreases |steps|
  {
    steps != [] ==> Enabled(db, steps[0]) && ValidRun(Next(db, steps[0]), steps[1..])
  }

  function Run(db: Db, steps: seq<Step>): Db
    requires ValidRun(db, steps)
    decreases |steps|
  {
    if steps == [] then db else Run(Next(db, steps[0]), steps[1..])
  }

  lemma {:induction false} RunKeepsInv(db: Db, steps: seq<Step>)
    requires Inv(db) && ValidRun(db, steps)
    ensures Inv(Run(db, steps)) && Evolves(db, Run(db, steps))
    decreases |steps|
  {
    if steps != [] {
      StepKeepsInv(db, steps[0]);
      StepEvolves(db, steps[0]);
      RunKeepsInv(Next(db, steps[0]), steps[1..]);
    }
  }
}
