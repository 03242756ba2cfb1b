/** What every reachable state of the protocol satisfies. */
module ProtocolInvariant {
  import opened Prelude
  import opened Orders
  import opened Delivery
  import opened Protocol
  import Failure
  import DB = Database

  // ---------------------------------------------------------------------
  // Messages

  /** Each counted failure lies a full retry delay after the one before it. */
  ghost predicate Spaced(failures: seq<nat>) {
    forall i :: 0 <= i < |failures| - 1 ==> failures[i] + RETRY_DELAY_MS <= failures[i + 1]
  }

  predicate DueBy(m: Message, now: nat) {
    m.failures != [] ==> m.failures[|m.failures| - 1] + RETRY_DELAY_MS <= now
  }

  /** The event describes a stored order and honours the contract. */
  predicate Contract(db: DB.Db, e: Event) {
    && e.orderId in db.orders
    && e == NewOrderCreatedEvent(db.orders[e.orderId])
    && Validate(e).None?
  }

  ghost predicate MessageOk(db: DB.Db, m: Message) {
    && m.body.Encoded? && Contract(db, m.body.event)
    && 0 <= RetryAttempt(m.headers) < MAX_DELIVERY_ATTEMPTS
    && |m.failures| == RetryAttempt(m.headers)
    && Spaced(m.failures)
  }

  ghost predicate Ready(db: DB.Db, now: nat, m: Message) {
    MessageOk(db, m) && DueBy(m, now)
  }

  /** A retry copy: its last failure has happened, its delay has not passed. */
  ghost predicate CopyOk(db: DB.Db, now: nat, m: Message) {
    MessageOk(db, m) && m.failures != [] && m.failures[|m.failures| - 1] <= now
  }

  ghost predicate DelayedOk(db: DB.Db, now: nat, d: Delayed) {
    CopyOk(db, d.since, d.message) && d.since <= now
  }

  /** A failed attempt of a message: when it can have failed, and what for. */
  ghost predicate FailureOk(now: nat, m: Message, cause: Failure.Error, failedAt: nat) {
    failedAt <= now && DueBy(m, failedAt) && Blameless(m.body, cause)
  }

  ghost predicate DeadOk(db: DB.Db, now: nat, d: DeadLetter) {
    && MessageOk(db, d.message)
    && FailureOk(now, d.message, d.cause, d.failedAt)
    && Decide(d.message, d.cause) == GiveUp
  }

  // ---------------------------------------------------------------------
  // Consumers

  function Rank(f: Frame): nat {
    match f
    case Publish(_) => 0
    case Close => 2
    case _ => 1
  }

  predicate Settles(f: Frame) { Rank(f) == 1 }

  /** At most one copy, then at most one settlement, then at most one close. */
  ghost predicate Ranked(sent: seq<Frame>) {
    forall i, j :: 0 <= i < j < |sent| ==> Rank(sent[i]) < Rank(sent[j])
  }

  predicate Resting(p: Phase) { p.Idle? || p.Exited? }

  ghost predicate Shape(k: Consumer)
    requires k.Up?
  {
    && (!k.connected ==> k.unacked.None? && k.sent == [])
    && Ranked(k.sent)
    && (k.connected && !Resting(k.phase) ==> k.unacked == Some(k.phase.m))
    && (k.inbox.Some? ==> Resting(k.phase))
    && (k.connected && k.inbox.Some? ==> k.unacked == k.inbox)
    && (forall f :: f in k.sent && f.Publish? ==>
          && k.unacked.Some? && k.inbox.None?
          && (Resting(k.phase) || k.phase.Copied? || k.phase.CopyFailed?)
          && f.message.body == k.unacked.value.body
          && RetryAttempt(f.message.headers) == RetryAttempt(k.unacked.value.headers) + 1)
    && (forall f :: f in k.sent && Settles(f) ==> k.unacked.Some? && k.inbox.None? && Resting(k.phase))
    && (Close in k.sent <==> k.connected && k.phase.Exited?)
  }

  ghost predicate Content(db: DB.Db, now: nat, k: Consumer)
    requires k.Up?
  {
    && (k.unacked.Some? ==> Ready(db, now, k.unacked.value))
    && (k.inbox.Some? ==> Ready(db, now, k.inbox.value))
    && (!Resting(k.phase) ==> Ready(db, now, k.phase.m))
    && (k.phase.Failed? ==> FailureOk(now, k.phase.m, k.phase.cause, k.phase.failedAt))
    && (k.phase.Succeeded? ==> !DB.IsPending(db.orders, k.phase.m.body.event.orderId))
    && (forall f :: f in k.sent && f.Publish? ==> CopyOk(db, now, f.message))
    && (forall f :: f in k.sent && f.Discard? && k.unacked.Some? ==>
          && FailureOk(now, k.unacked.value, f.cause, f.failedAt)
          && Decide(k.unacked.value, f.cause) == GiveUp)
  }

  /** An executing consumer owns the transaction of its own name. */
  ghost predicate Linked(db: DB.Db, c: Id, k: Consumer) {
    if k.Up? && k.phase.Executing? && k.phase.m.body.Encoded? then
      && c in db.txs
      && db.txs[c].orderId == k.phase.m.body.event.orderId
      && db.txs[c].price == k.phase.price
      && db.txs[c].quantity == k.phase.m.body.event.quantity
      && db.txs[c].pc != DB.Missed(false)
      && CanQuote(k.phase.m.body.event.assetSymbol, k.phase.price)
    else c !in db.txs
  }

  ghost predicate ConsumerInv(db: DB.Db, now: nat, c: Id, k: Consumer) {
    && (k.Up? ==> Shape(k) && Content(db, now, k))
    && Linked(db, c, k)
  }

  // ---------------------------------------------------------------------
  // The whole state

  /** Executions carry the order's quantity and a price quoted for its symbol. */
  ghost predicate RowsFaithful(db: DB.Db) {
    forall e :: e in db.executions ==>
      && e.orderId in db.orders
      && e.quantity == db.orders[e.orderId].quantity
      && CanQuote(db.orders[e.orderId].assetSymbol, e.price)
  }

  /** The retry queue holds its messages in the order of their arrival. */
  ghost predicate Sorted(retry: seq<Delayed>) {
    forall i, j :: 0 <= i < j < |retry| ==> retry[i].since <= retry[j].since
  }

  ghost predicate Inv(s: State) {
    && DB.Inv(s.db) && RowsFaithful(s.db)
    && (forall t :: t in s.db.txs ==> t < |s.consumers|)
    && (forall e :: e in s.api ==> Contract(s.db, e))
    && (forall m :: m in s.work ==> Ready(s.db, s.now, m))
    && (forall d :: d in s.retry ==> DelayedOk(s.db, s.now, d))
    && Sorted(s.retry)
    && (forall d :: d in s.dlq ==> DeadOk(s.db, s.now, d))
    && (forall c :: 0 <= c < |s.consumers| ==> ConsumerInv(s.db, s.now, c, s.consumers[c]))
    && (forall id :: id in s.published ==> id in s.db.orders)
  }

  lemma InitInv(n: nat)
    ensures Inv(Init(n))
  {
  }

  // ---------------------------------------------------------------------
  // The database part of an action

  function DbStep(s: State, a: Action): Option<DB.Step>
    requires Enabled(s, a)
  {
    match a
    case Insert(req, id, user, createdAt, _) => Some(DB.Create(OrderFrom(req, id, user, createdAt)))
    case Resolve(id, status) => Some(DB.Resolve(id, status))
    case Price(c, Quoted(price)) =>
      var event := s.consumers[c].phase.m.body.event;
      Some(DB.Begin(c, event.orderId, price, event.quantity))
    case Statement(_, step) => Some(step)
    case CommitReply(c, _) => Some(DB.Commit(c))
    case ExistsReply(c) => Some(DB.Exists(c))
    case StoreFails(c) => Some(DB.Rollback(c))
    case Crash(c, committed) =>
      if committed then Some(DB.Commit(c))
      else if DB.Enabled(s.db, DB.Rollback(c)) then Some(DB.Rollback(c)) else None
    case _ => None
  }

  lemma DbStepIs(s: State, a: Action)
    requires Enabled(s, a)
    ensures var step := DbStep(s, a);
      if step.Some? then DB.Enabled(s.db, step.value) && Next(s, a).db == DB.Next(s.db, step.value)
      else Next(s, a).db == s.db
  {
  }

  lemma DbKeeps(s: State, a: Action)
    requires Inv(s) && Enabled(s, a)
    ensures DB.Inv(Next(s, a).db) && DB.Evolves(s.db, Next(s, a).db)
  {
    DbStepIs(s, a);
    if DbStep(s, a).Some? {
      DB.StepKeepsInv(s.db, DbStep(s, a).value);
      DB.StepEvolves(s.db, DbStep(s, a).value);
    }
  }
}
