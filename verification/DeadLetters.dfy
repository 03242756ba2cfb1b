/** Runs in which the message of a resolved order is dead-lettered: the witnesses to the
    exact conditions in HandlingRuns (for DECISIONS.md:374-375, that resolved orders never
    are) and in Rejections (for DECISIONS.md:579-581, that orders which exhaust their
    retries stay PENDING). */
module DeadLetters {
  import opened Prelude
  import opened Timestamps
  import opened Orders
  import opened Delivery
  import opened Protocol
  import opened ProtocolInvariant
  import opened Guarantees
  import opened HandlingRuns
  import P = ProtocolPreservation
  import Failure
  import DB = Database

  lemma Go(s: State, a: Action) returns (next: State)
    requires Reachable(s) && Enabled(s, a)
    ensures Reachable(next) && next == Next(s, a)
  {
    var n, actions :| ValidRun(Init(n), actions) && s == Run(Init(n), actions);
    RunOneMore(Init(n), actions, a);
    next := Next(s, a);
  }

  ghost const CREATED: Time := Clock(2026, 9, 21, 12, 0, 0, 0, 0)

  ghost function OrderFor(symbol: string): Order {
    Order(7, 1, symbol, 10, BUY, MARKET, None, Pending, CREATED)
  }

  ghost function MessageFor(symbol: string): Message {
    Message(Encoded(NewOrderCreatedEvent(OrderFor(symbol))), map[], [])
  }

  ghost function StoredFor(symbol: string): DB.Db { DB.Db(map[7 := OrderFor(symbol)], [], map[], map[]) }

  lemma SymbolsAreTickers(symbol: string)
    requires symbol in BASE_PRICES
    ensures IsTicker(symbol) && CanQuote(symbol, BASE_PRICES[symbol])
  {
    assert symbol == "PETR4" || symbol == "VALE3" || symbol == "ITUB4";
  }

  ghost function Busy(m: Message, phase: Phase): Consumer { Up(Some(m), None, phase, [], true, false) }

  // ---------------------------------------------------------------------
  // Single steps

  lemma Stored(symbol: string) returns (s: State)
    requires IsTicker(symbol)
    ensures Reachable(s) && s.consumers == [Down] && s.work == [] && s.retry == []
    ensures s.db == StoredFor(symbol) && s.api == [NewOrderCreatedEvent(OrderFor(symbol))]
  {
    MarketOrderIsAcceptable(symbol, 10, 7, 1, CREATED);
    var init := Init(1);
    assert ValidRun(init, []) && Run(init, []) == init;
    s := Go(init, Insert(Request(symbol, 10, "BUY", "MARKET", None), 7, 1, CREATED, true));
  }

  /** The order is stored and its event is in the work queue. */
  lemma Published(symbol: string) returns (s: State)
    requires IsTicker(symbol)
    ensures Reachable(s) && s.consumers == [Down] && s.work == [MessageFor(symbol)] && s.retry == []
    ensures s.db == StoredFor(symbol) && Admit(MessageFor(symbol).body).Ok?
  {
    s := Stored(symbol);
    s := Go(s, PublishEvent(0, map[]));
  }

  lemma Started(s: State) returns (next: State)
    requires Reachable(s) && s.consumers == [Down]
    ensures Reachable(next) && next == s.(consumers := [FRESH])
  {
    next := Go(s, Start(0));
  }

  lemma Given(s: State, m: Message) returns (next: State)
    requires Reachable(s) && s.consumers == [FRESH] && s.work == [m]
    ensures Reachable(next)
    ensures next == s.(work := [], consumers := [Up(Some(m), Some(m), Idle, [], true, false)])
  {
    next := Go(s, Deliver(0, 0));
  }

  lemma Taken(s: State, m: Message) returns (next: State)
    requires Reachable(s) && s.consumers == [Up(Some(m), Some(m), Idle, [], true, false)]
    ensures Reachable(next)
    ensures next == s.(consumers := [Busy(m, Checking(m))], handlings := s.handlings + 1)
  {
    next := Go(s, Take(0));
  }

  lemma Checked(s: State, m: Message) returns (next: State)
    requires Reachable(s) && s.consumers == [Busy(m, Checking(m))] && Admit(m.body).Ok?
    ensures Enabled(s, Check(0)) && next == Next(s, Check(0))
    ensures Reachable(next) && next == s.(consumers := [Busy(m, Pricing(m))])
  {
    next := Go(s, Check(0));
  }

  lemma Begun(s: State, m: Message, price: real, tx: DB.Tx) returns (next: State)
    requires Reachable(s) && s.consumers == [Busy(m, Pricing(m))] && s.db.txs == map[] && m.body.Encoded?
    requires CanQuote(m.body.event.assetSymbol, price)
    requires tx == DB.Tx(m.body.event.orderId, price, m.body.event.quantity, DB.Begun)
    ensures Enabled(s, Price(0, Quoted(price))) && next == Next(s, Price(0, Quoted(price)))
    ensures Reachable(next) && next.consumers == [Busy(m, Executing(m, price))]
    ensures next.work == s.work && next.retry == s.retry && next.db == s.db.(txs := map[0 := tx])
  {
    next := Go(s, Price(0, Quoted(price)));
  }

  lemma Says(s: State, m: Message, price: real, step: DB.Step) returns (next: State)
    requires Reachable(s) && s.consumers == [Busy(m, Executing(m, price))]
    requires (step == DB.Scan(0) || step == DB.Lock(0) || step == DB.Insert(0)) && DB.Enabled(s.db, step)
    ensures Enabled(s, Statement(0, step)) && next == Next(s, Statement(0, step))
    ensures Reachable(next) && next == s.(db := DB.Next(s.db, step))
  {
    next := Go(s, Statement(0, step));
  }

  // What the statements of an undisturbed transaction do to the database.

  lemma ScanWaits(db: DB.Db, tx: DB.Tx)
    requires db.txs == map[0 := tx] && tx.pc == DB.Begun && DB.IsPending(db.orders, tx.orderId)
    ensures DB.Enabled(db, DB.Scan(0))
    ensures DB.Next(db, DB.Scan(0)) == db.(txs := map[0 := tx.(pc := DB.Waiting)])
  {
  }

  lemma LockUpdates(db: DB.Db, tx: DB.Tx)
    requires db.txs == map[0 := tx] && db.locks == map[] && tx.pc == DB.Waiting
    requires DB.IsPending(db.orders, tx.orderId)
    ensures DB.Enabled(db, DB.Lock(0))
    ensures DB.Next(db, DB.Lock(0)) == db.(txs := map[0 := tx.(pc := DB.Updated)], locks := map[tx.orderId := 0])
  {
  }

  lemma InsertFollows(db: DB.Db, tx: DB.Tx)
    requires db.txs == map[0 := tx] && tx.pc == DB.Updated
    ensures DB.Enabled(db, DB.Insert(0))
    ensures DB.Next(db, DB.Insert(0)) == db.(txs := map[0 := tx.(pc := DB.Inserted)])
  {
  }

  /** The UPDATE finds the PENDING row, gets its lock and the INSERT follows. */
  lemma Inserts(start: State, s: State, m: Message, price: real, tx: DB.Tx) returns (next: State)
    requires ByConsumer(start, s)
    requires Reachable(s) && s.consumers == [Busy(m, Executing(m, price))]
    requires s.db.txs == map[0 := tx] && s.db.locks == map[] && tx.pc == DB.Begun
    requires DB.IsPending(s.db.orders, tx.orderId)
    ensures Reachable(next) && ByConsumer(start, next)
    ensures next == s.(db := s.db.(txs := map[0 := tx.(pc := DB.Inserted)], locks := map[tx.orderId := 0]))
  {
    ScanWaits(s.db, tx);
    next := Says(s, m, price, DB.Scan(0));
    ByOneMore(start, s, Statement(0, DB.Scan(0)));
    LockUpdates(next.db, tx.(pc := DB.Waiting));
    ByOneMore(start, next, Statement(0, DB.Lock(0)));
    next := Says(next, m, price, DB.Lock(0));
    InsertFollows(next.db, tx.(pc := DB.Updated));
    ByOneMore(start, next, Statement(0, DB.Insert(0)));
    next := Says(next, m, price, DB.Insert(0));
  }

  /** From s to t only consumer 0 acts, on the delivery that it has in s. */
  ghost predicate ByConsumer(s: State, t: State) {
    exists actions ::
      && ValidRun(s, actions) && t == Run(s, actions)
      && forall a :: a in actions ==> P.Actor(a) == Some(0) && a != Take(0)
  }

  lemma ByNothing(s: State)
    ensures ByConsumer(s, s)
  {
    assert ValidRun(s, []) && Run(s, []) == s;
  }

  lemma ByOneMore(s: State, t: State, a: Action)
    requires ByConsumer(s, t) && Enabled(t, a) && P.Actor(a) == Some(0) && a != Take(0)
    ensures ByConsumer(s, Next(t, a))
  {
    var actions :| ValidRun(s, actions) && t == Run(s, actions)
      && forall x :: x in actions ==> P.Actor(x) == Some(0) && x != Take(0);
    RunOneMore(s, actions, a);
  }

  /** COMMIT takes effect and its reply is lost. */
  lemma ReplyLost(s: State, m: Message, price: real, tx: DB.Tx) returns (next: State)
    requires Reachable(s) && s.consumers == [Busy(m, Executing(m, price))]
    requires s.db.txs == map[0 := tx] && tx.pc == DB.Inserted
    ensures DB.Enabled(s.db, DB.Commit(0)) && Enabled(s, CommitReply(0, false)) && next == Next(s, CommitReply(0, false))
    ensures Reachable(next)
    ensures next == s.(consumers := [Busy(m, Phase.Failed(m, STORE_ERROR, s.now))], db := DB.Next(s.db, DB.Commit(0)))
  {
    next := Go(s, CommitReply(0, false));
  }

  /** COMMIT takes effect as the process dies. */
  lemma Died(s: State, m: Message, price: real, tx: DB.Tx) returns (next: State)
    requires Reachable(s) && s.consumers == [Busy(m, Executing(m, price))] && s.work == []
    requires s.db.txs == map[0 := tx] && tx.pc == DB.Inserted
    ensures Reachable(next) && DB.Enabled(s.db, DB.Commit(0))
    ensures next == s.(consumers := [Down], work := [m], db := DB.Next(s.db, DB.Commit(0)), faults := s.faults + 1)
  {
    next := Go(s, Crash(0, true));
  }

  lemma CommitExecutes(db: DB.Db, tx: DB.Tx)
    requires db.txs == map[0 := tx] && tx.pc == DB.Inserted && tx.orderId in db.orders
    ensures DB.Enabled(db, DB.Commit(0))
    ensures DB.IsExecuted(DB.Next(db, DB.Commit(0)).orders, tx.orderId) && DB.Next(db, DB.Commit(0)).txs == map[]
  {
  }

  // ---------------------------------------------------------------------
  // A failed price lookup

  const OUTAGE := Failure.Status(Failure.Unavailable)
  const UNKNOWN_SYMBOL := Failure.Status(Failure.NotFound)

  predicate CanFail(m: Message, cause: Failure.Error) {
    && m.body.Encoded? && Admit(m.body).Ok?
    && PossibleReply(m.body.event.assetSymbol, NoQuote(cause))
  }

  lemma Unpriced(s: State, m: Message, cause: Failure.Error) returns (next: State)
    requires Reachable(s) && s.consumers == [Busy(m, Pricing(m))] && CanFail(m, cause) && s.db.txs == map[]
    ensures Reachable(next) && next == s.(consumers := [Busy(m, Phase.Failed(m, PriceError(cause), s.now))])
  {
    next := Go(s, Price(0, NoQuote(cause)));
  }

  /** From the work queue to a failed price lookup. */
  lemma Tried(s: State, m: Message, cause: Failure.Error) returns (next: State)
    requires Reachable(s) && s.consumers == [FRESH] && s.work == [m] && CanFail(m, cause) && s.db.txs == map[]
    ensures Reachable(next)
    ensures next == s.(work := [], handlings := s.handlings + 1,
                       consumers := [Busy(m, Phase.Failed(m, PriceError(cause), s.now))])
  {
    next := Given(s, m);
    next := Taken(next, m);
    next := Checked(next, m);
    next := Unpriced(next, m, cause);
  }

  ghost function Writing(m: Message, phase: Phase, sent: seq<Frame>): Consumer { Up(Some(m), None, phase, sent, true, false) }

  lemma CopyWritten(s: State, m: Message) returns (next: State)
    requires Reachable(s) && s.consumers == [Busy(m, Phase.Failed(m, PriceError(OUTAGE), s.now))]
    requires Decide(m, PriceError(OUTAGE)) == RetryLater
    ensures Reachable(next)
    ensures next == s.(consumers := [Writing(m, Copied(m), [Publish(RetryCopy(m, s.now))])])
  {
    next := Go(s, SendCopy(0, Sent));
    assert next.consumers[0].sent == [Publish(RetryCopy(m, s.now))];
  }

  lemma AckWritten(s: State, m: Message, copy: Frame) returns (next: State)
    requires Reachable(s) && s.consumers == [Writing(m, Copied(m), [copy])]
    ensures Reachable(next) && next == s.(consumers := [Writing(m, Idle, [copy, Ack])])
  {
    next := Go(s, SendAck(0, true));
    assert next.consumers[0].sent == [copy, Ack];
  }

  /** The broker takes both. */
  lemma CopyTaken(s: State, m: Message, copy: Message) returns (next: State)
    requires Reachable(s) && s.consumers == [Writing(m, Idle, [Publish(copy), Ack])] && s.retry == []
    ensures Reachable(next)
    ensures next == s.(consumers := [Writing(m, Idle, [Ack])], retry := [Delayed(copy, s.now)])
  {
    next := Go(s, Process(0));
    assert next.consumers[0].sent == [Ack] && next.retry == [Delayed(copy, s.now)];
  }

  lemma AckTaken(s: State, m: Message) returns (next: State)
    requires Reachable(s) && s.consumers == [Writing(m, Idle, [Ack])]
    ensures Reachable(next) && next == s.(consumers := [FRESH])
  {
    next := Go(s, Process(0));
    assert next.consumers[0].sent == [];
  }

  /** The delay passes. */
  lemma Released(s: State, copy: Message) returns (next: State)
    requires Reachable(s) && s.retry == [Delayed(copy, s.now)] && s.work == []
    ensures Reachable(next)
    ensures next == s.(retry := [], work := [copy], now := s.now + RETRY_DELAY_MS)
  {
    next := Go(s, Tick(RETRY_DELAY_MS));
    next := Go(next, Expire);
    assert next.work == [copy] && next.retry == [];
  }

  lemma OutageIsRetried(m: Message)
    requires RetryAttempt(m.headers) + 1 < MAX_DELIVERY_ATTEMPTS
    ensures Decide(m, PriceError(OUTAGE)) == RetryLater
  {
    OutagesBlameNobody(OUTAGE);
  }

  /** From the failed attempt to the copy in the retry queue. */
  lemma CopyMoved(s: State, m: Message) returns (next: State)
    requires Reachable(s) && s.consumers == [Busy(m, Phase.Failed(m, PriceError(OUTAGE), s.now))] && s.retry == []
    requires Decide(m, PriceError(OUTAGE)) == RetryLater
    ensures Reachable(next)
    ensures next == s.(consumers := [FRESH], retry := [Delayed(RetryCopy(m, s.now), s.now)])
  {
    next := CopyWritten(s, m);
    next := AckWritten(next, m, Publish(RetryCopy(m, s.now)));
    next := CopyTaken(next, m, RetryCopy(m, s.now));
    next := AckTaken(next, m);
  }

  /** One attempt that finds the price service down, up to the return of its copy. */
  lemma Retried(s: State, m: Message) returns (next: State)
    requires Reachable(s) && s.consumers == [FRESH] && s.work == [m] && s.retry == []
    requires CanFail(m, OUTAGE) && s.db.txs == map[] && RetryAttempt(m.headers) + 1 < MAX_DELIVERY_ATTEMPTS
    ensures Reachable(next)
    ensures next == s.(work := [RetryCopy(m, s.now)], handlings := s.handlings + 1, now := s.now + RETRY_DELAY_MS)
  {
    OutageIsRetried(m);
    next := Tried(s, m, OUTAGE);
    next := CopyMoved(next, m);
    next := Released(next, RetryCopy(m, s.now));
  }

  lemma Discarded(s: State, m: Message, cause: Failure.Error) returns (next: State)
    requires Reachable(s) && s.consumers == [Busy(m, Phase.Failed(m, cause, s.now))] && Decide(m, cause) == GiveUp
    ensures Enabled(s, SendDiscard(0, true)) && next == Next(s, SendDiscard(0, true))
    ensures Reachable(next) && next == s.(consumers := [Up(Some(m), None, Idle, [Discard(cause, s.now)], true, false)])
  {
    next := Go(s, SendDiscard(0, true));
    assert next.consumers[0].sent == [Discard(cause, s.now)];
  }

  lemma DeadLettered(s: State, m: Message, cause: Failure.Error) returns (next: State)
    requires Reachable(s) && s.consumers == [Up(Some(m), None, Idle, [Discard(cause, s.now)], true, false)]
    ensures Enabled(s, Process(0)) && next == Next(s, Process(0))
    ensures Reachable(next) && next.db == s.db && next.dlq == s.dlq + [DeadLetter(m, cause, s.now)]
  {
    next := Go(s, Process(0));
  }

  lemma AttemptsCount(m: Message, at: nat)
    ensures RetryAttempt(RetryCopy(m, at).headers) == RetryAttempt(m.headers) + 1 && RetryCopy(m, at).body == m.body
  {
    RetryCopyCounts(m, at);
  }

  /** A first delivery that finds the price service down three times. */
  lemma Exhausted(s: State, m: Message) returns (next: State, d: DeadLetter)
    requires Reachable(s) && s.consumers == [FRESH] && s.work == [m] && s.retry == []
    requires CanFail(m, OUTAGE) && s.db.txs == map[] && RetryAttempt(m.headers) == 0
    ensures Reachable(next) && d in next.dlq && d.message.body == m.body && next.db == s.db
  {
    var second := RetryCopy(m, s.now);
    AttemptsCount(m, s.now);
    next := Retried(s, m);
    var third := RetryCopy(second, next.now);
    AttemptsCount(second, next.now);
    next := Retried(next, second);
    next := Tried(next, third, OUTAGE);
    next := Discarded(next, third, PriceError(OUTAGE));
    next := DeadLettered(next, third, PriceError(OUTAGE));
    d := next.dlq[|next.dlq| - 1];
  }

  /** A delivery for a symbol that the price service does not know. */
  lemma Refused(s: State, m: Message) returns (next: State, d: DeadLetter)
    requires Reachable(s) && s.consumers == [FRESH] && s.work == [m]
    requires CanFail(m, UNKNOWN_SYMBOL) && s.db.txs == map[]
    ensures Reachable(next) && d in next.dlq && d.message == m && next.db == s.db
  {
    OutagesBlameNobody(UNKNOWN_SYMBOL);
    next := Tried(s, m, UNKNOWN_SYMBOL);
    next := Discarded(next, m, PriceError(UNKNOWN_SYMBOL));
    next := DeadLettered(next, m, PriceError(UNKNOWN_SYMBOL));
    d := next.dlq[|next.dlq| - 1];
  }

  // ---------------------------------------------------------------------
  // Whole runs

  /** d is the dead letter of an order with this symbol and status. */
  ghost predicate DeadLetterOf(s: State, d: DeadLetter, symbol: string, status: Status) {
    && d in s.dlq && d.message.body.Encoded? && d.message.body.event.assetSymbol == symbol
    && d.message.body.event.orderId in s.db.orders
    && s.db.orders[d.message.body.event.orderId].status == status
  }

  /** The order is executed, its consumer died before the ack, and the message is
      back in the queue. */
  lemma ExecutedAndQueued(symbol: string) returns (s: State)
    requires symbol in BASE_PRICES
    ensures Reachable(s) && s.consumers == [FRESH] && s.work == [MessageFor(symbol)] && s.retry == []
    ensures DB.IsExecuted(s.db.orders, 7) && s.db.txs == map[]
    ensures Admit(MessageFor(symbol).body).Ok?
  {
    SymbolsAreTickers(symbol);
    var m, price := MessageFor(symbol), BASE_PRICES[symbol];
    s := Published(symbol);
    s := Started(s);
    s := Given(s, m);
    s := Taken(s, m);
    s := Checked(s, m);
    var tx := DB.Tx(7, price, 10, DB.Begun);
    s := Begun(s, m, price, tx);
    ByNothing(s);
    s := Inserts(s, s, m, price, tx);
    CommitExecutes(s.db, tx.(pc := DB.Inserted));
    s := Died(s, m, price, tx.(pc := DB.Inserted));
    s := Started(s);
  }

  /** The order is cancelled before any consumer has seen its message. */
  lemma CancelledAndQueued(symbol: string) returns (s: State)
    requires IsTicker(symbol)
    ensures Reachable(s) && s.consumers == [FRESH] && s.work == [MessageFor(symbol)] && s.retry == []
    ensures s.db == StoredFor(symbol).(orders := map[7 := OrderFor(symbol).(status := Cancelled)])
    ensures Admit(MessageFor(symbol).body).Ok?
  {
    s := Published(symbol);
    s := Go(s, Resolve(7, Cancelled));
    s := Started(s);
  }

  /** The message of an EXECUTED order ends in the dead-letter queue. */
  lemma ExecutedCanBeDeadLettered(symbol: string) returns (s: State, d: DeadLetter)
    requires symbol in BASE_PRICES
    ensures Reachable(s) && DeadLetterOf(s, d, symbol, Executed)
  {
    s := ExecutedAndQueued(symbol);
    s, d := Exhausted(s, MessageFor(symbol));
  }

  /** The message of a CANCELLED order does, whatever its symbol. */
  lemma CancelledCanBeDeadLettered(symbol: string) returns (s: State, d: DeadLetter)
    requires IsTicker(symbol)
    ensures Reachable(s) && DeadLetterOf(s, d, symbol, Cancelled)
  {
    s := CancelledAndQueued(symbol);
    if symbol in BASE_PRICES {
      s, d := Exhausted(s, MessageFor(symbol));
    } else {
      s, d := Refused(s, MessageFor(symbol));
    }
  }

  /** The third copy of a message whose order is PENDING. */
  lemma LastCopyQueued(symbol: string) returns (s: State, m: Message)
    requires symbol in BASE_PRICES
    ensures Reachable(s) && s.consumers == [FRESH] && s.work == [m] && s.db == StoredFor(symbol)
    ensures m.body == MessageFor(symbol).body && LastAttempt(m) && Admit(m.body).Ok?
  {
    SymbolsAreTickers(symbol);
    m := MessageFor(symbol);
    s := Published(symbol);
    s := Started(s);
    AttemptsCount(m, s.now);
    var second := RetryCopy(m, s.now);
    s := Retried(s, m);
    AttemptsCount(second, s.now);
    m := RetryCopy(second, s.now);
    s := Retried(s, second);
  }

  /** The last attempt, up to the last statement before COMMIT. */
  lemma LastAttemptInserts(symbol: string) returns (taken: State, s: State, m: Message, tx: DB.Tx)
    requires symbol in BASE_PRICES
    ensures Reachable(taken) && taken.consumers == [Busy(m, Checking(m))] && DB.IsPending(taken.db.orders, 7)
    ensures m.body == MessageFor(symbol).body && LastAttempt(m)
    ensures Reachable(s) && ByConsumer(taken, s) && s.consumers == [Busy(m, Executing(m, tx.price))]
    ensures s.db.txs == map[0 := tx] && tx.pc == DB.Inserted && tx.orderId == 7 && 7 in s.db.orders
  {
    SymbolsAreTickers(symbol);
    var price := BASE_PRICES[symbol];
    s, m := LastCopyQueued(symbol);
    s := Given(s, m);
    s := Taken(s, m);
    taken := s;
    ByNothing(taken);
    ByOneMore(taken, s, Check(0));
    s := Checked(s, m);
    ByOneMore(taken, s, Price(0, Quoted(price)));
    tx := DB.Tx(7, price, 10, DB.Begun);
    s := Begun(s, m, price, tx);
    s := Inserts(taken, s, m, price, tx);
    tx := tx.(pc := DB.Inserted);
  }

  /** A last attempt that is taken up while its order is PENDING, executes it and loses
      the reply to its COMMIT, is dead-lettered though nobody else touched the order. */
  lemma LostReplyIsDeadLettered(symbol: string) returns (taken: State, s: State, m: Message, d: DeadLetter)
    requires symbol in BASE_PRICES
    ensures Reachable(taken) && taken.consumers == [Busy(m, Checking(m))] && DB.IsPending(taken.db.orders, 7)
    ensures m.body == MessageFor(symbol).body && LastAttempt(m)
    ensures Reachable(s) && ByConsumer(taken, s) && DeadLetterOf(s, d, symbol, Executed) && d.message == m
  {
    var tx;
    taken, s, m, tx := LastAttemptInserts(symbol);
    s := LosesReply(taken, s, m, tx);
    s, d := IsDiscarded(taken, s, m);
  }

  lemma LosesReply(taken: State, s: State, m: Message, tx: DB.Tx) returns (next: State)
    requires Reachable(s) && ByConsumer(taken, s) && s.consumers == [Busy(m, Executing(m, tx.price))]
    requires s.db.txs == map[0 := tx] && tx.pc == DB.Inserted && tx.orderId == 7 && 7 in s.db.orders
    ensures Reachable(next) && ByConsumer(taken, next) && DB.IsExecuted(next.db.orders, 7)
    ensures next.consumers == [Busy(m, Phase.Failed(m, STORE_ERROR, next.now))]
  {
    CommitExecutes(s.db, tx);
    next := ReplyLost(s, m, tx.price, tx);
    ByOneMore(taken, s, CommitReply(0, false));
  }

  lemma IsDiscarded(taken: State, s: State, m: Message) returns (next: State, d: DeadLetter)
    requires Reachable(s) && ByConsumer(taken, s) && LastAttempt(m)
    requires s.consumers == [Busy(m, Phase.Failed(m, STORE_ERROR, s.now))]
    ensures Reachable(next) && ByConsumer(taken, next) && next.db == s.db && d in next.dlq && d.message == m
  {
    next := Discarded(s, m, STORE_ERROR);
    ByOneMore(taken, s, SendDiscard(0, true));
    ByOneMore(taken, next, Process(0));
    next := DeadLettered(next, m, STORE_ERROR);
    d := next.dlq[|next.dlq| - 1];
  }

  /** Of an EXECUTED order exactly when the price service knows its symbol. A resolved
      order with an unknown symbol is a CANCELLED or REJECTED one. */
  lemma ExecutedDeadLetterIff(symbol: string)
    ensures (exists s, d :: Reachable(s) && DeadLetterOf(s, d, symbol, Executed)) <==> symbol in BASE_PRICES
  {
    if symbol in BASE_PRICES {
      var s, d := ExecutedCanBeDeadLettered(symbol);
    }
    forall s, d | Reachable(s) && DeadLetterOf(s, d, symbol, Executed) ensures symbol in BASE_PRICES {
      var e := ExecutionIsFaithful(s, d.message.body.event.orderId);
      ReachableInv(s);
      DeadLetterContract(s, d);
    }
  }

  lemma DeadLetterContract(s: State, d: DeadLetter)
    requires Inv(s) && d in s.dlq
    ensures d.message.body.Encoded? && Contract(s.db, d.message.body.event)
  {
    assert DeadOk(s.db, s.now, d);
  }
}
