/** The order-execution protocol as a step system: the API, the broker with its
    work, retry and dead-letter queues, any number of consumers running the loop
    of internal/execution/consumer.go, and the database.

    Assumptions about the broker: it does not lose what it has accepted;
    dead-lettering is one step; what is sent on one channel is processed in order
    (section 4.7 of AMQP 0-9-1); the queues exist and are bound (see Topology);
    messages enter the work queue from the API and the retry queue only. */
module Protocol {
  import opened Prelude
  import opened Orders
  import opened Delivery
  import DB = Database
  import Failure
  import Timestamps

  /** What a consumer has written to its channel. The arguments of Discard are
      history: the failure that the rejection answers and when it happened. */
  datatype Frame =
    | Publish(message: Message)                         // mandatory publish to the retry queue
    | Ack
    | Requeue                                           // Reject(true)
    | Discard(cause: Failure.Error, failedAt: nat)      // Reject(false)
    | Close                                             // channel.Close

  /** Where a consumer process is in its loop. */
  datatype Phase =
    | Idle
    | Checking(m: Message)
    | Pricing(m: Message)
    | Executing(m: Message, price: real)
    | Succeeded(m: Message)
    | Failed(m: Message, cause: Failure.Error, failedAt: nat)
    | Copied(m: Message)         // the retry copy is sent, the ack is not
    | CopyFailed(m: Message)     // sending the retry copy returned an error
    | Exited

  /** unacked is the broker's side of a channel with prefetch 1; inbox the delivery
      the process has not read yet; sent the frames the broker has not processed. */
  datatype Consumer =
    | Down
    | Up(unacked: Option<Message>, inbox: Option<Message>, phase: Phase, sent: seq<Frame>,
         connected: bool, shutdown: bool)

  datatype Delayed = Delayed(message: Message, since: nat)

  datatype DeadLetter = DeadLetter(message: Message, cause: Failure.Error, failedAt: nat)

  /** A price that a lookup returned while the event of this order was handled. */
  datatype Quote = Quote(orderId: Uuid, symbol: string, price: real)

  /** The last five fields record events for the proofs. */
  datatype State = State(
    db: DB.Db,
    api: seq<Event>,             // orders stored, event not yet published
    work: seq<Message>, retry: seq<Delayed>, dlq: seq<DeadLetter>,
    consumers: seq<Consumer>,
    now: nat,                    // milliseconds
    published: set<Uuid>, publishes: nat, handlings: nat, faults: nat, quotes: set<Quote>)

  type Id = nat

  datatype Sending = Sent | NotSent | SentButError

  datatype Action =
    // API and environment
    | Insert(req: Request, id: Uuid, user: Uuid, createdAt: Timestamps.Time, replied: bool)
    | PublishEvent(i: nat, trace: Headers)
    | LoseEvent(i: nat)                        // the publish fails or the API dies first
    | Resolve(id: Uuid, status: Status)
    | Tick(ms: nat)
    // broker
    | Expire                                   // the head of the retry queue
    | Deliver(c: Id, i: nat)
    | Process(c: Id)                           // the next frame of a channel
    // faults
    | Disconnect(c: Id, keepInbox: bool)
    | Crash(c: Id, committed: bool)            // committed: a COMMIT under way took effect
    // consumer process
    | Start(c: Id)
    | Shutdown(c: Id)
    | Take(c: Id)
    | Stop(c: Id)
    | Check(c: Id)
    | Price(c: Id, reply: PriceReply)
    | Statement(c: Id, step: DB.Step)
    | CommitReply(c: Id, acknowledged: bool)   // COMMIT takes effect; its reply may be lost
    | ExistsReply(c: Id)
    | StoreFails(c: Id)                        // any statement returns an error
    | SendAck(c: Id, ok: bool)
    | SendDiscard(c: Id, ok: bool)
    | SendCopy(c: Id, sending: Sending)
    | SendRequeue(c: Id, ok: bool)


  function Init(n: nat): State {
    State(DB.EMPTY, [], [], [], [], seq(n, _ => Down), 0, {}, 0, 0, 0, {})
  }

  const FRESH := Up(None, None, Idle, [], true, false)

  predicate IsUp(s: State, c: Id) { c < |s.consumers| && s.consumers[c].Up? }

  /** The consumer's process is in a phase and not stopped. */
  predicate InIdle(s: State, c: Id) { IsUp(s, c) && s.consumers[c].phase.Idle? }

  predicate InExecuting(s: State, c: Id) { IsUp(s, c) && s.consumers[c].phase.Executing? }

  predicate InFailed(s: State, c: Id, decision: Decision) {
    && IsUp(s, c) && s.consumers[c].phase.Failed?
    && Decide(s.consumers[c].phase.m, s.consumers[c].phase.cause) == decision
  }

  predicate Enabled(s: State, a: Action) {
    match a
    case Insert(req, id, user, createdAt, _) =>
      && id != NIL && user != NIL && Acceptable(req, id, user, createdAt)
      && DB.Enabled(s.db, DB.Create(OrderFrom(req, id, user, createdAt)))
    case PublishEvent(i, trace) => i < |s.api| && RETRY_COUNT_HEADER !in trace
    case LoseEvent(i) => i < |s.api|
    case Resolve(id, status) => DB.Enabled(s.db, DB.Resolve(id, status))
    case Tick(_) => true
    case Expire => s.retry != [] && s.retry[0].since + RETRY_DELAY_MS <= s.now
    case Deliver(c, i) =>
      IsUp(s, c) && s.consumers[c].connected && s.consumers[c].unacked.None? && i < |s.work|
    case Process(c) => IsUp(s, c) && s.consumers[c].sent != []
    case Disconnect(c, _) => IsUp(s, c) && s.consumers[c].connected
    case Crash(c, committed) =>
      IsUp(s, c) && (committed ==> s.consumers[c].phase.Executing? && DB.Enabled(s.db, DB.Commit(c)))
    case Start(c) => c < |s.consumers| && s.consumers[c].Down?
    case Shutdown(c) => IsUp(s, c)
    case Take(c) => InIdle(s, c) && s.consumers[c].inbox.Some?
    case Stop(c) =>
      || (InIdle(s, c) && (s.consumers[c].shutdown || !s.consumers[c].connected))
      || (IsUp(s, c) && s.consumers[c].phase.Exited? && !s.consumers[c].connected)
    case Check(c) => IsUp(s, c) && s.consumers[c].phase.Checking?
    case Price(c, reply) =>
      && IsUp(s, c) && s.consumers[c].phase.Pricing?
      && s.consumers[c].phase.m.body.Encoded?
      && PossibleReply(s.consumers[c].phase.m.body.event.assetSymbol, reply)
      && c !in s.db.txs
    case Statement(c, step) =>
      && InExecuting(s, c) && (step == DB.Scan(c) || step == DB.Lock(c) || step == DB.Insert(c))
      && DB.Enabled(s.db, step)
    case CommitReply(c, _) => InExecuting(s, c) && DB.Enabled(s.db, DB.Commit(c))
    case ExistsReply(c) => InExecuting(s, c) && DB.Enabled(s.db, DB.Exists(c))
    case StoreFails(c) => InExecuting(s, c) && DB.Enabled(s.db, DB.Rollback(c))
    case SendAck(c, ok) =>
      && IsUp(s, c) && (s.consumers[c].phase.Succeeded? || s.consumers[c].phase.Copied?)
      && (ok ==> s.consumers[c].connected)
    case SendDiscard(c, ok) => InFailed(s, c, GiveUp) && (ok ==> s.consumers[c].connected)
    case SendCopy(c, sending) =>
      InFailed(s, c, RetryLater) && (sending != NotSent ==> s.consumers[c].connected)
    case SendRequeue(c, ok) =>
      && IsUp(s, c) && s.consumers[c].phase.CopyFailed?
      && (ok ==> s.consumers[c].connected)
  }

  function Set(s: State, c: Id, k: Consumer): State
    requires c < |s.consumers|
  {
    s.(consumers := s.consumers[c := k])
  }

  function ToPhase(s: State, c: Id, phase: Phase): State
    requires IsUp(s, c)
  {
    Set(s, c, s.consumers[c].(phase := phase))
  }

  /** The channel is gone: the broker takes an unacked delivery back and the
      frames it has not processed are lost. */
  function TakeBack(s: State, k: Consumer): State
    requires k.Up?
  {
    if k.unacked.Some? then s.(work := s.work + [k.unacked.value]) else s
  }

  function CountFault(s: State, fault: bool): State {
    if fault then s.(faults := s.faults + 1) else s
  }

  /** The broker processes the first frame of a channel. */
  function ProcessFrame(s: State, c: Id): State
    requires IsUp(s, c) && s.consumers[c].sent != []
  {
    var k := s.consumers[c];
    var rest := k.(sent := k.sent[1..]);
    var settled := rest.(unacked := None);
    match k.sent[0]
    case Publish(m) => Set(s, c, rest).(retry := s.retry + [Delayed(m, s.now)])
    case Ack => Set(s, c, settled)
    case Requeue => Set(TakeBack(s, k), c, settled)
    case Discard(cause, failedAt) =>
      var after := Set(s, c, settled);
      if k.unacked.Some? then after.(dlq := s.dlq + [DeadLetter(k.unacked.value, cause, failedAt)])
      else after
    case Close => Set(TakeBack(s, k), c, Down)
  }

  /** Run returns: after a shutdown request through channel.Close, after a lost
      connection at once. */
  function Leave(s: State, c: Id): State
    requires IsUp(s, c)
  {
    var k := s.consumers[c];
    if k.connected then Set(s, c, k.(inbox := None, phase := Exited, sent := k.sent + [Close]))
    else Set(s, c, Down)
  }

  /** A settlement call returns: the frame is on the wire or the call failed. */
  function Settle(s: State, c: Id, frame: Frame, ok: bool): State
    requires IsUp(s, c)
  {
    var k := s.consumers[c];
    Set(s, c, k.(phase := Idle, sent := if ok then k.sent + [frame] else k.sent))
  }

  function Next(s: State, a: Action): State
    requires Enabled(s, a)
  {
    match a
    case Insert(req, id, user, createdAt, replied) =>
      var order := OrderFrom(req, id, user, createdAt);
      s.(db := DB.Next(s.db, DB.Create(order)),
         api := if replied then s.api + [NewOrderCreatedEvent(order)] else s.api)
    case PublishEvent(i, trace) =>
      s.(api := Without(s.api, i),
         work := s.work + [Message(Encoded(s.api[i]), trace, [])],
         published := s.published + {s.api[i].orderId},
         publishes := s.publishes + 1)
    case LoseEvent(i) => s.(api := Without(s.api, i))
    case Resolve(id, status) => s.(db := DB.Next(s.db, DB.Resolve(id, status)))
    case Tick(ms) => s.(now := s.now + ms)
    case Expire => s.(retry := s.retry[1..], work := s.work + [s.retry[0].message])
    case Deliver(c, i) =>
      var k := s.consumers[c];
      Set(s, c, k.(unacked := Some(s.work[i]), inbox := Some(s.work[i]))).(work := Without(s.work, i))
    case Process(c) => ProcessFrame(s, c)
    case Disconnect(c, keepInbox) =>
      var k := s.consumers[c];
      var gone := k.(unacked := None, inbox := if keepInbox then k.inbox else None, sent := [], connected := false);
      CountFault(Set(TakeBack(s, k), c, gone), k.unacked.Some?)
    case Crash(c, committed) =>
      var k := s.consumers[c];
      var after := CountFault(Set(TakeBack(s, k), c, Down), k.unacked.Some?);
      if committed then after.(db := DB.Next(s.db, DB.Commit(c)))
      else if DB.Enabled(s.db, DB.Rollback(c)) then after.(db := DB.Next(s.db, DB.Rollback(c)))
      else after
    case Start(c) => Set(s, c, FRESH)
    case Shutdown(c) => Set(s, c, s.consumers[c].(shutdown := true))
    case Take(c) =>
      var k := s.consumers[c];
      if k.shutdown then Leave(s, c)
      else Set(s, c, k.(inbox := None, phase := Checking(k.inbox.value))).(handlings := s.handlings + 1)
    case Stop(c) => Leave(s, c)
    case Check(c) =>
      var m := s.consumers[c].phase.m;
      (match Admit(m.body)
       case Ok(_) => ToPhase(s, c, Pricing(m))
       case Err(e) => ToPhase(s, c, Failed(m, e, s.now)))
    case Price(c, reply) =>
      var m := s.consumers[c].phase.m;
      (match reply
       case Quoted(price) =>
         var event := m.body.event;
         ToPhase(s, c, Executing(m, price)).(
           db := DB.Next(s.db, DB.Begin(c, event.orderId, price, event.quantity)),
           quotes := s.quotes + {Quote(event.orderId, event.assetSymbol, price)})
       case NoQuote(cause) => ToPhase(s, c, Failed(m, PriceError(cause), s.now)))
    case Statement(c, step) => s.(db := DB.Next(s.db, step))
    case CommitReply(c, acknowledged) =>
      var m := s.consumers[c].phase.m;
      ToPhase(s, c, if acknowledged then Succeeded(m) else Failed(m, STORE_ERROR, s.now)).(
        db := DB.Next(s.db, DB.Commit(c)))
    case ExistsReply(c) =>
      var m := s.consumers[c].phase.m;
      ToPhase(s, c, if DB.ExistsReply(s.db, c) then Succeeded(m) else Failed(m, NOT_FOUND_ERROR, s.now)).(
        db := DB.Next(s.db, DB.Exists(c)))
    case StoreFails(c) =>
      ToPhase(s, c, Failed(s.consumers[c].phase.m, STORE_ERROR, s.now)).(
        db := DB.Next(s.db, DB.Rollback(c)))
    case SendAck(c, ok) => CountFault(Settle(s, c, Ack, ok), !ok && s.consumers[c].connected)
    case SendDiscard(c, ok) =>
      var p := s.consumers[c].phase;
      CountFault(Settle(s, c, Discard(p.cause, p.failedAt), ok), !ok && s.consumers[c].connected)
    case SendCopy(c, sending) =>
      var k := s.consumers[c];
      var m := k.phase.m;
      var copy := Publish(RetryCopy(m, k.phase.failedAt));
      var written := if sending == NotSent then k.sent else k.sent + [copy];
      CountFault(Set(s, c, k.(phase := if sending == Sent then Copied(m) else CopyFailed(m), sent := written)),
                 sending != Sent && k.connected)
    case SendRequeue(c, ok) => Settle(s, c, Requeue, ok)
  }

  // ---------------------------------------------------------------------
  // Runs

  predicate ValidRun(s: State, actions: seq<Action>)
    decreases |actions|
  {
    actions != [] ==> Enabled(s, actions[0]) && ValidRun(Next(s, actions[0]), actions[1..])
  }

  function Run(s: State, actions: seq<Action>): State
    requires ValidRun(s, actions)
    decreases |actions|
  {
    if actions == [] then s else Run(Next(s, actions[0]), actions[1..])
  }

  lemma {:induction false} RunOneMore(s: State, actions: seq<Action>, a: Action)
    requires ValidRun(s, actions) && Enabled(Run(s, actions), a)
    ensures ValidRun(s, actions + [a]) && Run(s, actions + [a]) == Next(Run(s, actions), a)
    decreases |actions|
  {
    if actions == [] {
      assert [] + [a] == [a] && [a][1..] == [];
    } else {
      assert (actions + [a])[1..] == actions[1..] + [a];
      RunOneMore(Next(s, actions[0]), actions[1..], a);
    }
  }

  /** A run seen from its end. */
  lemma {:induction false} LastStep(s: State, actions: seq<Action>)
    requires ValidRun(s, actions) && actions != []
    ensures var before := actions[..|actions| - 1];
      && ValidRun(s, before) && Enabled(Run(s, before), actions[|actions| - 1])
      && Run(s, actions) == Next(Run(s, before), actions[|actions| - 1])
    decreases |actions|
  {
    if |actions| > 1 {
      assert actions[..|actions| - 1][1..] == actions[1..][..|actions| - 2];
      LastStep(Next(s, actions[0]), actions[1..]);
    }
  }

  lemma RunOne(s: State, a: Action)
    requires Enabled(s, a)
    ensures ValidRun(s, [a]) && Run(s, [a]) == Next(s, a)
  {
    assert [a][1..] == [];
    assert ValidRun(Next(s, a), []) && Run(Next(s, a), []) == Next(s, a);
  }

  lemma RunTwo(s: State, a: Action, b: Action)
    requires Enabled(s, a) && Enabled(Next(s, a), b)
    ensures ValidRun(s, [a, b]) && Run(s, [a, b]) == Next(Next(s, a), b)
  {
    assert [a, b][1..] == [b];
    RunOne(Next(s, a), b);
  }
}
