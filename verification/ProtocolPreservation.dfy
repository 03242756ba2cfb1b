/** Every action keeps the protocol invariant. */
module ProtocolPreservation {
  import opened Prelude
  import opened Orders
  import opened Delivery
  import opened Protocol
  import opened ProtocolInvariant
  import DB = Database

  /** Facts about messages survive: orders only evolve and time only passes. */
  lemma Lift(a: DB.Db, b: DB.Db, before: nat, after: nat)
    requires DB.Evolves(a, b) && before <= after
    ensures forall e :: Contract(a, e) ==> Contract(b, e)
    ensures forall m :: MessageOk(a, m) ==> MessageOk(b, m)
    ensures forall m :: Ready(a, before, m) ==> Ready(b, after, m)
    ensures forall m :: CopyOk(a, before, m) ==> CopyOk(b, after, m)
    ensures forall d :: DelayedOk(a, before, d) ==> DelayedOk(b, after, d)
    ensures forall d :: DeadOk(a, before, d) ==> DeadOk(b, after, d)
  {
    forall m | MessageOk(a, m) ensures MessageOk(b, m) {
      assert Contract(b, m.body.event);
    }
    forall d | DelayedOk(a, before, d) ensures DelayedOk(b, after, d) {
      assert MessageOk(b, d.message);
    }
    forall d | DeadOk(a, before, d) ensures DeadOk(b, after, d) {
      assert MessageOk(b, d.message);
    }
  }

  lemma LiftContent(a: DB.Db, b: DB.Db, before: nat, after: nat, k: Consumer)
    requires DB.Evolves(a, b) && before <= after
    requires k.Up? && Content(a, before, k)
    ensures Content(b, after, k)
  {
    Lift(a, b, before, after);
    if k.phase.Succeeded? { assert Contract(a, k.phase.m.body.event); }
  }

  lemma NowGrows(s: State, a: Action)
    requires Enabled(s, a)
    ensures s.now <= Next(s, a).now
    ensures |Next(s, a).consumers| == |s.consumers|
  {
  }

  lemma LiftStep(s: State, a: Action)
    requires Inv(s) && Enabled(s, a)
    ensures DB.Evolves(s.db, Next(s, a).db) && s.now <= Next(s, a).now
    ensures forall e :: Contract(s.db, e) ==> Contract(Next(s, a).db, e)
    ensures forall m :: Ready(s.db, s.now, m) ==> Ready(Next(s, a).db, Next(s, a).now, m)
    ensures forall m :: CopyOk(s.db, s.now, m) ==> CopyOk(Next(s, a).db, Next(s, a).now, m)
    ensures forall d :: DelayedOk(s.db, s.now, d) ==> DelayedOk(Next(s, a).db, Next(s, a).now, d)
    ensures forall d :: DeadOk(s.db, s.now, d) ==> DeadOk(Next(s, a).db, Next(s, a).now, d)
  {
    DbKeeps(s, a);
    NowGrows(s, a);
    Lift(s.db, Next(s, a).db, s.now, Next(s, a).now);
  }

  // ---------------------------------------------------------------------
  // Queues

  /** A transaction that would write a faithful row. */
  ghost predicate FaithfulTx(db: DB.Db, tx: DB.Tx) {
    && tx.orderId in db.orders
    && tx.quantity == db.orders[tx.orderId].quantity
    && CanQuote(db.orders[tx.orderId].assetSymbol, tx.price)
  }

  lemma StepRowsStay(db: DB.Db, step: DB.Step)
    requires DB.Inv(db) && RowsFaithful(db) && DB.Enabled(db, step)
    requires step.Commit? ==> FaithfulTx(db, db.txs[step.t])
    ensures RowsFaithful(DB.Next(db, step))
  {
    DB.StepEvolves(db, step);
    var after := DB.Next(db, step);
    forall e | e in after.executions
      ensures e.orderId in after.orders && e.quantity == after.orders[e.orderId].quantity
      ensures CanQuote(after.orders[e.orderId].assetSymbol, e.price)
    {
      if e !in db.executions { assert step.Commit? && e == DB.Row(db.txs[step.t]); }
      assert NewOrderCreatedEvent(after.orders[e.orderId]) == NewOrderCreatedEvent(db.orders[e.orderId]);
    }
  }

  lemma ExecutingIsFaithful(s: State, c: Id)
    requires Inv(s) && c in s.db.txs
    ensures c < |s.consumers| && FaithfulTx(s.db, s.db.txs[c])
  {
    assert ConsumerInv(s.db, s.now, c, s.consumers[c]);
    assert Contract(s.db, s.consumers[c].phase.m.body.event);
  }

  lemma RowsStay(s: State, a: Action)
    requires Inv(s) && Enabled(s, a)
    ensures RowsFaithful(Next(s, a).db)
  {
    DbStepIs(s, a);
    if DbStep(s, a).Some? {
      var step := DbStep(s, a).value;
      if step.Commit? { ExecutingIsFaithful(s, step.t); }
      StepRowsStay(s.db, step);
    }
  }

  lemma ApiStays(s: State, a: Action)
    requires Inv(s) && Enabled(s, a)
    ensures forall e :: e in Next(s, a).api ==> Contract(Next(s, a).db, e)
    ensures forall id :: id in Next(s, a).published ==> id in Next(s, a).db.orders
  {
    LiftStep(s, a);
    forall e | e in Next(s, a).api ensures Contract(Next(s, a).db, e) {
      NewEvent(s, a, e);
    }
    forall id | id in Next(s, a).published ensures id in Next(s, a).db.orders {
      NewlyPublished(s, a, id);
    }
  }

  lemma NewEvent(s: State, a: Action, e: Event)
    requires Enabled(s, a) && e in Next(s, a).api
    ensures e in s.api || (a.Insert? && Contract(Next(s, a).db, e))
  {
  }

  lemma NewlyPublished(s: State, a: Action, id: Uuid)
    requires Enabled(s, a) && id in Next(s, a).published
    ensures id in s.published || exists e :: e in s.api && e.orderId == id
  {
    if a.PublishEvent? { assert s.api[a.i] in s.api; }
  }

  /** Every message that an action puts into the work queue was somewhere before. */
  lemma NewWork(s: State, a: Action, m: Message)
    requires Enabled(s, a) && m in Next(s, a).work && m !in s.work
    ensures
      || (a.PublishEvent? && m == Message(Encoded(s.api[a.i]), a.trace, []))
      || (a.Expire? && m == s.retry[0].message)
      || ((a.Process? || a.Disconnect? || a.Crash?) && IsUp(s, a.c) && s.consumers[a.c].unacked == Some(m))
  {
  }

  lemma WorkStays(s: State, a: Action)
    requires Inv(s) && Enabled(s, a)
    ensures forall m :: m in Next(s, a).work ==> Ready(Next(s, a).db, Next(s, a).now, m)
  {
    LiftStep(s, a);
    forall m | m in Next(s, a).work && m !in s.work ensures Ready(s.db, s.now, m) {
      NewWork(s, a, m);
      NewWorkIsReady(s, a, m);
    }
  }

  lemma NewWorkIsReady(s: State, a: Action, m: Message)
    requires Inv(s) && Enabled(s, a)
    requires
      || (a.PublishEvent? && m == Message(Encoded(s.api[a.i]), a.trace, []))
      || (a.Expire? && m == s.retry[0].message)
      || ((a.Process? || a.Disconnect? || a.Crash?) && IsUp(s, a.c) && s.consumers[a.c].unacked == Some(m))
    ensures Ready(s.db, s.now, m)
  {
    if a.PublishEvent? {
      assert Contract(s.db, s.api[a.i]);
    } else if a.Expire? {
      assert DelayedOk(s.db, s.now, s.retry[0]);
    } else {
      assert ConsumerInv(s.db, s.now, a.c, s.consumers[a.c]);
    }
  }

  lemma RetryStays(s: State, a: Action)
    requires Inv(s) && Enabled(s, a)
    ensures forall d :: d in Next(s, a).retry ==> DelayedOk(Next(s, a).db, Next(s, a).now, d)
  {
    LiftStep(s, a);
    if a.Process? {
      assert ConsumerInv(s.db, s.now, a.c, s.consumers[a.c]);
      assert s.consumers[a.c].sent[0] in s.consumers[a.c].sent;
    }
  }

  /** The retry queue loses its head or gains a last message that arrives now. */
  lemma RetryAfter(s: State, a: Action)
    requires Enabled(s, a)
    ensures var after := Next(s, a).retry;
      || after == s.retry
      || (s.retry != [] && after == s.retry[1..])
      || (exists m :: after == s.retry + [Delayed(m, s.now)])
  {
    if a.Process? && s.consumers[a.c].sent[0].Publish? {
      assert Next(s, a).retry == s.retry + [Delayed(s.consumers[a.c].sent[0].message, s.now)];
    }
  }

  lemma RetryStaysSorted(s: State, a: Action)
    requires Enabled(s, a) && Sorted(s.retry)
    requires forall d :: d in s.retry ==> d.since <= s.now
    ensures Sorted(Next(s, a).retry)
  {
    RetryAfter(s, a);
    assert forall i :: 0 <= i < |s.retry| ==> s.retry[i] in s.retry;
  }

  lemma DlqStays(s: State, a: Action)
    requires Inv(s) && Enabled(s, a)
    ensures forall d :: d in Next(s, a).dlq ==> DeadOk(Next(s, a).db, Next(s, a).now, d)
  {
    LiftStep(s, a);
    if a.Process? {
      assert ConsumerInv(s.db, s.now, a.c, s.consumers[a.c]);
      assert s.consumers[a.c].sent[0] in s.consumers[a.c].sent;
    }
  }

  // ---------------------------------------------------------------------
  // Consumers

  /** The consumer that an action is about. */
  function Actor(a: Action): Option<Id> {
    match a
    case Deliver(c, _) => Some(c)
    case Process(c) => Some(c)
    case Disconnect(c, _) => Some(c)
    case Crash(c, _) => Some(c)
    case Start(c) => Some(c)
    case Shutdown(c) => Some(c)
    case Take(c) => Some(c)
    case Stop(c) => Some(c)
    case Check(c) => Some(c)
    case Price(c, _) => Some(c)
    case Statement(c, _) => Some(c)
    case CommitReply(c, _) => Some(c)
    case ExistsReply(c) => Some(c)
    case StoreFails(c) => Some(c)
    case SendAck(c, _) => Some(c)
    case SendDiscard(c, _) => Some(c)
    case SendCopy(c, _) => Some(c)
    case SendRequeue(c, _) => Some(c)
    case _ => None
  }

  lemma OthersUntouched(s: State, a: Action, c: Id)
    requires Enabled(s, a) && c < |s.consumers| && Actor(a) != Some(c)
    ensures Next(s, a).consumers[c] == s.consumers[c]
    ensures c in Next(s, a).db.txs <==> c in s.db.txs
    ensures c in s.db.txs ==> Next(s, a).db.txs[c] == s.db.txs[c]
  {
    DbStepIs(s, a);
  }

  lemma OthersStay(s: State, a: Action, c: Id)
    requires Inv(s) && Enabled(s, a) && c < |s.consumers| && Actor(a) != Some(c)
    ensures ConsumerInv(Next(s, a).db, Next(s, a).now, c, Next(s, a).consumers[c])
  {
    OthersUntouched(s, a, c);
    LiftStep(s, a);
    var k := s.consumers[c];
    assert ConsumerInv(s.db, s.now, c, k);
    if k.Up? { LiftContent(s.db, Next(s, a).db, s.now, Next(s, a).now, k); }
  }

  /** A channel after its first frame was processed. */
  lemma ProcessShape(k: Consumer, unacked: Option<Message>)
    requires k.Up? && Shape(k) && k.sent != [] && k.sent[0] != Close
    requires unacked == if Settles(k.sent[0]) then None else k.unacked
    ensures Shape(k.(unacked := unacked, sent := k.sent[1..]))
  {
    var head, rest := k.sent[0], k.sent[1..];
    assert head in k.sent && k.sent == [head] + rest;
    assert forall f :: f in rest ==> f in k.sent && Rank(head) < Rank(f);
  }

  lemma SendShape(k: Consumer, frame: Frame)
    requires k.Up? && Shape(k) && k.connected && !Resting(k.phase)
    requires Settles(frame)
    ensures Shape(k.(phase := Idle, sent := k.sent + [frame]))
  {
    assert forall f :: f in k.sent ==> f != Close && !Settles(f);
    assert forall f :: f in k.sent ==> f.Publish?;
  }

  lemma CopyShape(k: Consumer, phase: Phase)
    requires k.Up? && Shape(k) && k.connected && k.phase.Failed?
    requires phase == Copied(k.phase.m) || phase == CopyFailed(k.phase.m)
    ensures Shape(k.(phase := phase, sent := k.sent + [Publish(RetryCopy(k.phase.m, k.phase.failedAt))]))
  {
    HeadIn(k.sent);
  }

  lemma LeaveShape(k: Consumer)
    requires k.Up? && Shape(k) && k.connected && k.phase.Idle?
    ensures Shape(k.(inbox := None, phase := Exited, sent := k.sent + [Close]))
  {
    assert forall f :: f in k.sent ==> f != Close;
  }

  predicate IsSending(a: Action) { a.SendAck? || a.SendDiscard? || a.SendCopy? || a.SendRequeue? }

  predicate IsChannel(a: Action) {
    a.Deliver? || a.Process? || a.Disconnect? || a.Crash? || a.Start? || a.Shutdown?
  }

  lemma ChannelShape(s: State, a: Action, c: Id)
    requires Enabled(s, a) && c < |s.consumers| && Actor(a) == Some(c) && IsChannel(a)
    requires s.consumers[c].Up? ==> Shape(s.consumers[c])
    requires Next(s, a).consumers[c].Up?
    ensures Shape(Next(s, a).consumers[c])
  {
    if a.Process? {
      var k := s.consumers[c];
      var k' := Next(s, a).consumers[c];
      assert k' == k.(unacked := if Settles(k.sent[0]) then None else k.unacked, sent := k.sent[1..]);
      ProcessShape(k, k'.unacked);
    }
  }

  lemma SendingShape(s: State, a: Action, c: Id)
    requires Enabled(s, a) && c < |s.consumers| && Actor(a) == Some(c) && IsSending(a)
    requires Shape(s.consumers[c])
    ensures Shape(Next(s, a).consumers[c])
  {
    var k := s.consumers[c];
    match a
    case SendAck(_, ok) => if ok { SendShape(k, Ack); }
    case SendDiscard(_, ok) => if ok { SendShape(k, Discard(k.phase.cause, k.phase.failedAt)); }
    case SendRequeue(_, ok) => if ok { SendShape(k, Requeue); }
    case SendCopy(_, sending) =>
      if sending != NotSent { CopyShape(k, Next(s, a).consumers[c].phase); }
  }

  lemma LoopShape(s: State, a: Action, c: Id)
    requires Enabled(s, a) && c < |s.consumers| && Actor(a) == Some(c) && !IsSending(a) && !IsChannel(a)
    requires Shape(s.consumers[c])
    requires Next(s, a).consumers[c].Up?
    ensures Shape(Next(s, a).consumers[c])
  {
    var k := s.consumers[c];
    if Moves(a) {
      KeepsMessage(s, a, c);
      MoveShape(k, Next(s, a).consumers[c].phase);
    } else if a.Stop? || k.shutdown {
      LeaveShape(k);
    }
  }

  lemma KeepsMessage(s: State, a: Action, c: Id)
    requires Enabled(s, a) && Actor(a) == Some(c) && Moves(a)
    ensures IsUp(s, c) && Handles(s.consumers[c].phase)
    ensures var k' := Next(s, a).consumers[c];
      && k' == s.consumers[c].(phase := k'.phase)
      && !Resting(k'.phase) && k'.phase.m == s.consumers[c].phase.m
  {
  }

  /** Before any frame about the delivery is sent. */
  predicate Handles(p: Phase) { p.Checking? || p.Pricing? || p.Executing? }

  lemma MoveShape(k: Consumer, phase: Phase)
    requires k.Up? && Shape(k) && Handles(k.phase) && !Resting(phase) && phase.m == k.phase.m
    ensures Shape(k.(phase := phase))
  {
  }

  /** Only handling moves a consumer into or out of its transaction. */
  lemma IdleLinked(s: State, a: Action, c: Id)
    requires Enabled(s, a) && c < |s.consumers| && Actor(a) == Some(c) && (IsSending(a) || a.Take? || a.Stop?)
    requires Linked(s.db, c, s.consumers[c])
    ensures Linked(Next(s, a).db, c, Next(s, a).consumers[c])
  {
  }

  lemma ChannelLinked(s: State, a: Action, c: Id)
    requires Enabled(s, a) && c < |s.consumers| && Actor(a) == Some(c) && IsChannel(a)
    requires Linked(s.db, c, s.consumers[c])
    requires s.consumers[c].Up? ==> Shape(s.consumers[c])
    ensures Linked(Next(s, a).db, c, Next(s, a).consumers[c])
  {
    if a.Process? { HeadIn(s.consumers[c].sent); }
  }

  lemma MovedLinked(s: State, a: Action, c: Id)
    requires Enabled(s, a) && c < |s.consumers| && Actor(a) == Some(c) && Moves(a)
    requires Linked(s.db, c, s.consumers[c]) && Content(s.db, s.now, s.consumers[c])
    ensures Linked(Next(s, a).db, c, Next(s, a).consumers[c])
  {
    DbStepIs(s, a);
    if a.Statement? { assert Contract(s.db, s.consumers[c].phase.m.body.event); }
  }

  lemma ActorLinked(s: State, a: Action, c: Id)
    requires Enabled(s, a) && c < |s.consumers| && Actor(a) == Some(c)
    requires ConsumerInv(s.db, s.now, c, s.consumers[c])
    ensures Linked(Next(s, a).db, c, Next(s, a).consumers[c])
  {
    if IsChannel(a) { ChannelLinked(s, a, c); }
    else if Moves(a) { MovedLinked(s, a, c); }
    else { IdleLinked(s, a, c); }
  }

  /** A consumer that holds nothing new. */
  lemma LessContent(db: DB.Db, now: nat, k: Consumer, k': Consumer)
    requires k.Up? && k'.Up? && Content(db, now, k)
    requires k'.unacked == k.unacked || k'.unacked.None?
    requires k'.inbox == k.inbox || k'.inbox.None?
    requires k'.phase == k.phase || Resting(k'.phase)
    requires forall f :: f in k'.sent ==> f in k.sent || f == Close || f == Ack || f == Requeue
    ensures Content(db, now, k')
  {
  }

  lemma DeliveredContent(db: DB.Db, now: nat, k: Consumer, m: Message)
    requires k.Up? && Shape(k) && Content(db, now, k) && k.unacked.None? && Ready(db, now, m)
    ensures Content(db, now, k.(unacked := Some(m), inbox := Some(m)))
  {
    assert forall f :: f in k.sent ==> !Settles(f);
  }

  lemma UsedChannel(s: State, a: Action, c: Id)
    requires Enabled(s, a) && Actor(a) == Some(c) && IsChannel(a) && !a.Deliver? && !a.Start?
    requires Next(s, a).consumers[c].Up?
    ensures IsUp(s, c)
    ensures var k := s.consumers[c]; var k' := Next(s, a).consumers[c];
      && (k'.unacked == k.unacked || k'.unacked.None?) && (k'.inbox == k.inbox || k'.inbox.None?)
      && k'.phase == k.phase && forall f :: f in k'.sent ==> f in k.sent
  {
    if a.Process? { ProcessedChannel(s, c); }
  }

  lemma ProcessedChannel(s: State, c: Id)
    requires Enabled(s, Process(c)) && Next(s, Process(c)).consumers[c].Up?
    ensures var k := s.consumers[c]; var k' := Next(s, Process(c)).consumers[c];
      && (k'.unacked == k.unacked || k'.unacked.None?) && k'.inbox == k.inbox && k'.phase == k.phase
      && k'.sent == k.sent[1..]
  {
  }

  /** The messages a consumer holds stay in order when its channel is used. */
  lemma ChannelContent(s: State, a: Action, c: Id)
    requires Enabled(s, a) && c < |s.consumers| && Actor(a) == Some(c) && IsChannel(a)
    requires a.Deliver? ==> Ready(s.db, s.now, s.work[a.i])
    requires s.consumers[c].Up? ==> Shape(s.consumers[c]) && Content(s.db, s.now, s.consumers[c])
    requires Next(s, a).consumers[c].Up?
    ensures Content(s.db, s.now, Next(s, a).consumers[c])
  {
    var k := s.consumers[c];
    var k' := Next(s, a).consumers[c];
    if a.Deliver? {
      DeliveredContent(s.db, s.now, k, s.work[a.i]);
    } else if !a.Start? {
      UsedChannel(s, a, c);
      LessContent(s.db, s.now, k, k');
    }
  }

  /** Moving on to another phase with the same delivery. */
  lemma PhaseContent(db: DB.Db, now: nat, k: Consumer, phase: Phase)
    requires k.Up? && Content(db, now, k) && !Resting(k.phase)
    requires !Resting(phase) && phase.m == k.phase.m
    requires phase.Failed? ==> phase.failedAt == now && Blameless(phase.m.body, phase.cause)
    requires phase.Succeeded? ==> !DB.IsPending(db.orders, k.phase.m.body.event.orderId)
    ensures Content(db, now, k.(phase := phase))
  {
  }

  /** Where an action of the handling itself leads. */
  predicate Moves(a: Action) { !IsSending(a) && !IsChannel(a) && !a.Take? && !a.Stop? }

  lemma MovedPhase(s: State, a: Action, c: Id)
    requires Enabled(s, a) && Actor(a) == Some(c) && Moves(a)
    requires a.Check? ==> Admit(s.consumers[c].phase.m.body).Ok?
    requires a.ExistsReply? ==> DB.ExistsReply(s.db, c)
    ensures IsUp(s, c) && !Resting(s.consumers[c].phase)
    ensures var k' := Next(s, a).consumers[c];
      && k' == s.consumers[c].(phase := k'.phase)
      && !Resting(k'.phase) && k'.phase.m == s.consumers[c].phase.m
      && (k'.phase.Failed? ==> k'.phase.failedAt == s.now && Blameless(k'.phase.m.body, k'.phase.cause))
      && (k'.phase.Succeeded? ==> a.CommitReply? || a.ExistsReply?)
  {
    var m := s.consumers[c].phase.m;
    StoreErrorsAreBlameless(m.body);
    if a.Price? && a.reply.NoQuote? { OutagesAreBlameless(m.body, a.reply.cause); }
  }

  /** Handling one delivery: no failure is the message's fault, success means the
      order is settled. */
  lemma LoopContent(s: State, a: Action, c: Id, db: DB.Db)
    requires Enabled(s, a) && c < |s.consumers| && Actor(a) == Some(c) && Moves(a)
    requires Content(db, s.now, s.consumers[c])
    requires a.Check? ==> Admit(s.consumers[c].phase.m.body).Ok?
    requires a.CommitReply? || a.ExistsReply? ==>
      !DB.IsPending(db.orders, s.consumers[c].phase.m.body.event.orderId)
    requires a.ExistsReply? ==> DB.ExistsReply(s.db, c)
    ensures Next(s, a).consumers[c].Up? && Content(db, s.now, Next(s, a).consumers[c])
  {
    MovedPhase(s, a, c);
    PhaseContent(db, s.now, s.consumers[c], Next(s, a).consumers[c].phase);
  }

  /** Reading the next delivery, or leaving. */
  lemma ReadingContent(s: State, a: Action, c: Id, db: DB.Db)
    requires Enabled(s, a) && Actor(a) == Some(c) && (a.Take? || a.Stop?)
    requires Content(db, s.now, s.consumers[c])
    requires Next(s, a).consumers[c].Up?
    ensures Content(db, s.now, Next(s, a).consumers[c])
  {
    var k := s.consumers[c];
    var k' := Next(s, a).consumers[c];
    if k'.phase.Exited? {
      assert k'.sent == k.sent + [Close];
      LessContent(db, s.now, k, k');
    }
  }

  /** Writing a frame about the failed delivery. */
  lemma DiscardContent(db: DB.Db, now: nat, k: Consumer)
    requires k.Up? && Shape(k) && Content(db, now, k) && k.connected && k.phase.Failed?
    requires Decide(k.phase.m, k.phase.cause) == GiveUp
    ensures Content(db, now, k.(phase := Idle, sent := k.sent + [Discard(k.phase.cause, k.phase.failedAt)]))
  {
    assert forall f :: f in k.sent ==> !Settles(f);
  }

  lemma CopyContent(db: DB.Db, now: nat, k: Consumer, phase: Phase)
    requires k.Up? && Content(db, now, k) && k.phase.Failed?
    requires phase == Copied(k.phase.m) || phase == CopyFailed(k.phase.m)
    requires Decide(k.phase.m, k.phase.cause) == RetryLater
    ensures Content(db, now, k.(phase := phase, sent := k.sent + [Publish(RetryCopy(k.phase.m, k.phase.failedAt))]))
  {
    RetryCopyCounts(k.phase.m, k.phase.failedAt);
    assert CopyOk(db, now, RetryCopy(k.phase.m, k.phase.failedAt));
  }

  lemma SendingContent(s: State, a: Action, c: Id)
    requires Enabled(s, a) && c < |s.consumers| && Actor(a) == Some(c) && IsSending(a)
    requires Shape(s.consumers[c]) && Content(s.db, s.now, s.consumers[c])
    ensures Content(s.db, s.now, Next(s, a).consumers[c])
  {
    var k := s.consumers[c];
    var k' := Next(s, a).consumers[c];
    if a.SendCopy? {
      if a.sending != NotSent { CopyContent(s.db, s.now, k, k'.phase); }
    } else if a.SendDiscard? && a.ok {
      DiscardContent(s.db, s.now, k);
    } else {
      LessContent(s.db, s.now, k, k');
    }
  }

  /** Whoever commits, or is told that the order exists, leaves it settled: the
      order was stored before the event that led here. */
  lemma OutcomeSettles(s: State, a: Action, c: Id)
    requires Inv(s) && Enabled(s, a) && Actor(a) == Some(c) && (a.CommitReply? || a.ExistsReply?)
    ensures s.consumers[c].phase.m.body.Encoded?
    ensures !DB.IsPending(Next(s, a).db.orders, s.consumers[c].phase.m.body.event.orderId)
    ensures a.ExistsReply? ==> DB.ExistsReply(s.db, c)
  {
    assert ConsumerInv(s.db, s.now, c, s.consumers[c]);
    assert Contract(s.db, s.consumers[c].phase.m.body.event);
    assert DB.TxInv(s.db, c);
  }

  lemma ActorShape(s: State, a: Action, c: Id)
    requires Enabled(s, a) && c < |s.consumers| && Actor(a) == Some(c)
    requires s.consumers[c].Up? ==> Shape(s.consumers[c])
    requires Next(s, a).consumers[c].Up?
    ensures Shape(Next(s, a).consumers[c])
  {
    if IsSending(a) { SendingShape(s, a, c); }
    else if IsChannel(a) { ChannelShape(s, a, c); }
    else { LoopShape(s, a, c); }
  }

  /** Reading, sending and the channel leave the database and the clock alone. */
  lemma OnlyHandlingTouchesDb(s: State, a: Action, c: Id)
    requires Enabled(s, a) && Actor(a) == Some(c)
    requires Next(s, a).consumers[c].Up?
    ensures Next(s, a).now == s.now
    ensures IsSending(a) || IsChannel(a) ==> Next(s, a).db == s.db
  {
  }

  lemma HandlingContent(s: State, a: Action, c: Id)
    requires Inv(s) && Enabled(s, a) && c < |s.consumers| && Actor(a) == Some(c)
    requires !IsSending(a) && !IsChannel(a)
    requires Next(s, a).consumers[c].Up?
    ensures Content(Next(s, a).db, s.now, Next(s, a).consumers[c])
  {
    assert ConsumerInv(s.db, s.now, c, s.consumers[c]);
    if a.CommitReply? || a.ExistsReply? { OutcomeSettles(s, a, c); }
    DbKeeps(s, a);
    LiftContent(s.db, Next(s, a).db, s.now, s.now, s.consumers[c]);
    if a.Check? { assert Contract(s.db, s.consumers[c].phase.m.body.event); }
    if Moves(a) { LoopContent(s, a, c, Next(s, a).db); } else { ReadingContent(s, a, c, Next(s, a).db); }
  }

  lemma ActorContent(s: State, a: Action, c: Id)
    requires Inv(s) && Enabled(s, a) && c < |s.consumers| && Actor(a) == Some(c)
    requires Next(s, a).consumers[c].Up?
    ensures Content(Next(s, a).db, Next(s, a).now, Next(s, a).consumers[c])
  {
    OnlyHandlingTouchesDb(s, a, c);
    assert ConsumerInv(s.db, s.now, c, s.consumers[c]);
    if IsSending(a) { SendingContent(s, a, c); }
    else if IsChannel(a) { ChannelContent(s, a, c); }
    else { HandlingContent(s, a, c); }
  }

  lemma ActorStays(s: State, a: Action, c: Id)
    requires Inv(s) && Enabled(s, a) && c < |s.consumers| && Actor(a) == Some(c)
    ensures ConsumerInv(Next(s, a).db, Next(s, a).now, c, Next(s, a).consumers[c])
  {
    assert ConsumerInv(s.db, s.now, c, s.consumers[c]);
    ActorLinked(s, a, c);
    if Next(s, a).consumers[c].Up? {
      ActorShape(s, a, c);
      ActorContent(s, a, c);
    }
  }

  lemma TransactionsStay(s: State, a: Action)
    requires Inv(s) && Enabled(s, a)
    ensures forall t :: t in Next(s, a).db.txs ==> t < |Next(s, a).consumers|
  {
    DbStepIs(s, a);
    NowGrows(s, a);
  }

  lemma StepKeepsInv(s: State, a: Action)
    requires Inv(s) && Enabled(s, a)
    ensures Inv(Next(s, a))
  {
    DbKeeps(s, a);
    RowsStay(s, a);
    TransactionsStay(s, a);
    ApiStays(s, a);
    QueuesStay(s, a);
    ConsumersStay(s, a);
  }

  lemma QueuesStay(s: State, a: Action)
    requires Inv(s) && Enabled(s, a)
    ensures var after := Next(s, a);
      && (forall m :: m in after.work ==> Ready(after.db, after.now, m))
      && (forall d :: d in after.retry ==> DelayedOk(after.db, after.now, d))
      && Sorted(after.retry)
      && (forall d :: d in after.dlq ==> DeadOk(after.db, after.now, d))
  {
    WorkStays(s, a);
    RetryStays(s, a);
    assert forall d :: d in s.retry ==> DelayedOk(s.db, s.now, d);
    RetryStaysSorted(s, a);
    DlqStays(s, a);
  }

  lemma ConsumersStay(s: State, a: Action)
    requires Inv(s) && Enabled(s, a)
    ensures forall c :: 0 <= c < |Next(s, a).consumers| ==>
      ConsumerInv(Next(s, a).db, Next(s, a).now, c, Next(s, a).consumers[c])
  {
    NowGrows(s, a);
    forall c | 0 <= c < |Next(s, a).consumers|
      ensures ConsumerInv(Next(s, a).db, Next(s, a).now, c, Next(s, a).consumers[c])
    {
      if Actor(a) == Some(c) { ActorStays(s, a, c); } else { OthersStay(s, a, c); }
    }
  }

  lemma {:induction false} RunKeepsInv(s: State, actions: seq<Action>)
    requires Inv(s) && ValidRun(s, actions)
    ensures Inv(Run(s, actions)) && DB.Evolves(s.db, Run(s, actions).db)
    decreases |actions|
  {
    if actions != [] {
      StepKeepsInv(s, actions[0]);
      DbKeeps(s, actions[0]);
      RunKeepsInv(Next(s, actions[0]), actions[1..]);
    }
  }
}
