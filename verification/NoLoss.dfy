/** No event that reached the work queue is lost while its order is PENDING. */
module NoLoss {
  import opened Prelude
  import opened Orders
  import opened Delivery
  import opened Protocol
  import opened ProtocolInvariant
  import P = ProtocolPreservation
  import DB = Database
  import Guarantees

  predicate About(m: Message, id: Uuid) { m.body.Encoded? && m.body.event.orderId == id }

  ghost predicate InWork(s: State, id: Uuid) { exists m :: m in s.work && About(m, id) }

  ghost predicate InRetry(s: State, id: Uuid) { exists d :: d in s.retry && About(d.message, id) }

  ghost predicate InDlq(s: State, id: Uuid) { exists d :: d in s.dlq && About(d.message, id) }

  predicate Unacked(k: Consumer, id: Uuid) { k.Up? && k.unacked.Some? && About(k.unacked.value, id) }

  ghost predicate InFlight(s: State, id: Uuid) {
    exists c :: 0 <= c < |s.consumers| && Unacked(s.consumers[c], id)
  }

  /** A copy of the event is somewhere in the broker. */
  ghost predicate Present(s: State, id: Uuid) {
    InWork(s, id) || InRetry(s, id) || InDlq(s, id) || InFlight(s, id)
  }

  /** The process has sent the retry copy or the ack, or is about to send the ack. */
  predicate AckComing(k: Consumer)
    requires k.Up?
  {
    k.phase.Copied? || Ack in k.sent
  }

  predicate CopyFirst(k: Consumer)
    requires k.Up?
  {
    k.sent != [] && k.sent[0].Publish?
  }

  /** An unacked delivery that does not count on a copy made elsewhere: no ack is
      coming, or the copy still lies before the ack on the same channel. */
  predicate Secures(k: Consumer, id: Uuid) {
    Unacked(k, id) && (!AckComing(k) || CopyFirst(k))
  }

  ghost predicate SecuredBy(s: State, id: Uuid) {
    exists c :: 0 <= c < |s.consumers| && Secures(s.consumers[c], id)
  }

  /** The inductive form: what an ack is about to remove is not counted. */
  ghost predicate Safe(s: State, id: Uuid) {
    !DB.IsPending(s.db.orders, id) || InWork(s, id) || InRetry(s, id) || InDlq(s, id) || SecuredBy(s, id)
  }

  lemma WorkStaysSafe(s: State, a: Action, id: Uuid)
    requires Inv(s) && Enabled(s, a) && InWork(s, id)
    ensures InWork(Next(s, a), id) || SecuredBy(Next(s, a), id)
  {
    var m :| m in s.work && About(m, id);
    if a.Deliver? && m !in Without(s.work, a.i) {
      assert ConsumerInv(s.db, s.now, a.c, s.consumers[a.c]);
      DeliveredIsSecured(s, a.c, a.i, id);
    } else {
      WorkRemains(s, a, m);
    }
  }

  lemma DeliveredIsSecured(s: State, c: Id, i: nat, id: Uuid)
    requires Enabled(s, Deliver(c, i)) && Shape(s.consumers[c]) && About(s.work[i], id)
    ensures SecuredBy(Next(s, Deliver(c, i)), id)
  {
    assert Ack !in s.consumers[c].sent by { assert Settles(Ack); }
    assert Secures(Next(s, Deliver(c, i)).consumers[c], id);
  }

  /** Only a delivery takes a message from the work queue. */
  lemma WorkRemains(s: State, a: Action, m: Message)
    requires Enabled(s, a) && m in s.work && (a.Deliver? ==> m in Without(s.work, a.i))
    ensures m in Next(s, a).work
  {
  }

  lemma RetryStaysSafe(s: State, a: Action, id: Uuid)
    requires Enabled(s, a) && InRetry(s, id)
    ensures InWork(Next(s, a), id) || InRetry(Next(s, a), id)
  {
    var d :| d in s.retry && About(d.message, id);
    if a.Expire? {
      assert s.retry == [s.retry[0]] + s.retry[1..];
      assert Next(s, a).work[|s.work|] == s.retry[0].message;
      assert d == s.retry[0] || d in Next(s, a).retry;
    } else {
      assert d in Next(s, a).retry;
    }
  }

  lemma DlqStaysSafe(s: State, a: Action, id: Uuid)
    requires Enabled(s, a) && InDlq(s, id)
    ensures InDlq(Next(s, a), id)
  {
    var d :| d in s.dlq && About(d.message, id);
    assert d in Next(s, a).dlq;
  }

  /** Whatever the broker takes back is in the work queue again. */
  lemma TakenBack(s: State, k: Consumer, id: Uuid)
    requires Unacked(k, id)
    ensures InWork(TakeBack(s, k), id)
  {
    assert k.unacked.value in TakeBack(s, k).work;
  }

  lemma ProcessStaysSafe(s: State, c: Id, id: Uuid)
    requires Enabled(s, Process(c)) && ConsumerInv(s.db, s.now, c, s.consumers[c])
    requires Secures(s.consumers[c], id)
    ensures Safe(Next(s, Process(c)), id)
  {
    var k := s.consumers[c];
    var after := Next(s, Process(c));
    assert k.sent[0] in k.sent;
    match k.sent[0]
    case Publish(m) =>
      assert after.retry[|s.retry|] == Delayed(m, s.now);
    case Ack =>
    case Requeue => TakenBack(s, k, id);
    case Discard(cause, failedAt) =>
      assert after.dlq[|s.dlq|].message == k.unacked.value;
    case Close => TakenBack(s, k, id);
  }

  predicate SuccessIsSettled(db: DB.Db, k: Consumer) {
    k.Up? && k.phase.Succeeded? ==>
      k.phase.m.body.Encoded? && !DB.IsPending(db.orders, k.phase.m.body.event.orderId)
  }

  lemma SendingStaysSafe(s: State, a: Action, c: Id, id: Uuid)
    requires Enabled(s, a) && P.Actor(a) == Some(c) && P.IsSending(a)
    requires Shape(s.consumers[c]) && SuccessIsSettled(s.db, s.consumers[c])
    requires Secures(s.consumers[c], id)
    ensures !DB.IsPending(s.db.orders, id) || Secures(Next(s, a).consumers[c], id)
  {
    var k := s.consumers[c];
    HeadIn(k.sent);
    assert forall f :: f in k.sent ==> f.Publish?;
  }

  lemma HolderStaysSafe(s: State, a: Action, c: Id, id: Uuid)
    requires Inv(s) && Enabled(s, a) && c < |s.consumers| && P.Actor(a) == Some(c)
    requires DB.IsPending(s.db.orders, id) && Secures(s.consumers[c], id)
    ensures Safe(Next(s, a), id)
  {
    var k := s.consumers[c];
    assert ConsumerInv(s.db, s.now, c, k);
    var after := Next(s, a);
    if a.Process? {
      ProcessStaysSafe(s, c, id);
    } else if P.IsSending(a) {
      SendingStaysSafe(s, a, c, id);
    } else if a.Disconnect? || a.Crash? {
      GoneTakesBack(s, a, c);
      TakenBack(s, k, id);
    } else {
      HolderKeeps(s, a, c, id);
    }
  }

  lemma GoneTakesBack(s: State, a: Action, c: Id)
    requires Enabled(s, a) && P.Actor(a) == Some(c) && (a.Disconnect? || a.Crash?)
    ensures Next(s, a).work == TakeBack(s, s.consumers[c]).work
  {
  }

  /** Handling keeps the delivery unacked and writes no ack. */
  lemma HolderKeeps(s: State, a: Action, c: Id, id: Uuid)
    requires Enabled(s, a) && c < |s.consumers| && P.Actor(a) == Some(c)
    requires !a.Process? && !P.IsSending(a) && !a.Disconnect? && !a.Crash?
    requires Secures(s.consumers[c], id) && Shape(s.consumers[c])
    ensures |Next(s, a).consumers| == |s.consumers| && Secures(Next(s, a).consumers[c], id)
  {
  }

  lemma StepStaysSafe(s: State, a: Action, id: Uuid)
    requires Inv(s) && Enabled(s, a) && Safe(s, id) && id in s.db.orders
    ensures Safe(Next(s, a), id)
  {
    DbKeeps(s, a);
    if InWork(s, id) { WorkStaysSafe(s, a, id); }
    else if InRetry(s, id) { RetryStaysSafe(s, a, id); }
    else if InDlq(s, id) { DlqStaysSafe(s, a, id); }
    else if DB.IsPending(s.db.orders, id) {
      var c :| 0 <= c < |s.consumers| && Secures(s.consumers[c], id);
      if P.Actor(a) == Some(c) {
        HolderStaysSafe(s, a, c, id);
      } else {
        P.OthersUntouched(s, a, c);
        P.NowGrows(s, a);
      }
    }
  }

  lemma PublishedIsSafe(s: State, a: Action, id: Uuid)
    requires Inv(s) && Enabled(s, a)
    requires id in Next(s, a).published && id !in s.published
    ensures Safe(Next(s, a), id)
  {
    var m := Message(Encoded(s.api[a.i]), a.trace, []);
    assert m in Next(s, a).work && About(m, id);
  }

  ghost predicate AllSafe(s: State) { forall id :: id in s.published ==> Safe(s, id) }

  lemma {:induction false} RunStaysSafe(s: State, actions: seq<Action>)
    requires Inv(s) && AllSafe(s) && ValidRun(s, actions)
    ensures AllSafe(Run(s, actions))
    decreases |actions|
  {
    if actions != [] {
      var a := actions[0];
      P.StepKeepsInv(s, a);
      forall id | id in Next(s, a).published ensures Safe(Next(s, a), id) {
        if id in s.published { StepStaysSafe(s, a, id); } else { PublishedIsSafe(s, a, id); }
      }
      RunStaysSafe(Next(s, a), actions[1..]);
    }
  }

  /** Without publisher confirms and with any faults: once an event is in the work
      queue, a copy of it stays in the broker until its order is settled. */
  lemma NoMessageLost(n: nat, actions: seq<Action>)
    requires ValidRun(Init(n), actions)
    ensures var s := Run(Init(n), actions);
      forall id :: id in s.published && DB.IsPending(s.db.orders, id) ==> Present(s, id)
  {
    InitInv(n);
    RunStaysSafe(Init(n), actions);
    var s := Run(Init(n), actions);
    forall id | id in s.published && DB.IsPending(s.db.orders, id) ensures Present(s, id) {
      assert Safe(s, id);
      SafeIsPresent(s, id);
    }
  }

  lemma {:induction false} StaysSafe(s: State, actions: seq<Action>, id: Uuid)
    requires Inv(s) && ValidRun(s, actions) && Safe(s, id) && id in s.db.orders
    ensures Safe(Run(s, actions), id) && id in Run(s, actions).db.orders
    decreases |actions|
  {
    if actions != [] {
      StepStaysSafe(s, actions[0], id);
      DbKeeps(s, actions[0]);
      P.StepKeepsInv(s, actions[0]);
      StaysSafe(Next(s, actions[0]), actions[1..], id);
    }
  }

  lemma SafeIsPresent(s: State, id: Uuid)
    requires Safe(s, id) && DB.IsPending(s.db.orders, id)
    ensures Present(s, id)
  {
    if SecuredBy(s, id) {
      var c :| 0 <= c < |s.consumers| && Secures(s.consumers[c], id);
      assert Unacked(s.consumers[c], id);
    }
  }

  /** From the step that publishes an event on: while its order is PENDING, a copy of the
      event is queued, delayed, dead-lettered or unacked. */
  lemma PublishedIsNotLost(s: State, i: nat, trace: Headers, actions: seq<Action>)
    requires Guarantees.Reachable(s) && Enabled(s, PublishEvent(i, trace))
    requires ValidRun(Next(s, PublishEvent(i, trace)), actions)
    ensures var id := s.api[i].orderId;
      var after := Run(Next(s, PublishEvent(i, trace)), actions);
      && id in after.db.orders
      && (after.db.orders[id].status == Pending ==> Present(after, id))
  {
    var a := PublishEvent(i, trace);
    var id := s.api[i].orderId;
    Guarantees.ReachableInv(s);
    P.StepKeepsInv(s, a);
    PublishReaches(s, i, trace);
    StaysSafe(Next(s, a), actions, id);
    var after := Run(Next(s, a), actions);
    if DB.IsPending(after.db.orders, id) { SafeIsPresent(after, id); }
  }

  lemma PublishReaches(s: State, i: nat, trace: Headers)
    requires Inv(s) && Enabled(s, PublishEvent(i, trace))
    ensures var after := Next(s, PublishEvent(i, trace));
      InWork(after, s.api[i].orderId) && s.api[i].orderId in after.db.orders
  {
    var m := Message(Encoded(s.api[i]), trace, []);
    assert m in Next(s, PublishEvent(i, trace)).work && About(m, s.api[i].orderId);
    assert Contract(s.db, s.api[i]);
  }
}
