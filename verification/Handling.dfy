/** handleOrderCreated of internal/execution/handler.go, and the consumer loop of
    internal/execution/consumer.go that calls it. */
module Handling {
  import opened Prelude
  import opened Orders
  import opened Delivery
  import opened Store
  import opened Protocol
  import Failure
  import DB = Database

  /** Whether the message's order is stored, and settled, in a database state. */
  predicate OrderKnown(db: DB.Db, body: Payload) { body.Encoded? && body.event.orderId in db.orders }

  predicate OrderSettled(db: DB.Db, body: Payload) {
    OrderKnown(db, body) && !DB.IsPending(db.orders, body.event.orderId)
  }

  /** handleOrderCreated. reply is what the price service answers, t the name of the
      transaction that the call may begin. */
  method HandleOrderCreated(store: OrderStore, body: Payload, reply: PriceReply, t: DB.TxId, schedule: Schedule)
    returns (err: Option<Failure.Error>)
    requires store.Valid() && store.Fresh(t)
    modifies store
    ensures store.Valid() && DB.Evolves(old(store.db), store.db)
    // A message that is no event, or one that breaks the contract, is to blame itself:
    // it fails for good, before the price and the store are asked. No other message is.
    ensures Unusable(body) ==>
      && err.Some? && Failure.InvalidEvent in Failure.Leaves(err.value)
      && Failure.Classify(err.value) == Failure.Permanent && store.trace == old(store.trace)
    ensures !Unusable(body) && err.Some? && Failure.InvalidEvent in Failure.Leaves(err.value) ==>
      reply.NoQuote? && Failure.InvalidEvent in Failure.Leaves(reply.cause)
    // A message that is not a valid event, or has no price, never reaches the store.
    ensures Admit(body).Err? ==> err == Some(Admit(body).error)
    ensures Admit(body).Ok? && reply.NoQuote? ==> err == Some(PriceError(reply.cause))
    ensures Admit(body).Err? || reply.NoQuote? ==> store.trace == old(store.trace)
    // Otherwise one call of ExecuteOrder, with the event's order and quantity, decides.
    ensures Admit(body).Ok? && reply.Quoted? ==>
      var e := body.event; var own := OwnSteps(store.trace, t);
      match err
      case None =>
        || (Executes(own, t, e.orderId, reply.price, e.quantity) && DB.IsExecuted(store.db.orders, e.orderId))
        || (Looks(own, t, e.orderId, reply.price, e.quantity) && OrderKnown(store.db, body))
      case Some(cause) =>
        || (cause == NOT_FOUND_ERROR && !OrderKnown(old(store.db), body)
            && Looks(own, t, e.orderId, reply.price, e.quantity))
        || (cause == STORE_ERROR && (schedule.fault != NoFault || e.orderId in store.db.locks)
            && (GivesUp(own, t, e.orderId, reply.price, e.quantity) || schedule.fault.CommitReplyLost?))
    // Success settles every order that was stored before the call.
    ensures err.None? && OrderKnown(old(store.db), body) ==> OrderSettled(store.db, body)
    // A duplicate succeeds exactly as far as its price lookup and the store let it.
    ensures Admit(body).Ok? && OrderSettled(old(store.db), body) && schedule.fault == NoFault ==>
      (err.None? <==> reply.Quoted?)
  {
    var event: Event;
    UnusableIff(body);
    WrappedLeaves(reply);
    match Admit(body) {
      case Err(e) =>
        return Some(e);
      case Ok(decoded) =>
        event := decoded;
    }
    var price: real;
    match reply {
      case NoQuote(cause) =>
        return Some(PriceError(cause));
      case Quoted(quoted) =>
        price := quoted;
    }
    var executed, failure := store.ExecuteOrder(t, event.orderId, price, event.quantity, schedule);
    if event.orderId in store.db.locks {
      assert DB.TxInv(store.db, store.db.locks[event.orderId]);
    }
    if failure.Some? {
      return Some(Failure.Wrap(failure.value));
    }
    return None;
  }

  lemma WrappedLeaves(reply: PriceReply)
    ensures reply.NoQuote? ==> Failure.Leaves(PriceError(reply.cause)) == Failure.Leaves(reply.cause)
    ensures Failure.Leaves(STORE_ERROR) == [Failure.Plain]
    ensures Failure.Leaves(NOT_FOUND_ERROR) == [Failure.OrderNotFound]
  {
    if reply.NoQuote? { assert Failure.Leaves(Failure.Wrap(reply.cause)) == Failure.Leaves(reply.cause); }
    assert Failure.Leaves(Failure.Wrap(Failure.Plain)) == [Failure.Plain];
  }

  // ---------------------------------------------------------------------
  // The consumer loop

  /** A delivery and everything the outside decides about its handling: the price,
      the database, the clock, and whether the calls on the channel succeed. */
  datatype Attempt = Attempt(
    m: Message, reply: PriceReply, schedule: Schedule, failedAt: nat, sending: Sending, settled: bool)

  datatype Input = Arrives(attempt: Attempt) | ShutdownRequested | DeliveriesClosed

  datatype Exit = CleanExit | ClosedError | StillRunning

  /** A delivery that was handled, with the error of its handling. */
  datatype Handled = Handled(attempt: Attempt, result: Option<Failure.Error>)

  /** What one handled delivery puts on the channel. */
  function Frames(h: Handled): seq<Frame> {
    var a := h.attempt;
    var settle := (f: Frame) => if a.settled then [f] else [];
    match h.result
    case None => settle(Ack)
    case Some(cause) =>
      if Decide(a.m, cause) == GiveUp then settle(Discard(cause, a.failedAt))
      else
        var copy := Publish(RetryCopy(a.m, a.failedAt));
        match a.sending
        case Sent => [copy] + settle(Ack)
        case NotSent => settle(Requeue)
        case SentButError => [copy] + settle(Requeue)
  }

  function AllFrames(hs: seq<Handled>): seq<Frame> {
    if hs == [] then [] else AllFrames(hs[..|hs| - 1]) + Frames(hs[|hs| - 1])
  }

  /** The deliveries that the loop takes up: those before a shutdown or the end. */
  function TakenUp(inputs: seq<Input>): seq<Attempt> {
    if inputs == [] || !inputs[0].Arrives? then [] else [inputs[0].attempt] + TakenUp(inputs[1..])
  }

  function ExitOf(inputs: seq<Input>, cancelled: bool): Exit {
    if inputs == [] then (if cancelled then CleanExit else StillRunning)
    else match inputs[0]
      case ShutdownRequested => ExitOf(inputs[1..], true)
      case DeliveriesClosed => ClosedError
      case Arrives(_) => if cancelled then CleanExit else ExitOf(inputs[1..], false)
  }

  predicate ShutdownBefore(inputs: seq<Input>, i: int) {
    exists k :: 0 <= k < i && k < |inputs| && inputs[k].ShutdownRequested?
  }

  predicate ClosedBefore(inputs: seq<Input>, i: int) {
    exists k :: 0 <= k < i && k < |inputs| && inputs[k].DeliveriesClosed?
  }

  /** A delivery arrives after a shutdown request, with the deliveries still open. */
  predicate ArrivesLate(inputs: seq<Input>, i: int) {
    0 <= i < |inputs| && inputs[i].Arrives? && ShutdownBefore(inputs, i) && !ClosedBefore(inputs, i)
  }

  /** The loop ends with an error: the deliveries close, and no delivery arrived late
      before that. */
  ghost predicate EndsClosed(inputs: seq<Input>) {
    exists j :: 0 <= j < |inputs| && inputs[j].DeliveriesClosed? && !ClosedBefore(inputs, j)
      && forall i :: 0 <= i < j ==> !ArrivesLate(inputs, i)
  }

  /** The loop ends clean: after a shutdown request a delivery arrives, or nothing more
      does, before the deliveries close. */
  ghost predicate EndsClean(inputs: seq<Input>) {
    || (exists i :: ArrivesLate(inputs, i))
    || (ShutdownBefore(inputs, |inputs|) && !ClosedBefore(inputs, |inputs|))
  }

  /** The loop goes on: neither has happened. */
  predicate GoesOn(inputs: seq<Input>) {
    !ShutdownBefore(inputs, |inputs|) && !ClosedBefore(inputs, |inputs|)
  }

  /** How the loop ends from position n on, when nothing before n ended it. */
  lemma {:induction false} ExitByPosition(inputs: seq<Input>, n: nat)
    requires n <= |inputs| && !ClosedBefore(inputs, n) && forall i :: 0 <= i < n ==> !ArrivesLate(inputs, i)
    ensures ExitOf(inputs[n..], ShutdownBefore(inputs, n)).ClosedError? <==> EndsClosed(inputs)
    ensures ExitOf(inputs[n..], ShutdownBefore(inputs, n)).CleanExit? <==> EndsClean(inputs)
    ensures ExitOf(inputs[n..], ShutdownBefore(inputs, n)).StillRunning? <==> GoesOn(inputs)
    decreases |inputs| - n
  {
    if n == |inputs| {
      assert inputs[n..] == [];
    } else {
      assert inputs[n..][0] == inputs[n] && inputs[n..][1..] == inputs[n + 1..];
      if inputs[n].DeliveriesClosed? {
        assert ClosedBefore(inputs, |inputs|);
      } else if inputs[n].Arrives? && ShutdownBefore(inputs, n) {
        assert ArrivesLate(inputs, n);
      } else {
        assert ShutdownBefore(inputs, n + 1) <==> ShutdownBefore(inputs, n) || inputs[n].ShutdownRequested?;
        ExitByPosition(inputs, n + 1);
      }
    }
  }

  /** The deliveries handled are the arrivals up to the first other input. */
  ghost predicate ArrivalsBefore(inputs: seq<Input>, handled: seq<Attempt>) {
    && |handled| <= |inputs|
    && (forall i :: 0 <= i < |handled| ==> inputs[i] == Arrives(handled[i]))
    && (|handled| < |inputs| ==> !inputs[|handled|].Arrives?)
  }

  lemma {:induction false} TakenUpAreArrivals(inputs: seq<Input>)
    ensures ArrivalsBefore(inputs, TakenUp(inputs))
  {
    if inputs != [] && inputs[0].Arrives? {
      TakenUpAreArrivals(inputs[1..]);
      var rest := TakenUp(inputs[1..]);
      forall i | 0 <= i < |rest| + 1 ensures inputs[i] == Arrives(TakenUp(inputs)[i]) {
        if i > 0 { assert inputs[1..][i - 1] == Arrives(rest[i - 1]); }
      }
    }
  }

  lemma ExitAndArrivals(inputs: seq<Input>)
    ensures ExitOf(inputs, false).ClosedError? <==> EndsClosed(inputs)
    ensures ExitOf(inputs, false).CleanExit? <==> EndsClean(inputs)
    ensures ExitOf(inputs, false).StillRunning? <==> GoesOn(inputs)
    ensures ArrivalsBefore(inputs, TakenUp(inputs))
  {
    ExitByPosition(inputs, 0);
    TakenUpAreArrivals(inputs);
    assert inputs[0..] == inputs;
  }

  /** Copying a header table key by key into a fresh one. */
  method CopyHeaders(headers: Headers) returns (copy: Headers)
    ensures copy == headers
  {
    copy := map[];
    var keys := headers.Keys;
    while keys != {}
      invariant keys <= headers.Keys && copy.Keys == headers.Keys - keys
      invariant forall k :: k in copy ==> copy[k] == headers[k]
      decreases |keys|
    {
      var k :| k in keys;
      copy := copy[k := headers[k]];
      keys := keys - {k};
    }
  }

  class ConsumerLoop {
    const store: OrderStore
    var sent: seq<Frame>

    constructor (store: OrderStore)
      ensures this.store == store && sent == []
    {
      this.store := store;
      sent := [];
    }

    /** Settlement of a handled delivery. */
    method Settle(a: Attempt, result: Option<Failure.Error>)
      modifies this`sent
      ensures sent == old(sent) + Frames(Handled(a, result))
    {
      if result.Some? {
        var failure := Failure.Classify(result.value);
        var attempt := RetryAttempt(a.m.headers);
        var outOfRetries := attempt + 1 >= MAX_DELIVERY_ATTEMPTS;
        if failure == Failure.Permanent || outOfRetries {
          if a.settled {
            sent := sent + [Discard(result.value, a.failedAt)];
          }
          return;
        }
        var retryHeaders := CopyHeaders(a.m.headers);
        retryHeaders := retryHeaders[RETRY_COUNT_HEADER := Int32(attempt + 1)];
        var retryMsg := Message(a.m.body, retryHeaders, a.m.failures + [a.failedAt]);
        if a.sending != NotSent {
          sent := sent + [Publish(retryMsg)];
        }
        if a.sending != Sent {
          if a.settled {
            sent := sent + [Requeue];
          }
          return;
        }
      }
      if a.settled {
        sent := sent + [Ack];
      }
    }

    /** One turn of the loop with a delivery. */
    method HandleDelivery(a: Attempt) returns (ghost h: Handled)
      requires store.Valid()
      modifies this, store
      ensures store.Valid() && DB.Evolves(old(store.db), store.db)
      ensures h.attempt == a && sent == old(sent) + Frames(h)
      ensures Answers(h, old(store.db), store.db)
    {
      var result := HandleOrderCreated(store, a.m.body, a.reply, store.unused, a.schedule);
      Settle(a, result);
      h := Handled(a, result);
    }

    /** Run: the select loop, with the outside as a sequence of inputs. A select that
        sees a delivery and the shutdown together may pick either. */
    method Run(inputs: seq<Input>) returns (exit: Exit, ghost done: seq<Handled>)
      requires store.Valid()
      modifies this, store
      ensures store.Valid() && DB.Evolves(old(store.db), store.db)
      ensures exit.ClosedError? <==> EndsClosed(inputs)
      ensures exit.CleanExit? <==> EndsClean(inputs)
      ensures exit.StillRunning? <==> GoesOn(inputs)
      // It handles the deliveries before the shutdown, in order, and settles each.
      ensures ArrivalsBefore(inputs, Attempts(done))
      ensures sent == old(sent) + AllFrames(done)
      // Each result is the one that the delivery's handling returned.
      ensures AllAnswer(done, old(store.db), store.db)
    {
      exit, done := Loop(inputs);
      ExitAndArrivals(inputs);
    }

    /** The for statement of Run. */
    method Loop(inputs: seq<Input>) returns (exit: Exit, ghost done: seq<Handled>)
      requires store.Valid()
      modifies this, store
      ensures store.Valid() && DB.Evolves(old(store.db), store.db)
      ensures exit == ExitOf(inputs, false)
      ensures Attempts(done) == TakenUp(inputs)
      ensures sent == old(sent) + AllFrames(done)
      ensures AllAnswer(done, old(store.db), store.db)
    {
      var i, cancelled := 0, false;
      assert inputs[0..] == inputs;
      done := [];
      exit := StillRunning;
      while i < |inputs| && exit == StillRunning
        invariant 0 <= i <= |inputs|
        invariant store.Valid() && DB.Evolves(old(store.db), store.db)
        invariant ExitOf(inputs, false) == if exit != StillRunning then exit else ExitOf(inputs[i..], cancelled)
        invariant sent == old(sent) + AllFrames(done)
        invariant TakenUp(inputs) == Attempts(done) + if cancelled || exit != StillRunning then [] else TakenUp(inputs[i..])
        invariant AllAnswer(done, old(store.db), store.db)
        decreases |inputs| - i, exit == StillRunning
      {
        var input := inputs[i];
        NextInput(inputs, i, cancelled);
        if input.DeliveriesClosed? {
          exit := ClosedError;
        } else if input.Arrives? && cancelled {
          exit := CleanExit;
        } else if input.ShutdownRequested? {
          cancelled := true;
        } else {
          ghost var before := store.db;
          ghost var h := HandleDelivery(input.attempt);
          AnswersAppend(done, h, old(store.db), before, store.db);
          DoneAppend(old(sent), done, h, TakenUp(inputs[i + 1..]));
          done := done + [h];
        }
        i := i + 1;
      }
      if exit == StillRunning && cancelled {
        exit := CleanExit;
      }
    }
  }

  /** The result that handleOrderCreated gave for the delivery: what its body, the reply
      of the price service and the store made of it between two database states. */
  predicate Answers(h: Handled, before: DB.Db, after: DB.Db) {
    var body := h.attempt.m.body;
    match Admit(body)
    case Err(e) => h.result == Some(e)
    case Ok(_) =>
      match h.attempt.reply
      case NoQuote(cause) => h.result == Some(PriceError(cause))
      case Quoted(_) =>
        match h.result
        case None => OrderKnown(after, body) && (OrderKnown(before, body) ==> OrderSettled(after, body))
        case Some(e) => e == STORE_ERROR || (e == NOT_FOUND_ERROR && !OrderKnown(before, body))
  }

  ghost predicate AllAnswer(done: seq<Handled>, before: DB.Db, after: DB.Db) {
    forall h :: h in done ==> Answers(h, before, after)
  }

  lemma AnswersAppend(done: seq<Handled>, h: Handled, start: DB.Db, before: DB.Db, after: DB.Db)
    requires DB.Evolves(start, before) && DB.Evolves(before, after)
    requires AllAnswer(done, start, before) && Answers(h, before, after)
    ensures AllAnswer(done + [h], start, after)
  {
  }

  function Attempts(hs: seq<Handled>): seq<Attempt> {
    seq(|hs|, i requires 0 <= i < |hs| => hs[i].attempt)
  }

  lemma DoneAppend(start: seq<Frame>, hs: seq<Handled>, h: Handled, rest: seq<Attempt>)
    ensures start + AllFrames(hs) + Frames(h) == start + AllFrames(hs + [h])
    ensures Attempts(hs) + ([h.attempt] + rest) == Attempts(hs + [h]) + rest
  {
    assert (hs + [h])[..|hs|] == hs;
    assert Attempts(hs + [h]) == Attempts(hs) + [h.attempt];
  }

  lemma NextInput(inputs: seq<Input>, i: nat, cancelled: bool)
    requires i < |inputs|
    ensures TakenUp(inputs[i..]) ==
      if inputs[i].Arrives? then [inputs[i].attempt] + TakenUp(inputs[i + 1..]) else []
    ensures ExitOf(inputs[i..], cancelled) ==
      match inputs[i]
      case ShutdownRequested => ExitOf(inputs[i + 1..], true)
      case DeliveriesClosed => ClosedError
      case Arrives(_) => if cancelled then CleanExit else ExitOf(inputs[i + 1..], false)
  {
    assert inputs[i..][1..] == inputs[i + 1..];
  }
}
