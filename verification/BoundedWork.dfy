/** How often deliveries are handled: retries are bounded, faults are paid for. */
module BoundedWork {
  import opened Prelude
  import opened Delivery
  import opened Protocol
  import opened ProtocolInvariant
  import P = ProtocolPreservation
  import DB = Database

  /** Handlings that a queued message can still cause without any fault. */
  function Remaining(m: Message): int { MAX_DELIVERY_ATTEMPTS - RetryAttempt(m.headers) }

  function RemainingLater(d: Delayed): int { Remaining(d.message) }

  /** The settlement under way will not bring the delivery back. */
  ghost predicate Gone(sent: seq<Frame>) { exists f :: f in sent && (f.Ack? || f.Discard?) }

  /** Handlings that the delivery itself can still cause. */
  ghost function OwnWeight(k: Consumer): int
    requires k.Up? && k.unacked.Some?
  {
    if k.phase.Copied? || Gone(k.sent) then 0
    else if Resting(k.phase) || k.phase.CopyFailed? then Remaining(k.unacked.value)
    else Remaining(k.unacked.value) - 1
  }

  /** Handlings that a copy on its way to the retry queue can still cause. */
  function CopyWeight(sent: seq<Frame>): int {
    if sent != [] && sent[0].Publish? then Remaining(sent[0].message) else 0
  }

  /** A process that lost its channel can still read the delivery in its inbox. */
  ghost function Weight(k: Consumer): int {
    if k.Down? then 0
    else if !k.connected then (if k.inbox.Some? then 1 else 0)
    else if k.unacked.None? then 0
    else OwnWeight(k) + CopyWeight(k.sent)
  }

  ghost function Potential(s: State): int {
    Sum(Remaining, s.work) + Sum(RemainingLater, s.retry) + Sum(Weight, s.consumers)
  }

  /** What the faults and publishes of one action allow. */
  function Allowance(s: State, a: Action): int
    requires Enabled(s, a)
  {
    MAX_DELIVERY_ATTEMPTS * (Next(s, a).publishes - s.publishes + Next(s, a).faults - s.faults)
  }

  // ---------------------------------------------------------------------
  // Weights are never negative

  lemma WeightBounds(db: DB.Db, now: nat, c: Id, k: Consumer)
    requires ConsumerInv(db, now, c, k)
    ensures 0 <= Weight(k)
    ensures k.Up? && k.unacked.Some? ==> 1 <= Remaining(k.unacked.value) <= MAX_DELIVERY_ATTEMPTS
    ensures k.Up? && k.sent != [] && k.sent[0].Publish? && k.unacked.Some? ==>
      CopyWeight(k.sent) == Remaining(k.unacked.value) - 1
  {
    if k.Up? { HeadIn(k.sent); }
  }

  lemma {:induction false} SumNotNegative<T>(weight: T -> int, s: seq<T>)
    requires forall x :: x in s ==> 0 <= weight(x)
    ensures 0 <= Sum(weight, s)
  {
    if s != [] { SumNotNegative(weight, s[..|s| - 1]); }
  }

  lemma PotentialNotNegative(s: State)
    requires Inv(s)
    ensures 0 <= Potential(s)
  {
    SumNotNegative(Remaining, s.work);
    forall d | d in s.retry ensures 0 <= RemainingLater(d) { assert DelayedOk(s.db, s.now, d); }
    SumNotNegative(RemainingLater, s.retry);
    forall k | k in s.consumers ensures 0 <= Weight(k) {
      var c :| 0 <= c < |s.consumers| && s.consumers[c] == k;
      WeightBounds(s.db, s.now, c, k);
    }
    SumNotNegative(Weight, s.consumers);
  }

  // ---------------------------------------------------------------------
  // One action

  /** What a delivery weighs that the broker takes back. */
  function Back(k: Consumer): int
    requires k.Up?
  {
    if k.unacked.Some? then Remaining(k.unacked.value) else 0
  }

  /** The weight that an action adds to the work queue. */
  function WorkGain(s: State, a: Action): int
    requires Enabled(s, a)
  {
    match a
    case PublishEvent(_, _) => MAX_DELIVERY_ATTEMPTS
    case Expire => Remaining(s.retry[0].message)
    case Deliver(_, i) => -Remaining(s.work[i])
    case Process(c) =>
      if s.consumers[c].sent[0].Requeue? || s.consumers[c].sent[0].Close? then Back(s.consumers[c]) else 0
    case Disconnect(c, _) => Back(s.consumers[c])
    case Crash(c, _) => Back(s.consumers[c])
    case _ => 0
  }

  /** The weight that an action adds to the retry queue. */
  function RetryGain(s: State, a: Action): int
    requires Enabled(s, a)
  {
    match a
    case Expire => -Remaining(s.retry[0].message)
    case Process(c) =>
      if s.consumers[c].sent[0].Publish? then Remaining(s.consumers[c].sent[0].message) else 0
    case _ => 0
  }

  lemma Append<T>(weight: T -> int, s: seq<T>, x: T)
    ensures Sum(weight, s + [x]) == Sum(weight, s) + weight(x)
  {
    assert (s + [x])[..|s|] == s;
  }

  lemma TakeBackGains(s: State, k: Consumer)
    requires k.Up?
    ensures Sum(Remaining, TakeBack(s, k).work) == Sum(Remaining, s.work) + Back(k)
  {
    if k.unacked.Some? { Append(Remaining, s.work, k.unacked.value); }
  }

  lemma WorkGains(s: State, a: Action)
    requires Enabled(s, a)
    ensures Sum(Remaining, Next(s, a).work) == Sum(Remaining, s.work) + WorkGain(s, a)
  {
    WorkAfter(s, a);
    match a
    case PublishEvent(i, trace) => Append(Remaining, s.work, Message(Encoded(s.api[i]), trace, []));
    case Expire => Append(Remaining, s.work, s.retry[0].message);
    case Deliver(_, i) => SumWithout(Remaining, s.work, i);
    case Process(c) => TakeBackGains(s, s.consumers[c]);
    case Disconnect(c, _) => TakeBackGains(s, s.consumers[c]);
    case Crash(c, _) => TakeBackGains(s, s.consumers[c]);
    case _ =>
  }

  /** The work queue after an action, in one place. */
  lemma WorkAfter(s: State, a: Action)
    requires Enabled(s, a)
    ensures Next(s, a).work ==
      match a
      case PublishEvent(i, trace) => s.work + [Message(Encoded(s.api[i]), trace, [])]
      case Expire => s.work + [s.retry[0].message]
      case Deliver(_, i) => Without(s.work, i)
      case Process(c) =>
        if s.consumers[c].sent[0].Requeue? || s.consumers[c].sent[0].Close? then TakeBack(s, s.consumers[c]).work
        else s.work
      case Disconnect(c, _) => TakeBack(s, s.consumers[c]).work
      case Crash(c, _) => TakeBack(s, s.consumers[c]).work
      case _ => s.work
  {
  }

  lemma RetryGains(s: State, a: Action)
    requires Enabled(s, a)
    ensures Sum(RemainingLater, Next(s, a).retry) == Sum(RemainingLater, s.retry) + RetryGain(s, a)
  {
    var retry := Next(s, a).retry;
    if a.Expire? {
      assert Without(s.retry, 0) == retry;
      SumWithout(RemainingLater, s.retry, 0);
    } else if a.Process? && s.consumers[a.c].sent[0].Publish? {
      Append(RemainingLater, s.retry, Delayed(s.consumers[a.c].sent[0].message, s.now));
    } else {
      assert retry == s.retry;
    }
  }

  // Consumers

  /** A frame was processed that is not Close. */
  lemma ProcessedWeight(k: Consumer, unacked: Option<Message>)
    requires k.Up? && Shape(k) && k.sent != [] && k.sent[0] != Close
    requires unacked == if Settles(k.sent[0]) then None else k.unacked
    ensures var gain := if k.sent[0].Publish? then CopyWeight(k.sent) else if k.sent[0].Requeue? then Back(k) else 0;
      Weight(k.(unacked := unacked, sent := k.sent[1..])) + gain <= Weight(k)
  {
    var head, rest := k.sent[0], k.sent[1..];
    assert head in k.sent && k.sent == [head] + rest;
    assert forall f :: f in rest ==> f in k.sent && Rank(head) < Rank(f);
    HeadIn(rest);
    assert Gone(k.sent) <==> head.Ack? || head.Discard? || Gone(rest);
  }

  lemma ClosedWeight(k: Consumer)
    requires k.Up? && Shape(k) && k.sent != [] && k.sent[0] == Close
    ensures Back(k) <= Weight(k)
  {
    var rest := k.sent[1..];
    assert k.sent == [Close] + rest && Close in k.sent;
    HeadIn(rest);
    assert forall f :: f in rest ==> Rank(Close) < Rank(f);
    assert forall f :: f in k.sent ==> f == Close;
  }

  /** A settlement call returned. */
  lemma SettledWeight(k: Consumer, frame: Frame, ok: bool)
    requires k.Up? && Shape(k) && !Resting(k.phase) && Settles(frame) && (ok ==> k.connected)
    requires k.connected ==> 1 <= Remaining(k.phase.m) <= MAX_DELIVERY_ATTEMPTS
    requires frame.Requeue? <==> k.phase.CopyFailed?
    ensures Weight(k.(phase := Idle, sent := if ok then k.sent + [frame] else k.sent))
      <= Weight(k) + if !ok && k.connected && !frame.Requeue? then MAX_DELIVERY_ATTEMPTS else 0
  {
    assert forall f :: f in k.sent ==> f.Publish?;
    assert !Gone(k.sent);
    if ok {
      var sent := k.sent + [frame];
      assert frame in sent;
      assert forall f :: f in sent ==> f.Publish? || f == frame;
      assert Gone(sent) <==> !frame.Requeue?;
      assert CopyWeight(sent) == CopyWeight(k.sent);
    }
  }

  /** The retry copy was written, or writing it failed, or both. */
  lemma CopiedWeight(k: Consumer, sending: Sending)
    requires k.Up? && Shape(k) && k.phase.Failed? && (sending != NotSent ==> k.connected)
    requires k.connected ==> 1 <= Remaining(k.phase.m) <= MAX_DELIVERY_ATTEMPTS
    ensures var copy := Publish(RetryCopy(k.phase.m, k.phase.failedAt));
      Weight(k.(phase := if sending == Sent then Copied(k.phase.m) else CopyFailed(k.phase.m),
                sent := if sending == NotSent then k.sent else k.sent + [copy]))
      <= Weight(k) + if sending != Sent && k.connected then MAX_DELIVERY_ATTEMPTS else 0
  {
    HeadIn(k.sent);
    assert k.sent == [];
    assert !Gone([]);
    RetryCopyCounts(k.phase.m, k.phase.failedAt);
    assert !Gone([Publish(RetryCopy(k.phase.m, k.phase.failedAt))]);
  }

  lemma LeftWeight(k: Consumer)
    requires k.Up? && Shape(k) && k.connected && k.phase.Idle?
    ensures Weight(k.(inbox := None, phase := Exited, sent := k.sent + [Close])) == Weight(k)
  {
    var sent := k.sent + [Close];
    assert forall f :: f in sent <==> f in k.sent || f == Close;
    assert forall f :: f in k.sent ==> f in sent;
    assert Gone(sent) <==> Gone(k.sent);
    assert CopyWeight(sent) == CopyWeight(k.sent);
  }

  lemma SendingCosts(s: State, a: Action, c: Id)
    requires Enabled(s, a) && P.Actor(a) == Some(c) && P.IsSending(a)
    requires ConsumerInv(s.db, s.now, c, s.consumers[c])
    ensures Weight(Next(s, a).consumers[c]) <= Weight(s.consumers[c]) + Allowance(s, a)
  {
    var k := s.consumers[c];
    WeightBounds(s.db, s.now, c, k);
    match a
    case SendAck(_, ok) => SettledWeight(k, Ack, ok);
    case SendDiscard(_, ok) => SettledWeight(k, Discard(k.phase.cause, k.phase.failedAt), ok);
    case SendRequeue(_, ok) => SettledWeight(k, Requeue, ok);
    case SendCopy(_, sending) => CopiedWeight(k, sending);
  }

  lemma ProcessCosts(s: State, c: Id)
    requires Enabled(s, Process(c)) && ConsumerInv(s.db, s.now, c, s.consumers[c])
    ensures Weight(Next(s, Process(c)).consumers[c]) + WorkGain(s, Process(c)) + RetryGain(s, Process(c))
         <= Weight(s.consumers[c])
    ensures Allowance(s, Process(c)) == 0
  {
    var k := s.consumers[c];
    if k.sent[0] == Close {
      ClosedWeight(k);
    } else {
      ProcessedWeight(k, if Settles(k.sent[0]) then None else k.unacked);
    }
  }

  lemma ChannelCosts(s: State, a: Action, c: Id)
    requires Enabled(s, a) && c < |s.consumers| && P.Actor(a) == Some(c) && P.IsChannel(a)
    requires ConsumerInv(s.db, s.now, c, s.consumers[c])
    ensures Weight(Next(s, a).consumers[c]) + WorkGain(s, a) + RetryGain(s, a)
         <= Weight(s.consumers[c]) + Allowance(s, a)
  {
    var k := s.consumers[c];
    WeightBounds(s.db, s.now, c, k);
    if a.Process? {
      ProcessCosts(s, c);
    } else if a.Deliver? {
      assert !Gone(k.sent) by { assert forall f :: f in k.sent ==> !Settles(f); }
      HeadIn(k.sent);
    }
  }

  lemma TakeCosts(s: State, c: Id)
    requires Enabled(s, Take(c)) && ConsumerInv(s.db, s.now, c, s.consumers[c])
    ensures Next(s, Take(c)).handlings - s.handlings + Weight(Next(s, Take(c)).consumers[c]) <= Weight(s.consumers[c])
  {
    var k := s.consumers[c];
    WeightBounds(s.db, s.now, c, k);
    if k.shutdown {
      if k.connected { LeftWeight(k); }
    } else {
      assert !Gone(k.sent) by { assert forall f :: f in k.sent ==> !Settles(f); }
    }
  }

  /** The delivery moves on to another phase of its handling. */
  lemma MovedWeight(k: Consumer, phase: Phase)
    requires k.Up? && !Resting(k.phase) && !k.phase.Copied? && !k.phase.CopyFailed?
    requires !Resting(phase) && !phase.Copied? && !phase.CopyFailed?
    ensures Weight(k.(phase := phase)) == Weight(k)
  {
  }

  lemma MovesOn(s: State, a: Action, c: Id)
    requires Enabled(s, a) && P.Actor(a) == Some(c) && P.Moves(a)
    ensures IsUp(s, c) && Next(s, a).handlings == s.handlings
    ensures var p := s.consumers[c].phase; var k' := Next(s, a).consumers[c];
      && k' == s.consumers[c].(phase := k'.phase)
      && !Resting(p) && !p.Copied? && !p.CopyFailed?
      && !Resting(k'.phase) && !k'.phase.Copied? && !k'.phase.CopyFailed?
  {
  }

  lemma LoopCosts(s: State, a: Action, c: Id)
    requires Enabled(s, a) && c < |s.consumers| && P.Actor(a) == Some(c)
    requires !P.IsSending(a) && !P.IsChannel(a)
    requires ConsumerInv(s.db, s.now, c, s.consumers[c])
    ensures Next(s, a).handlings - s.handlings + Weight(Next(s, a).consumers[c]) <= Weight(s.consumers[c])
  {
    var k := s.consumers[c];
    if a.Take? {
      TakeCosts(s, c);
    } else if a.Stop? {
      WeightBounds(s.db, s.now, c, k);
      if k.connected { LeftWeight(k); }
    } else {
      MovesOn(s, a, c);
      MovedWeight(k, Next(s, a).consumers[c].phase);
    }
  }

  /** Only what happens on a channel moves messages between queues, and only the loop
      begins handlings. */
  lemma GainsOf(s: State, a: Action)
    requires Enabled(s, a) && P.Actor(a).Some?
    ensures !P.IsChannel(a) ==> WorkGain(s, a) == RetryGain(s, a) == 0
    ensures P.IsSending(a) || P.IsChannel(a) ==> Next(s, a).handlings == s.handlings
    ensures !P.IsSending(a) && !P.IsChannel(a) ==> Allowance(s, a) == 0
  {
  }

  /** The consumer's own weight pays for what its action does, apart from what
      faults allow. */
  lemma ActorCosts(s: State, a: Action, c: Id)
    requires Enabled(s, a) && c < |s.consumers| && P.Actor(a) == Some(c)
    requires ConsumerInv(s.db, s.now, c, s.consumers[c])
    ensures Next(s, a).handlings - s.handlings + Weight(Next(s, a).consumers[c]) + WorkGain(s, a) + RetryGain(s, a)
         <= Weight(s.consumers[c]) + Allowance(s, a)
  {
    GainsOf(s, a);
    if P.IsSending(a) { SendingCosts(s, a, c); }
    else if P.IsChannel(a) { ChannelCosts(s, a, c); }
    else { LoopCosts(s, a, c); }
  }

  lemma StepCosts(s: State, a: Action)
    requires Inv(s) && Enabled(s, a)
    ensures Next(s, a).handlings + Potential(Next(s, a)) <= s.handlings + Potential(s) + Allowance(s, a)
  {
    WorkGains(s, a);
    RetryGains(s, a);
    var after := Next(s, a);
    match P.Actor(a)
    case None => NobodyActs(s, a);
    case Some(c) =>
      OneActs(s, a, c);
      assert ConsumerInv(s.db, s.now, c, s.consumers[c]);
      ActorCosts(s, a, c);
      SumUpdate(Weight, s.consumers, c, after.consumers[c]);
  }

  /** Publishing and expiry are paid for by the publish and the retry queue. */
  lemma NobodyActs(s: State, a: Action)
    requires Enabled(s, a) && P.Actor(a) == None
    ensures Next(s, a).consumers == s.consumers && Next(s, a).handlings == s.handlings
    ensures WorkGain(s, a) + RetryGain(s, a) == Allowance(s, a)
  {
  }

  lemma OneActs(s: State, a: Action, c: Id)
    requires Enabled(s, a) && P.Actor(a) == Some(c)
    ensures c < |s.consumers| && |Next(s, a).consumers| == |s.consumers|
    ensures Next(s, a).consumers == s.consumers[c := Next(s, a).consumers[c]]
  {
  }

  // ---------------------------------------------------------------------
  // Runs

  /** Handlings are conserved: each is paid for by a publish, a fault or the
      potential of the messages that were there at the start. */
  lemma {:induction false} RunCosts(s: State, actions: seq<Action>)
    requires Inv(s) && ValidRun(s, actions)
    ensures var after := Run(s, actions);
      after.handlings + Potential(after) <= s.handlings + Potential(s)
        + 3 * (after.publishes - s.publishes + after.faults - s.faults)
    decreases |actions|
  {
    if actions != [] {
      StepCosts(s, actions[0]);
      P.StepKeepsInv(s, actions[0]);
      RunCosts(Next(s, actions[0]), actions[1..]);
    }
  }

  /** Over every run, deliveries are handled at most three times for each event
      published and each fault. */
  lemma HandlingsAreBounded(n: nat, actions: seq<Action>)
    requires ValidRun(Init(n), actions)
    ensures var s := Run(Init(n), actions);
      s.handlings <= 3 * (s.publishes + s.faults)
  {
    InitInv(n);
    RunCosts(Init(n), actions);
    P.RunKeepsInv(Init(n), actions);
    PotentialNotNegative(Run(Init(n), actions));
    NoWeight(n);
  }

  lemma {:induction false} NoWeight(n: nat)
    ensures Potential(Init(n)) == 0
    ensures Sum(Weight, seq(n, _ => Down)) == 0
  {
    if n > 0 {
      NoWeight(n - 1);
      assert seq(n, _ => Down)[..n - 1] == seq(n - 1, _ => Down);
    }
  }

  /** Once publishes and faults stop, only finitely many handlings can follow: no
      more than the potential of that moment. */
  lemma QuietRunsEnd(s: State, actions: seq<Action>)
    requires Inv(s) && ValidRun(s, actions)
    requires Run(s, actions).publishes == s.publishes && Run(s, actions).faults == s.faults
    ensures Run(s, actions).handlings - s.handlings <= Potential(s)
    ensures Potential(s) <= 3 * |s.work| + 3 * |s.retry| + 5 * |s.consumers|
  {
    RunCosts(s, actions);
    P.RunKeepsInv(s, actions);
    PotentialNotNegative(Run(s, actions));
    PotentialIsSmall(s);
  }

  lemma {:induction false} SumAtMost<T>(weight: T -> int, s: seq<T>, most: nat)
    requires forall x :: x in s ==> weight(x) <= most
    ensures Sum(weight, s) <= most * |s|
  {
    if s != [] {
      SumAtMost(weight, s[..|s| - 1], most);
      assert most * |s| == most * (|s| - 1) + most;
    }
  }

  lemma WeightIsSmall(db: DB.Db, now: nat, c: Id, k: Consumer)
    requires ConsumerInv(db, now, c, k)
    ensures Weight(k) <= 5
  {
    WeightBounds(db, now, c, k);
  }

  lemma PotentialIsSmall(s: State)
    requires Inv(s)
    ensures Potential(s) <= 3 * |s.work| + 3 * |s.retry| + 5 * |s.consumers|
  {
    SumAtMost(Remaining, s.work, 3);
    forall d | d in s.retry ensures RemainingLater(d) <= 3 { assert DelayedOk(s.db, s.now, d); }
    SumAtMost(RemainingLater, s.retry, 3);
    forall k | k in s.consumers ensures Weight(k) <= 5 {
      var c :| 0 <= c < |s.consumers| && s.consumers[c] == k;
      WeightIsSmall(s.db, s.now, c, k);
    }
    SumAtMost(Weight, s.consumers, 5);
  }

  // ---------------------------------------------------------------------
  // The bound in terms of the actions of a run

  function Publishes(actions: seq<Action>): nat {
    if actions == [] then 0 else (if actions[0].PublishEvent? then 1 else 0) + Publishes(actions[1..])
  }

  /** A process dies, a connection breaks, or a call on a channel fails. */
  predicate IsFault(a: Action) {
    match a
    case Crash(_, _) => true
    case Disconnect(_, _) => true
    case SendAck(_, ok) => !ok
    case SendDiscard(_, ok) => !ok
    case SendCopy(_, sending) => sending != Sent
    case _ => false
  }

  function Faults(actions: seq<Action>): nat {
    if actions == [] then 0 else (if IsFault(actions[0]) then 1 else 0) + Faults(actions[1..])
  }

  /** How many deliveries the run takes up to handle them. */
  function TakenUp(s: State, actions: seq<Action>): nat
    requires ValidRun(s, actions)
    decreases |actions|
  {
    if actions == [] then 0
    else
      (if actions[0].Take? && !s.consumers[actions[0].c].shutdown then 1 else 0)
        + TakenUp(Next(s, actions[0]), actions[1..])
  }

  lemma OneCounts(s: State, a: Action)
    requires Enabled(s, a)
    ensures Next(s, a).publishes == s.publishes + if a.PublishEvent? then 1 else 0
    ensures s.faults <= Next(s, a).faults <= s.faults + if IsFault(a) then 1 else 0
    ensures Next(s, a).handlings == s.handlings + if a.Take? && !s.consumers[a.c].shutdown then 1 else 0
  {
  }

  /** The counters of the state count these actions. */
  lemma {:induction false} CountersCount(s: State, actions: seq<Action>)
    requires ValidRun(s, actions)
    ensures Run(s, actions).publishes == s.publishes + Publishes(actions)
    ensures s.faults <= Run(s, actions).faults <= s.faults + Faults(actions)
    ensures Run(s, actions).handlings == s.handlings + TakenUp(s, actions)
    decreases |actions|
  {
    if actions != [] {
      OneCounts(s, actions[0]);
      CountersCount(Next(s, actions[0]), actions[1..]);
    }
  }

  /** Whatever the run does, it takes up at most three deliveries for each event that it
      publishes and each process, connection or call that it makes fail. */
  lemma TakenUpIsBounded(n: nat, actions: seq<Action>)
    requires ValidRun(Init(n), actions)
    ensures TakenUp(Init(n), actions) <= 3 * (Publishes(actions) + Faults(actions))
  {
    HandlingsAreBounded(n, actions);
    CountersCount(Init(n), actions);
  }

  /** A run that publishes nothing and in which nothing fails soon stops handling. */
  lemma QuietRunsTakeUpFew(s: State, actions: seq<Action>)
    requires Inv(s) && ValidRun(s, actions) && Publishes(actions) == Faults(actions) == 0
    ensures TakenUp(s, actions) <= 3 * |s.work| + 3 * |s.retry| + 5 * |s.consumers|
  {
    CountersCount(s, actions);
    QuietRunsEnd(s, actions);
  }
}
