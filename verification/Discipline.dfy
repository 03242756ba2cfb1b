/** How consumers settle their deliveries. */
module Discipline {
  import opened Prelude
  import opened Delivery
  import opened Protocol
  import opened ProtocolInvariant
  import opened HandlingRuns
  import P = ProtocolPreservation
  import Guarantees

  predicate SendsSettlement(a: Action, c: Id) {
    a == SendAck(c, true) || a == SendDiscard(c, true) || a == SendRequeue(c, true)
  }

  predicate SendsCopy(a: Action, c: Id) { a == SendCopy(c, Sent) || a == SendCopy(c, SentButError) }

  predicate Delivers(a: Action, c: Id) { a.Deliver? && a.c == c }

  /** What waits on a channel: at most one retry copy, one settlement and one close,
      in that order, so the copy reaches the broker before the ack; and a settlement
      answers the one delivery that is unacked. */
  lemma FramesInOrder(s: State, c: Id, i: nat, j: nat)
    requires Guarantees.Reachable(s) && IsUp(s, c)
    requires i < |s.consumers[c].sent| && j < |s.consumers[c].sent|
    ensures Rank(s.consumers[c].sent[i]) == Rank(s.consumers[c].sent[j]) ==> i == j
    ensures s.consumers[c].sent[i].Publish? && Settles(s.consumers[c].sent[j]) ==> i < j
    ensures Settles(s.consumers[c].sent[j]) ==> s.consumers[c].unacked.Some?
  {
    Guarantees.ReachableInv(s);
    assert ConsumerInv(s.db, s.now, c, s.consumers[c]);
    if i < j { assert Rank(s.consumers[c].sent[i]) < Rank(s.consumers[c].sent[j]); }
    if j < i { assert Rank(s.consumers[c].sent[j]) < Rank(s.consumers[c].sent[i]); }
    assert s.consumers[c].sent[j] in s.consumers[c].sent;
  }

  /** A settlement is sent for the delivery that was handled, which is the unacked
      one, and it is the first for that delivery. */
  lemma FirstSettlement(s: State, a: Action, c: Id)
    requires Guarantees.Reachable(s) && Enabled(s, a) && SendsSettlement(a, c)
    ensures s.consumers[c].unacked == Some(s.consumers[c].phase.m)
    ensures forall f :: f in s.consumers[c].sent ==> f.Publish?
  {
    Guarantees.ReachableInv(s);
    SettlesShaped(s, a, c);
  }

  lemma SettlesShaped(s: State, a: Action, c: Id)
    requires Inv(s) && Enabled(s, a) && SendsSettlement(a, c)
    ensures s.consumers[c].unacked == Some(s.consumers[c].phase.m)
    ensures forall f :: f in s.consumers[c].sent ==> f.Publish?
  {
    assert ConsumerInv(s.db, s.now, c, s.consumers[c]);
  }

  // ---------------------------------------------------------------------
  // Counting over runs

  function Times(actions: seq<Action>, p: Action -> bool): nat {
    if actions == [] then 0 else (if p(actions[0]) then 1 else 0) + Times(actions[1..], p)
  }

  /** The broker waits for a settlement that the process has not sent. */
  ghost predicate Unsettled(k: Consumer) {
    k.Up? && k.unacked.Some? && forall f :: f in k.sent ==> !Settles(f)
  }

  /** The process can still send a retry copy of the unacked delivery. */
  predicate Uncopied(k: Consumer) {
    && k.Up? && k.connected && k.unacked.Some?
    && (k.inbox.Some? || k.phase.Checking? || k.phase.Pricing? || k.phase.Executing? || k.phase.Failed?)
  }

  function One(b: bool): nat { if b then 1 else 0 }

  lemma SendingSettles(s: State, a: Action, c: Id)
    requires Enabled(s, a) && P.Actor(a) == Some(c) && P.IsSending(a)
    requires Shape(s.consumers[c])
    ensures One(SendsSettlement(a, c)) + One(Unsettled(Next(s, a).consumers[c])) <= One(Unsettled(s.consumers[c]))
  {
    var k := s.consumers[c];
    var k' := Next(s, a).consumers[c];
    if SendsSettlement(a, c) {
      assert k'.sent[|k.sent|] in k'.sent && Settles(k'.sent[|k.sent|]);
    } else {
      assert forall f :: f in k.sent ==> f in k'.sent;
    }
  }

  lemma ProcessSettles(s: State, c: Id)
    requires Enabled(s, Process(c)) && Shape(s.consumers[c])
    ensures One(Unsettled(Next(s, Process(c)).consumers[c])) <= One(Unsettled(s.consumers[c]))
  {
    var k := s.consumers[c];
    assert k.sent == [k.sent[0]] + k.sent[1..];
  }

  lemma ActorSettles(s: State, a: Action, c: Id)
    requires Enabled(s, a) && c < |s.consumers| && P.Actor(a) == Some(c)
    requires s.consumers[c].Up? ==> Shape(s.consumers[c])
    ensures One(SendsSettlement(a, c)) + One(Unsettled(Next(s, a).consumers[c]))
         <= One(Delivers(a, c)) + One(Unsettled(s.consumers[c]))
  {
    var k := s.consumers[c];
    var k' := Next(s, a).consumers[c];
    if P.IsSending(a) {
      SendingSettles(s, a, c);
    } else if a.Process? {
      ProcessSettles(s, c);
    } else if k.Up? && k'.Up? && k'.connected && !a.Deliver? {
      NothingSettled(s, a, c);
    }
  }

  lemma NothingSettled(s: State, a: Action, c: Id)
    requires Enabled(s, a) && IsUp(s, c) && P.Actor(a) == Some(c)
    requires !P.IsSending(a) && !a.Process? && !a.Deliver?
    requires Next(s, a).consumers[c].Up? && Next(s, a).consumers[c].connected
    ensures Next(s, a).consumers[c].unacked == s.consumers[c].unacked
    ensures forall f :: f in s.consumers[c].sent ==> f in Next(s, a).consumers[c].sent
  {
  }

  lemma ActorCopies(s: State, a: Action, c: Id)
    requires Enabled(s, a) && c < |s.consumers| && P.Actor(a) == Some(c)
    requires s.consumers[c].Up? ==> Shape(s.consumers[c])
    ensures One(SendsCopy(a, c)) + One(Uncopied(Next(s, a).consumers[c]))
         <= One(Delivers(a, c)) + One(Uncopied(s.consumers[c]))
  {
  }

  ghost predicate UnsettledAt(s: State, c: Id) { c < |s.consumers| && Unsettled(s.consumers[c]) }

  predicate UncopiedAt(s: State, c: Id) { c < |s.consumers| && Uncopied(s.consumers[c]) }

  lemma OnlyTheActorSends(s: State, a: Action, c: Id)
    requires Enabled(s, a)
    ensures SendsSettlement(a, c) || SendsCopy(a, c) || Delivers(a, c) ==> P.Actor(a) == Some(c)
    ensures P.Actor(a) == Some(c) ==> c < |s.consumers|
  {
  }

  lemma StepSettles(s: State, a: Action, c: Id)
    requires Enabled(s, a)
    requires c < |s.consumers| && s.consumers[c].Up? ==> Shape(s.consumers[c])
    ensures One(SendsSettlement(a, c)) + One(UnsettledAt(Next(s, a), c)) <= One(Delivers(a, c)) + One(UnsettledAt(s, c))
    ensures One(SendsCopy(a, c)) + One(UncopiedAt(Next(s, a), c)) <= One(Delivers(a, c)) + One(UncopiedAt(s, c))
  {
    P.NowGrows(s, a);
    OnlyTheActorSends(s, a, c);
    if P.Actor(a) == Some(c) {
      ActorSettles(s, a, c);
      ActorCopies(s, a, c);
    } else if c < |s.consumers| {
      P.OthersUntouched(s, a, c);
    }
  }

  lemma {:induction false} RunSettles(s: State, actions: seq<Action>, c: Id)
    requires Inv(s) && ValidRun(s, actions)
    ensures Times(actions, a => SendsSettlement(a, c)) <= Times(actions, a => Delivers(a, c)) + One(UnsettledAt(s, c))
    ensures Times(actions, a => SendsCopy(a, c)) <= Times(actions, a => Delivers(a, c)) + One(UncopiedAt(s, c))
    decreases |actions|
  {
    if actions != [] {
      assert c < |s.consumers| ==> ConsumerInv(s.db, s.now, c, s.consumers[c]);
      StepSettles(s, actions[0], c);
      P.StepKeepsInv(s, actions[0]);
      RunSettles(Next(s, actions[0]), actions[1..], c);
    }
  }

  /** Over every run, a consumer settles and copies no more often than it was given
      deliveries. */
  lemma SettlementsNeverExceedDeliveries(n: nat, actions: seq<Action>, c: Id)
    requires ValidRun(Init(n), actions)
    ensures Times(actions, a => SendsSettlement(a, c)) <= Times(actions, a => Delivers(a, c))
    ensures Times(actions, a => SendsCopy(a, c)) <= Times(actions, a => Delivers(a, c))
  {
    InitInv(n);
    RunSettles(Init(n), actions, c);
  }

  lemma {:induction false} NeverTimes(actions: seq<Action>, p: Action -> bool)
    requires forall a :: a in actions ==> !p(a)
    ensures Times(actions, p) == 0
  {
    if actions != [] { NeverTimes(actions[1..], p); }
  }

  /** From one delivery to the next, a consumer sends at most one settlement and at most
      one retry copy; none if the delivery at hand is settled, or copied, already. */
  lemma OneSettlementPerDelivery(s: State, actions: seq<Action>, c: Id)
    requires Guarantees.Reachable(s) && ValidRun(s, actions)
    requires forall a :: a in actions ==> !Delivers(a, c)
    ensures Times(actions, a => SendsSettlement(a, c)) <= One(UnsettledAt(s, c))
    ensures Times(actions, a => SendsCopy(a, c)) <= One(UncopiedAt(s, c))
  {
    Guarantees.ReachableInv(s);
    RunSettles(s, actions, c);
    NeverTimes(actions, a => Delivers(a, c));
  }

  // ---------------------------------------------------------------------
  // Copy before ack

  /** The broker moves this copy from the channel to the retry queue. */
  predicate TakesCopy(s: State, a: Action, c: Id, copy: Message)
    requires Enabled(s, a)
  {
    a == Process(c) && Next(s, a).retry == s.retry + [Delayed(copy, s.now)]
  }

  /** The process waits to ack behind the copy it has sent. */
  predicate AcksNext(s: State, c: Id) { IsUp(s, c) && s.consumers[c].connected && s.consumers[c].phase.Copied? }

  lemma StillAcksNext(s: State, a: Action, c: Id)
    requires Enabled(s, a) && c < |s.consumers| && Stage(s.consumers[c]) == 2 && a != Take(c)
    ensures |Next(s, a).consumers| == |s.consumers| && Stage(Next(s, a).consumers[c]) == 2
    ensures AcksNext(Next(s, a), c) ==>
      && AcksNext(s, c)
      && (Next(s, a).consumers[c].sent == s.consumers[c].sent
          || (a == Process(c) && Next(s, a).consumers[c].sent == s.consumers[c].sent[1..]))
  {
    P.NowGrows(s, a);
    if P.Actor(a) != Some(c) { P.OthersUntouched(s, a, c); } else { StageGrows(s, a, c); }
  }

  lemma {:induction false} CopyStaysAhead(s: State, actions: seq<Action>, c: Id, copy: Message) returns (i: nat)
    requires AcksNext(s, c) && s.consumers[c].sent == [Publish(copy)]
    requires ValidRun(s, actions) && Take(c) !in actions
    ensures c < |Run(s, actions).consumers| && Stage(Run(s, actions).consumers[c]) == 2
    ensures AcksNext(Run(s, actions), c) ==>
      || Run(s, actions).consumers[c].sent == [Publish(copy)]
      || (Run(s, actions).consumers[c].sent == [] && TakenAt(s, actions, c, copy, i))
    decreases |actions|
  {
    i := 0;
    if actions != [] {
      LastStep(s, actions);
      var before, a := actions[..|actions| - 1], actions[|actions| - 1];
      i := CopyStaysAhead(s, before, c, copy);
      StillAcksNext(Run(s, before), a, c);
      if AcksNext(Run(s, before), c) && Run(s, before).consumers[c].sent == [Publish(copy)] {
        if a == Process(c) { i := |before|; }
      } else {
        TakenEarlier(s, actions, c, copy, i);
      }
    }
  }

  ghost predicate TakenAt(s: State, actions: seq<Action>, c: Id, copy: Message, i: nat)
    requires ValidRun(s, actions)
  {
    && i < |actions| && ValidRun(s, actions[..i]) && Enabled(Run(s, actions[..i]), actions[i])
    && TakesCopy(Run(s, actions[..i]), actions[i], c, copy)
  }

  lemma TakenEarlier(s: State, actions: seq<Action>, c: Id, copy: Message, i: nat)
    requires ValidRun(s, actions) && actions != [] && ValidRun(s, actions[..|actions| - 1])
    ensures TakenAt(s, actions[..|actions| - 1], c, copy, i) ==> TakenAt(s, actions, c, copy, i)
  {
    if i < |actions| - 1 { assert actions[..|actions| - 1][..i] == actions[..i]; }
  }

  /** Whatever happens between the copy and the ack: when the ack can be sent, the copy
      is still on the channel, so ahead of it, or the broker has moved it to the retry
      queue. */
  lemma AckFollowsCopy(s: State, copied: State, copy: Message, actions: seq<Action>, c: Id) returns (i: nat)
    requires Guarantees.Reachable(s) && Enabled(s, SendCopy(c, Sent)) && copied == Next(s, SendCopy(c, Sent))
    requires copy == RetryCopy(s.consumers[c].phase.m, s.consumers[c].phase.failedAt)
    requires ValidRun(copied, actions) && Take(c) !in actions
    requires Enabled(Run(copied, actions), SendAck(c, true))
    ensures AcksNext(Run(copied, actions), c)
    ensures var sent := Run(copied, actions).consumers[c].sent;
      sent == [Publish(copy)] || (sent == [] && TakenAt(copied, actions, c, copy, i))
  {
    CopyIsAlone(s, c);
    i := CopyStaysAhead(copied, actions, c, copy);
  }

  /** When the copy is sent, nothing else waits on the channel. */
  lemma CopyIsAlone(s: State, c: Id)
    requires Guarantees.Reachable(s) && Enabled(s, SendCopy(c, Sent))
    ensures AcksNext(Next(s, SendCopy(c, Sent)), c)
    ensures Next(s, SendCopy(c, Sent)).consumers[c].sent
         == [Publish(RetryCopy(s.consumers[c].phase.m, s.consumers[c].phase.failedAt))]
  {
    Guarantees.ReachableInv(s);
    assert ConsumerInv(s.db, s.now, c, s.consumers[c]);
    NothingAhead(s.consumers[c]);
  }

  lemma NothingAhead(k: Consumer)
    requires k.Up? && Shape(k) && k.connected && k.phase.Failed?
    ensures k.sent == []
  {
    HeadIn(k.sent);
  }
}
