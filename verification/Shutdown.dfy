/** How a consumer stops: at most the handling in progress goes on, and any other
    delivery returns to the queue. */
module Shutdown {
  import opened Prelude
  import opened Delivery
  import opened Protocol
  import opened ProtocolInvariant
  import opened Discipline
  import P = ProtocolPreservation
  import Guarantees

  /** The action starts handling a delivery. */
  predicate StartsHandling(s: State, a: Action, c: Id) {
    a == Take(c) && IsUp(s, c) && !s.consumers[c].shutdown
  }

  function HandlingsStarted(s: State, actions: seq<Action>, c: Id): nat
    requires ValidRun(s, actions)
    decreases |actions|
  {
    if actions == [] then 0
    else One(StartsHandling(s, actions[0], c)) + HandlingsStarted(Next(s, actions[0]), actions[1..], c)
  }

  predicate Stopping(s: State, c: Id) {
    c < |s.consumers| && (s.consumers[c].Up? ==> s.consumers[c].shutdown)
  }

  /** After a shutdown request the process takes up no delivery, whatever else
      happens; only the handling in progress goes on. */
  lemma {:induction false} NoNewWorkAfterShutdown(s: State, actions: seq<Action>, c: Id)
    requires ValidRun(s, actions) && Stopping(s, c)
    requires Start(c) !in actions
    ensures HandlingsStarted(s, actions, c) == 0 && Stopping(Run(s, actions), c)
    decreases |actions|
  {
    if actions != [] {
      var a := actions[0];
      assert a in actions;
      KeepsStopping(s, a, c);
      NoNewWorkAfterShutdown(Next(s, a), actions[1..], c);
    }
  }

  lemma KeepsStopping(s: State, a: Action, c: Id)
    requires Enabled(s, a) && Stopping(s, c) && a != Start(c)
    ensures Stopping(Next(s, a), c) && !StartsHandling(s, a, c)
  {
    P.NowGrows(s, a);
    if P.Actor(a) != Some(c) { P.OthersUntouched(s, a, c); }
  }

  // ---------------------------------------------------------------------
  // Deliveries that nobody handles

  /** A stopping consumer has a delivery that its process has not taken up and, having
      left, never will. */
  predicate Unread(s: State, c: Id, m: Message) {
    && IsUp(s, c) && s.consumers[c].connected && s.consumers[c].shutdown
    && s.consumers[c].unacked == Some(m)
    && ((s.consumers[c].phase.Idle? && s.consumers[c].inbox == Some(m))
        || (s.consumers[c].phase.Exited? && s.consumers[c].sent == [Close]))
  }

  /** Nothing is said about the delivery on the channel. */
  predicate Holds(s: State, c: Id, m: Message) {
    Unread(s, c, m) && (s.consumers[c].phase.Idle? ==> s.consumers[c].sent == [])
  }

  /** Whatever happens next, the delivery is still held, or it is back in the queue;
      and the consumer neither settles nor copies it nor begins to handle it. */
  lemma HoldsOrReturns(s: State, a: Action, c: Id, m: Message)
    requires Enabled(s, a) && Holds(s, c, m)
    ensures Holds(Next(s, a), c, m) || Next(s, a).work == s.work + [m]
    ensures !SendsSettlement(a, c) && !SendsCopy(a, c) && !StartsHandling(s, a, c)
  {
    OnlyTheActorSends(s, a, c);
    if P.Actor(a) != Some(c) { OthersHold(s, a, c, m); } else { OwnStep(s, a, c, m); }
  }

  lemma OthersHold(s: State, a: Action, c: Id, m: Message)
    requires Enabled(s, a) && Holds(s, c, m) && P.Actor(a) != Some(c)
    ensures Holds(Next(s, a), c, m)
  {
    P.NowGrows(s, a);
    P.OthersUntouched(s, a, c);
  }

  lemma OwnStep(s: State, a: Action, c: Id, m: Message)
    requires Enabled(s, a) && Holds(s, c, m) && P.Actor(a) == Some(c)
    ensures Holds(Next(s, a), c, m) || Next(s, a).work == s.work + [m]
    ensures !SendsSettlement(a, c) && !SendsCopy(a, c) && !StartsHandling(s, a, c)
  {
    if a.Take? || a.Stop? {
      assert [] + [Close] == [Close];
      assert a == Take(c) || a == Stop(c);
    }
  }

  /** How the run goes for the delivery: held up to its k-th step, and returned by that
      step if there is one. */
  ghost predicate HeldUntil(s: State, actions: seq<Action>, c: Id, m: Message, k: nat)
    requires ValidRun(s, actions)
    decreases |actions|
  {
    && Holds(s, c, m)
    && if actions == [] then k == 0
       else
         && !SendsSettlement(actions[0], c) && !SendsCopy(actions[0], c) && !StartsHandling(s, actions[0], c)
         && if k == 0 then Next(s, actions[0]).work == s.work + [m]
            else HeldUntil(Next(s, actions[0]), actions[1..], c, m, k - 1)
  }

  lemma {:induction false} HeldUntilReturned(s: State, actions: seq<Action>, c: Id, m: Message) returns (k: nat)
    requires Holds(s, c, m) && ValidRun(s, actions)
    ensures k <= |actions| && HeldUntil(s, actions, c, m, k)
    decreases |actions|
  {
    k := 0;
    if actions != [] {
      HoldsOrReturns(s, actions[0], c, m);
      if Holds(Next(s, actions[0]), c, m) {
        k := HeldUntilReturned(Next(s, actions[0]), actions[1..], c, m);
        k := k + 1;
      }
    }
  }

  lemma {:induction false} HeldToTheEnd(s: State, actions: seq<Action>, c: Id, m: Message)
    requires ValidRun(s, actions) && HeldUntil(s, actions, c, m, |actions|)
    ensures Holds(Run(s, actions), c, m)
    decreases |actions|
  {
    if actions != [] { HeldToTheEnd(Next(s, actions[0]), actions[1..], c, m); }
  }

  /** Over every run, with any other actions, crashes and lost connections between: a
      delivery that a stopping consumer has not taken up stays as it is until one step
      puts it back into the work queue, and up to then the consumer neither settles nor
      copies it nor handles anything. */
  lemma ShutdownReturnsDelivery(s: State, actions: seq<Action>, c: Id, m: Message) returns (k: nat)
    requires Guarantees.Reachable(s) && Unread(s, c, m) && ValidRun(s, actions)
    ensures k <= |actions| && HeldUntil(s, actions, c, m, k)
    ensures k == |actions| ==> Holds(Run(s, actions), c, m)
  {
    Guarantees.ReachableInv(s);
    var consumer := s.consumers[c];
    assert ConsumerInv(s.db, s.now, c, consumer);
    if consumer.phase.Idle? {
      assert forall f :: f in consumer.sent ==> !Settles(f) && !f.Publish? && f != Close;
      HeadIn(consumer.sent);
    }
    k := HeldUntilReturned(s, actions, c, m);
    if k == |actions| { HeldToTheEnd(s, actions, c, m); }
  }

  /** It does come back: once the process leaves, whichever case of the select it picks,
      and the broker processes the close. */
  lemma LeavingReturnsDelivery(s: State, c: Id, leave: Action)
    requires Guarantees.Reachable(s) && InIdle(s, c)
    requires s.consumers[c].shutdown && s.consumers[c].connected && s.consumers[c].inbox.Some?
    requires leave == Take(c) || leave == Stop(c)
    ensures ValidRun(s, [leave, Process(c)])
    ensures var after := Run(s, [leave, Process(c)]);
      && after.work == s.work + [s.consumers[c].inbox.value]
      && c < |after.consumers| && after.consumers[c] == Down && after.handlings == s.handlings
  {
    Guarantees.ReachableInv(s);
    var k := s.consumers[c];
    assert ConsumerInv(s.db, s.now, c, k);
    assert forall f :: f in k.sent ==> !Settles(f) && !f.Publish? && f != Close;
    HeadIn(k.sent);
    Leaves(s, c, leave);
    Closes(Next(s, leave), c);
    RunTwo(s, leave, Process(c));
  }

  lemma Leaves(s: State, c: Id, leave: Action)
    requires InIdle(s, c) && s.consumers[c].sent == []
    requires s.consumers[c].shutdown && s.consumers[c].connected && s.consumers[c].inbox.Some?
    requires leave == Take(c) || leave == Stop(c)
    ensures Enabled(s, leave)
    ensures Next(s, leave) == Set(s, c, s.consumers[c].(inbox := None, phase := Exited, sent := [Close]))
  {
    assert s.consumers[c].sent + [Close] == [Close];
  }

  lemma Closes(s: State, c: Id)
    requires IsUp(s, c) && s.consumers[c].sent == [Close] && s.consumers[c].unacked.Some?
    ensures Enabled(s, Process(c))
    ensures Next(s, Process(c)) == Set(s, c, Down).(work := s.work + [s.consumers[c].unacked.value])
  {
  }
}
