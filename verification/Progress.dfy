/** What can always happen: faults at every point, and the end of every handling. */
module Progress {
  import opened Prelude
  import opened Delivery
  import opened Protocol
  import opened ProtocolInvariant
  import P = ProtocolPreservation
  import Guarantees
  import Failure
  import DB = Database

  /** At every point of every run a process can die and a connection can break. */
  lemma ChannelsCanBreak(s: State, c: Id)
    requires IsUp(s, c)
    ensures Enabled(s, Crash(c, false)) && (s.consumers[c].connected ==> forall keep :: Enabled(s, Disconnect(c, keep)))
  {
  }

  /** Any statement of a call can return an error, in every reachable state. */
  lemma StatementsCanFail(s: State, c: Id)
    requires Guarantees.Reachable(s) && InExecuting(s, c)
    ensures Enabled(s, StoreFails(c))
  {
    Guarantees.ReachableInv(s);
    assert ConsumerInv(s.db, s.now, c, s.consumers[c]);
  }

  /** A COMMIT under way can take effect and return an error, or take effect as the
      process dies. */
  lemma RepliesCanBeLost(s: State, c: Id)
    requires InExecuting(s, c) && DB.At(s.db, c, DB.Inserted)
    ensures Enabled(s, CommitReply(c, false)) && Enabled(s, Crash(c, true))
  {
  }

  /** Any call on a channel can fail. */
  lemma CallsCanFail(s: State, c: Id)
    requires IsUp(s, c)
    ensures s.consumers[c].phase.Succeeded? || s.consumers[c].phase.Copied? ==> Enabled(s, SendAck(c, false))
    ensures InFailed(s, c, GiveUp) ==> Enabled(s, SendDiscard(c, false))
    ensures InFailed(s, c, RetryLater) ==> Enabled(s, SendCopy(c, NotSent))
    ensures s.consumers[c].phase.CopyFailed? ==> Enabled(s, SendRequeue(c, false))
  {
  }

  /** How many steps a handling is from its end, at most. */
  function Left(p: Phase): nat {
    match p
    case Checking(_) => 5
    case Pricing(_) => 4
    case Executing(_, _) => 3
    case Failed(_, _, _) => 2
    case Succeeded(_) => 1
    case Copied(_) => 1
    case CopyFailed(_) => 1
    case _ => 0
  }

  /** A step that the process can take towards the end of its handling. */
  function Onward(p: Phase, c: Id): Action {
    match p
    case Checking(_) => Check(c)
    case Pricing(_) => Price(c, NoQuote(Failure.Plain))
    case Executing(_, _) => StoreFails(c)
    case Failed(m, cause, _) => if Decide(m, cause) == GiveUp then SendDiscard(c, true) else SendCopy(c, Sent)
    case CopyFailed(_) => SendRequeue(c, true)
    case _ => SendAck(c, true)
  }

  lemma OnwardIsEnabled(s: State, c: Id)
    requires Inv(s) && IsUp(s, c) && s.consumers[c].connected && Left(s.consumers[c].phase) > 0
    ensures Enabled(s, Onward(s.consumers[c].phase, c))
  {
    assert ConsumerInv(s.db, s.now, c, s.consumers[c]);
    var p := s.consumers[c].phase;
    if p.Executing? { RollbackIsEnabled(s, c); }
    if p.Pricing? { OutageIsPossible(s, c); }
  }

  lemma RollbackIsEnabled(s: State, c: Id)
    requires InExecuting(s, c) && c in s.db.txs
    ensures Enabled(s, StoreFails(c))
  {
  }

  lemma OutageIsPossible(s: State, c: Id)
    requires IsUp(s, c) && s.consumers[c].phase.Pricing? && s.consumers[c].phase.m.body.Encoded? && c !in s.db.txs
    ensures Enabled(s, Price(c, NoQuote(Failure.Plain)))
  {
  }

  /** The process is idle with its delivery settled on its channel. */
  ghost predicate HasSettled(k: Consumer, delivery: Option<Message>) {
    k.Up? && k.connected && k.phase.Idle? && k.unacked == delivery && exists f :: f in k.sent && Settles(f)
  }

  /** The handling is one step nearer to its end. */
  ghost predicate Nearer(k: Consumer, k': Consumer)
    requires k.Up?
  {
    && k'.Up? && k'.connected && k'.unacked == k.unacked && Left(k'.phase) < Left(k.phase)
    && (Left(k'.phase) == 0 ==> HasSettled(k', k.unacked))
  }

  /** The process moves on within its handling. */
  lemma MovesNearer(s: State, c: Id, a: Action)
    requires IsUp(s, c) && s.consumers[c].connected && Left(s.consumers[c].phase) >= 3
    requires a == Onward(s.consumers[c].phase, c) && Enabled(s, a)
    ensures c < |Next(s, a).consumers| && Nearer(s.consumers[c], Next(s, a).consumers[c])
  {
  }

  lemma SendsNearer(s: State, c: Id, a: Action)
    requires IsUp(s, c) && s.consumers[c].connected && 1 <= Left(s.consumers[c].phase) <= 2
    requires a == Onward(s.consumers[c].phase, c) && Enabled(s, a)
    ensures c < |Next(s, a).consumers| && Nearer(s.consumers[c], Next(s, a).consumers[c])
  {
    var sent := Next(s, a).consumers[c].sent;
    assert sent[|sent| - 1] in sent;
  }

  lemma OnwardIsOwn(p: Phase, c: Id)
    ensures P.Actor(Onward(p, c)) == Some(c)
  {
  }

  lemma OneOnward(s: State, c: Id, a: Action)
    requires IsUp(s, c) && s.consumers[c].connected && Left(s.consumers[c].phase) > 0
    requires a == Onward(s.consumers[c].phase, c) && Enabled(s, a)
    ensures c < |Next(s, a).consumers| && Nearer(s.consumers[c], Next(s, a).consumers[c])
  {
    if Left(s.consumers[c].phase) >= 3 { MovesNearer(s, c, a); } else { SendsNearer(s, c, a); }
  }

  /** The actions are consumer c's own and leave it idle, its delivery settled. */
  ghost predicate EndsHandling(s: State, actions: seq<Action>, c: Id, delivery: Option<Message>) {
    && ValidRun(s, actions)
    && (forall a :: a in actions ==> P.Actor(a) == Some(c))
    && c < |Run(s, actions).consumers| && HasSettled(Run(s, actions).consumers[c], delivery)
  }

  lemma OneStepMore(s: State, a: Action, later: seq<Action>, c: Id, delivery: Option<Message>)
    requires Enabled(s, a) && P.Actor(a) == Some(c) && EndsHandling(Next(s, a), later, c, delivery)
    ensures EndsHandling(s, [a] + later, c, delivery)
  {
    assert ([a] + later)[1..] == later;
  }

  /** Wherever a process with a channel is in its handling, nothing that the others hold
      can keep it from the end: in at most five steps of its own it can have settled its
      delivery and be idle again. */
  lemma {:induction false} HandlingCanEnd(s: State, c: Id) returns (actions: seq<Action>)
    requires Inv(s) && IsUp(s, c) && s.consumers[c].connected && Left(s.consumers[c].phase) > 0
    ensures |actions| <= Left(s.consumers[c].phase) <= 5
    ensures EndsHandling(s, actions, c, s.consumers[c].unacked)
    decreases Left(s.consumers[c].phase)
  {
    var a := Onward(s.consumers[c].phase, c);
    OnwardIsOwn(s.consumers[c].phase, c);
    OnwardIsEnabled(s, c);
    OneOnward(s, c, a);
    P.StepKeepsInv(s, a);
    var later := [];
    if Left(Next(s, a).consumers[c].phase) > 0 { later := HandlingCanEnd(Next(s, a), c); }
    OneStepMore(s, a, later, c, s.consumers[c].unacked);
    actions := [a] + later;
  }
}
