/** One delivery from its take-up to its result, over every run: which actions make its
    handling fail, and when it is given up. */
module HandlingRuns {
  import opened Prelude
  import opened Delivery
  import opened Protocol
  import opened ProtocolInvariant
  import P = ProtocolPreservation
  import Guarantees
  import Failure
  import DB = Database

  /** How far a process is with its delivery: under way, with a result, or past it. */
  function Stage(k: Consumer): nat {
    if k.Down? then 2
    else match k.phase
      case Checking(_) => 0
      case Pricing(_) => 0
      case Executing(_, _) => 0
      case Succeeded(_) => 1
      case Failed(_, _, _) => 1
      case _ => 2
  }

  /** The error that an action of consumer c makes the handling return. */
  function Cause(a: Action, c: Id): Option<Failure.Error> {
    match a
    case Price(d, NoQuote(cause)) => if d == c then Some(PriceError(cause)) else None
    case StoreFails(d) => if d == c then Some(STORE_ERROR) else None
    case CommitReply(d, acknowledged) => if d == c && !acknowledged then Some(STORE_ERROR) else None
    case _ => None
  }

  // ---------------------------------------------------------------------
  // One action

  /** Without a new delivery a process only moves on. */
  lemma StageGrows(s: State, a: Action, c: Id)
    requires Enabled(s, a) && c < |s.consumers| && P.Actor(a) == Some(c) && a != Take(c)
    ensures |Next(s, a).consumers| == |s.consumers|
    ensures var k := s.consumers[c]; var k' := Next(s, a).consumers[c];
      && Stage(k) <= Stage(k')
      && (Stage(k) == Stage(k') == 1 ==> k'.phase == k.phase)
  {
    if P.IsChannel(a) { ChannelKeepsPhase(s, a, c); }
  }

  lemma ChannelKeepsPhase(s: State, a: Action, c: Id)
    requires Enabled(s, a) && c < |s.consumers| && P.Actor(a) == Some(c) && P.IsChannel(a)
    ensures |Next(s, a).consumers| == |s.consumers|
    ensures var k := s.consumers[c]; var k' := Next(s, a).consumers[c];
      k'.Down? || k' == FRESH || (k.Up? && k'.phase == k.phase)
    ensures Next(s, a).consumers[c] == FRESH && a.Start? ==> s.consumers[c].Down?
    ensures !a.Start? && Next(s, a).consumers[c].Up? ==>
      s.consumers[c].Up? && Next(s, a).consumers[c].phase == s.consumers[c].phase
  {
  }

  lemma CausesFail(s: State, a: Action, c: Id)
    requires Enabled(s, a) && c < |s.consumers| && Cause(a, c).Some?
    ensures Stage(s.consumers[c]) == 0 && |Next(s, a).consumers| == |s.consumers|
    ensures Next(s, a).consumers[c].Up?
    ensures Next(s, a).consumers[c].phase == Phase.Failed(s.consumers[c].phase.m, Cause(a, c).value, s.now)
  {
  }

  /** Nothing else makes an event of the API fail. */
  lemma NothingElseFails(s: State, a: Action, c: Id)
    requires Inv(s) && Enabled(s, a) && c < |s.consumers| && P.Actor(a) == Some(c) && Cause(a, c).None?
    requires Stage(s.consumers[c]) == 0
    ensures |Next(s, a).consumers| == |s.consumers|
    ensures var k := s.consumers[c]; var k' := Next(s, a).consumers[c];
      && (Stage(k') == 0 ==> k'.phase.m == k.phase.m)
      && (Stage(k') == 1 ==> k'.phase == Succeeded(k.phase.m))
  {
    if P.IsChannel(a) {
      ChannelKeepsPhase(s, a, c);
    } else {
      assert ConsumerInv(s.db, s.now, c, s.consumers[c]);
      if a.Check? { assert Contract(s.db, s.consumers[c].phase.m.body.event); }
      if a.ExistsReply? { P.OutcomeSettles(s, a, c); }
      MovingSucceeds(s, a, c);
    }
  }

  lemma MovingSucceeds(s: State, a: Action, c: Id)
    requires Enabled(s, a) && c < |s.consumers| && P.Actor(a) == Some(c) && Cause(a, c).None?
    requires Stage(s.consumers[c]) == 0 && !P.IsChannel(a)
    requires a.Check? ==> Admit(s.consumers[c].phase.m.body).Ok?
    requires a.ExistsReply? ==> DB.ExistsReply(s.db, c)
    ensures |Next(s, a).consumers| == |s.consumers| && Next(s, a).consumers[c].Up?
    ensures var k := s.consumers[c]; var k' := Next(s, a).consumers[c];
      (Stage(k') == 0 && k'.phase.m == k.phase.m) || k'.phase == Succeeded(k.phase.m)
  {
  }

  // ---------------------------------------------------------------------
  // Validation

  /** Validation fails a message exactly when its body is no event or breaks the
      contract, and then for good. Every other message goes on to its price. */
  lemma CheckDecides(s: State, c: Id)
    requires Enabled(s, Check(c))
    ensures c < |s.consumers| == |Next(s, Check(c)).consumers| && Next(s, Check(c)).db == s.db
    ensures var k := s.consumers[c]; var k' := Next(s, Check(c)).consumers[c];
      && k'.Up? && k' == k.(phase := k'.phase)
      && (!Unusable(k.phase.m.body) ==> k'.phase == Pricing(k.phase.m))
      && (Unusable(k.phase.m.body) ==>
            && k'.phase.Failed? && k'.phase.m == k.phase.m && k'.phase.failedAt == s.now
            && Failure.InvalidEvent in Failure.Leaves(k'.phase.cause)
            && Failure.Classify(k'.phase.cause) == Failure.Permanent
            && InFailed(Next(s, Check(c)), c, GiveUp))
  {
    UnusableIff(s.consumers[c].phase.m.body);
  }

  // ---------------------------------------------------------------------
  // All actions since the take-up

  /** The actions explain where the process is with its delivery m. */
  ghost predicate Accounted(actions: seq<Action>, c: Id, m: Message, k: Consumer) {
    && (Stage(k) < 2 ==> k.phase.m == m)
    && (Stage(k) == 0 || (Stage(k) == 1 && k.phase.Succeeded?) ==> forall a :: a in actions ==> Cause(a, c).None?)
    && (Stage(k) == 1 && k.phase.Failed? ==>
          && (exists a :: a in actions && Cause(a, c).Some?)
          && forall a :: a in actions && Cause(a, c).Some? ==> Cause(a, c).value == k.phase.cause)
  }

  lemma AccountedStep(s: State, actions: seq<Action>, a: Action, c: Id, m: Message)
    requires Inv(s) && Enabled(s, a) && c < |s.consumers| && a != Take(c)
    requires Accounted(actions, c, m, s.consumers[c])
    ensures |Next(s, a).consumers| == |s.consumers|
    ensures Accounted(actions + [a], c, m, Next(s, a).consumers[c])
  {
    P.NowGrows(s, a);
    var k := s.consumers[c];
    if P.Actor(a) != Some(c) {
      P.OthersUntouched(s, a, c);
      assert Cause(a, c).None?;
    } else {
      StageGrows(s, a, c);
      if Cause(a, c).Some? { CausesFail(s, a, c); }
      else if Stage(k) == 0 { NothingElseFails(s, a, c); }
    }
    AccountedMore(actions, a, c, m, k, Next(s, a).consumers[c]);
  }

  lemma AccountedMore(actions: seq<Action>, a: Action, c: Id, m: Message, k: Consumer, k': Consumer)
    requires Accounted(actions, c, m, k) && Stage(k) <= Stage(k')
    requires Stage(k) == Stage(k') == 1 ==> k'.phase == k.phase && Cause(a, c).None?
    requires Stage(k) == 0 ==>
      if Cause(a, c).Some? then k'.Up? && k'.phase.Failed? && k'.phase.m == m && k'.phase.cause == Cause(a, c).value
      else (Stage(k') == 0 ==> k'.phase.m == m) && (Stage(k') == 1 ==> k'.phase == Succeeded(m))
    ensures Accounted(actions + [a], c, m, k')
  {
    var longer := actions + [a];
    assert forall x :: x in longer <==> x in actions || x == a;
    if Stage(k') == 1 && k'.phase.Failed? {
      if Stage(k) == 0 {
        assert a in longer && Cause(a, c).Some?;
      } else {
        var x :| x in actions && Cause(x, c).Some?;
        assert x in longer;
      }
    }
  }

  lemma {:induction false} HandlingIsAccounted(s: State, actions: seq<Action>, c: Id)
    requires Inv(s) && IsUp(s, c) && Stage(s.consumers[c]) == 0
    requires ValidRun(s, actions) && Take(c) !in actions
    ensures c < |Run(s, actions).consumers|
    ensures Accounted(actions, c, s.consumers[c].phase.m, Run(s, actions).consumers[c])
    decreases |actions|
  {
    if actions != [] {
      var before, a := actions[..|actions| - 1], actions[|actions| - 1];
      assert actions == before + [a];
      var at := Before(s, actions);
      HandlingIsAccounted(s, before, c);
      AccountedStep(at, before, a, c, s.consumers[c].phase.m);
    }
  }

  /** The state before the last action of a run. */
  lemma Before(s: State, actions: seq<Action>) returns (at: State)
    requires Inv(s) && ValidRun(s, actions) && actions != []
    ensures ValidRun(s, actions[..|actions| - 1]) && at == Run(s, actions[..|actions| - 1]) && Inv(at)
    ensures Enabled(at, actions[|actions| - 1]) && Run(s, actions) == Next(at, actions[|actions| - 1])
  {
    LastStep(s, actions);
    at := Run(s, actions[..|actions| - 1]);
    P.RunKeepsInv(s, actions[..|actions| - 1]);
  }

  // ---------------------------------------------------------------------
  // When a delivery is given up

  /** The action fails the delivery for good: the price service refuses it, or anything
      fails on the last attempt. */
  predicate GivesUpOn(a: Action, c: Id, m: Message) {
    match a
    case Price(d, NoQuote(cause)) => d == c && (Failure.PermanentCode(cause) || LastAttempt(m))
    case StoreFails(d) => d == c && LastAttempt(m)
    case CommitReply(d, acknowledged) => d == c && !acknowledged && LastAttempt(m)
    case _ => false
  }

  predicate LastAttempt(m: Message) { RetryAttempt(m.headers) == MAX_DELIVERY_ATTEMPTS - 1 }

  /** The process has a result for the delivery that it took up in s. */
  predicate HasResult(s: State, c: Id) { IsUp(s, c) && Stage(s.consumers[c]) == 1 }

  lemma CauseDecides(a: Action, c: Id, m: Message)
    requires Cause(a, c).Some? && 0 <= RetryAttempt(m.headers) < MAX_DELIVERY_ATTEMPTS
    requires a.Price? ==> a.reply.cause.Status? || a.reply.cause.Plain?
    ensures Decide(m, Cause(a, c).value) == GiveUp <==> GivesUpOn(a, c, m)
  {
    OutagesBlameNobody(if a.Price? then a.reply.cause else Failure.Plain);
  }

  lemma {:induction false} RepliesArePossible(s: State, actions: seq<Action>, a: Action)
    requires ValidRun(s, actions) && a in actions && a.Price? && a.reply.NoQuote?
    ensures a.reply.cause.Status? || a.reply.cause.Plain?
    decreases |actions|
  {
    if a != actions[0] { RepliesArePossible(Next(s, actions[0]), actions[1..], a); }
  }

  /** A delivery is rejected for good exactly when one of the actions since its take-up
      fails it for good. Resolved or not, it makes no difference. */
  lemma GivenUpIff(s: State, actions: seq<Action>, c: Id)
    requires Inv(s) && IsUp(s, c) && Stage(s.consumers[c]) == 0
    requires ValidRun(s, actions) && Take(c) !in actions && HasResult(Run(s, actions), c)
    ensures Run(s, actions).consumers[c].phase.m == s.consumers[c].phase.m
    ensures InFailed(Run(s, actions), c, GiveUp) <==>
      exists a :: a in actions && GivesUpOn(a, c, s.consumers[c].phase.m)
  {
    var m := s.consumers[c].phase.m;
    var k := Run(s, actions).consumers[c];
    HandlingIsAccounted(s, actions, c);
    assert ConsumerInv(s.db, s.now, c, s.consumers[c]);
    forall a | a in actions && Cause(a, c).Some? ensures Decide(m, Cause(a, c).value) == GiveUp <==> GivesUpOn(a, c, m) {
      if a.Price? { RepliesArePossible(s, actions, a); }
      CauseDecides(a, c, m);
    }
    assert forall a :: GivesUpOn(a, c, m) ==> Cause(a, c).Some?;
  }

  // ---------------------------------------------------------------------
  // Deliveries of resolved orders

  predicate Settled(s: State, m: Message) {
    m.body.Encoded? && m.body.event.orderId in s.db.orders && !DB.IsPending(s.db.orders, m.body.event.orderId)
  }

  predicate Commits(a: Action, c: Id) { a.CommitReply? && a.c == c }

  lemma NoCommitForSettled(s: State, c: Id)
    requires Inv(s) && IsUp(s, c) && !Resting(s.consumers[c].phase) && Settled(s, s.consumers[c].phase.m)
    ensures forall a :: Commits(a, c) ==> !Enabled(s, a)
  {
    assert ConsumerInv(s.db, s.now, c, s.consumers[c]);
    if c in s.db.txs { assert DB.TxInv(s.db, c); }
  }

  lemma {:induction false} SettledNeverCommits(s: State, actions: seq<Action>, c: Id)
    requires Inv(s) && IsUp(s, c) && Stage(s.consumers[c]) == 0 && Settled(s, s.consumers[c].phase.m)
    requires ValidRun(s, actions) && Take(c) !in actions
    ensures forall a :: a in actions ==> !Commits(a, c)
    decreases |actions|
  {
    if actions != [] {
      var before, a := actions[..|actions| - 1], actions[|actions| - 1];
      assert actions == before + [a];
      LastStep(s, actions);
      SettledNeverCommits(s, before, c);
      NextIsNoCommit(s, before, a, c);
    }
  }

  lemma NextIsNoCommit(s: State, actions: seq<Action>, a: Action, c: Id)
    requires Inv(s) && IsUp(s, c) && Stage(s.consumers[c]) == 0 && Settled(s, s.consumers[c].phase.m)
    requires ValidRun(s, actions) && Take(c) !in actions && Enabled(Run(s, actions), a)
    ensures !Commits(a, c)
  {
    HandlingIsAccounted(s, actions, c);
    P.RunKeepsInv(s, actions);
    LastIsNoCommit(Run(s, actions), a, c, s.consumers[c].phase.m);
  }

  lemma LastIsNoCommit(s: State, a: Action, c: Id, m: Message)
    requires Inv(s) && Enabled(s, a) && c < |s.consumers| && Settled(s, m)
    requires Stage(s.consumers[c]) == 0 ==> s.consumers[c].phase.m == m
    ensures !Commits(a, c)
  {
    if Commits(a, c) { NoCommitForSettled(s, c); }
  }

  /** The documented promise, for a delivery whose order is resolved when its handling
      begins: it is dead-lettered instead of acked exactly when its price lookup brings
      no quote and the status is permanent or this is the last attempt, or the store
      fails on the last attempt. */
  lemma ResolvedDeliveryIff(s: State, actions: seq<Action>, c: Id)
    requires Guarantees.Reachable(s) && IsUp(s, c) && s.consumers[c].phase.Checking?
    requires Settled(s, s.consumers[c].phase.m)
    requires ValidRun(s, actions) && Take(c) !in actions && HasResult(Run(s, actions), c)
    ensures InFailed(Run(s, actions), c, GiveUp) <==>
      || Refused(actions, c)
      || (LastAttempt(s.consumers[c].phase.m) && (Unquoted(actions, c) || StoreFails(c) in actions))
    ensures Run(s, actions).consumers[c].phase.Succeeded? <==> !Unquoted(actions, c) && StoreFails(c) !in actions
  {
    Guarantees.ReachableInv(s);
    var m := s.consumers[c].phase.m;
    GivenUpIff(s, actions, c);
    SettledNeverCommits(s, actions, c);
    HandlingIsAccounted(s, actions, c);
    WithoutCommits(actions, c, m);
  }

  /** Whether some lookup of consumer c fails for good, and whether any fails. */
  ghost predicate Refused(actions: seq<Action>, c: Id) {
    exists x :: Price(c, NoQuote(x)) in actions && Failure.PermanentCode(x)
  }

  ghost predicate Unquoted(actions: seq<Action>, c: Id) { exists x :: Price(c, NoQuote(x)) in actions }

  lemma WithoutCommits(actions: seq<Action>, c: Id, m: Message)
    requires forall a :: a in actions ==> !Commits(a, c)
    ensures (exists a :: a in actions && Cause(a, c).Some?) <==> Unquoted(actions, c) || StoreFails(c) in actions
    ensures (exists a :: a in actions && GivesUpOn(a, c, m)) <==>
      Refused(actions, c) || (LastAttempt(m) && (Unquoted(actions, c) || StoreFails(c) in actions))
  {
    if x :| Price(c, NoQuote(x)) in actions { LookupCauses(c, x, m); }
    if x :| Price(c, NoQuote(x)) in actions && Failure.PermanentCode(x) { LookupCauses(c, x, m); }
    LookupCauses(c, Failure.Plain, m);
    forall a | a in actions && Cause(a, c).Some? ensures Unquoted(actions, c) || StoreFails(c) in actions {
      if a.Price? { assert a == Price(c, NoQuote(a.reply.cause)); }
    }
    forall a | a in actions && GivesUpOn(a, c, m)
      ensures Refused(actions, c) || (LastAttempt(m) && (Unquoted(actions, c) || StoreFails(c) in actions))
    {
      if a.Price? { assert a == Price(c, NoQuote(a.reply.cause)); }
    }
  }

  lemma LookupCauses(c: Id, x: Failure.Error, m: Message)
    ensures Cause(Price(c, NoQuote(x)), c).Some? && Cause(StoreFails(c), c).Some?
    ensures GivesUpOn(Price(c, NoQuote(x)), c, m) <==> Failure.PermanentCode(x) || LastAttempt(m)
    ensures GivesUpOn(StoreFails(c), c, m) <==> LastAttempt(m)
  {
  }

  /** A delivery given up on an open channel goes to the dead-letter queue. */
  lemma GivenUpIsDeadLettered(s: State, c: Id)
    requires Guarantees.Reachable(s) && InFailed(s, c, GiveUp) && s.consumers[c].connected
    ensures ValidRun(s, [SendDiscard(c, true), Process(c)])
    ensures var p := s.consumers[c].phase;
      Run(s, [SendDiscard(c, true), Process(c)]).dlq == s.dlq + [DeadLetter(p.m, p.cause, p.failedAt)]
  {
    Guarantees.ReachableInv(s);
    var k := s.consumers[c];
    assert ConsumerInv(s.db, s.now, c, k);
    assert forall f :: f in k.sent ==> !Settles(f) && !f.Publish? && f != Close;
    HeadIn(k.sent);
    DiscardIsSent(s, c);
    DiscardIsTaken(Next(s, SendDiscard(c, true)), c);
    RunTwo(s, SendDiscard(c, true), Process(c));
  }

  lemma DiscardIsSent(s: State, c: Id)
    requires InFailed(s, c, GiveUp) && s.consumers[c].connected && s.consumers[c].sent == []
    ensures Enabled(s, SendDiscard(c, true))
    ensures var k := s.consumers[c];
      Next(s, SendDiscard(c, true)) ==
        Set(s, c, k.(phase := Idle, sent := [Discard(k.phase.cause, k.phase.failedAt)]))
  {
    var k := s.consumers[c];
    assert k.sent + [Discard(k.phase.cause, k.phase.failedAt)] == [Discard(k.phase.cause, k.phase.failedAt)];
  }

  lemma DiscardIsTaken(s: State, c: Id)
    requires IsUp(s, c) && |s.consumers[c].sent| == 1 && s.consumers[c].sent[0].Discard?
    requires s.consumers[c].unacked.Some?
    ensures Enabled(s, Process(c))
    ensures var k := s.consumers[c];
      Next(s, Process(c)).dlq == s.dlq + [DeadLetter(k.unacked.value, k.sent[0].cause, k.sent[0].failedAt)]
  {
  }
}
