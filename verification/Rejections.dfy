/** What becomes of the order when its delivery is rejected for good. DECISIONS.md says
    that orders which exhaust their retries end PENDING (lines 579-581). */
module Rejections {
  import opened Prelude
  import opened Orders
  import opened Delivery
  import opened Protocol
  import opened ProtocolInvariant
  import opened HandlingRuns
  import P = ProtocolPreservation
  import Guarantees
  import DB = Database

  // ---------------------------------------------------------------------
  // When an order stops being PENDING

  /** The statement resolves the order: a commit of its execution, or a change of its
      status from elsewhere. */
  predicate Ends(db: DB.Db, step: DB.Step, o: Uuid)
    requires DB.Enabled(db, step)
  {
    || (step.Resolve? && step.orderId == o)
    || (step.Commit? && db.txs[step.t].orderId == o)
  }

  lemma PendingUntilEnd(db: DB.Db, step: DB.Step, o: Uuid)
    requires DB.Inv(db) && DB.Enabled(db, step) && o in db.orders
    ensures DB.IsPending(DB.Next(db, step).orders, o) <==> DB.IsPending(db.orders, o) && !Ends(db, step, o)
  {
    if step.Commit? { assert DB.TxInv(db, step.t); }
  }

  predicate ActionEnds(s: State, a: Action, o: Uuid)
    requires Enabled(s, a)
  {
    DbStep(s, a).Some? && DB.Enabled(s.db, DbStep(s, a).value) && Ends(s.db, DbStep(s, a).value, o)
  }

  lemma PendingUntilActionEnds(s: State, a: Action, o: Uuid)
    requires Inv(s) && Enabled(s, a) && o in s.db.orders
    ensures o in Next(s, a).db.orders
    ensures DB.IsPending(Next(s, a).db.orders, o) <==> DB.IsPending(s.db.orders, o) && !ActionEnds(s, a, o)
  {
    DbStepIs(s, a);
    DbKeeps(s, a);
    if DbStep(s, a).Some? { PendingUntilEnd(s.db, DbStep(s, a).value, o); }
  }

  /** Nobody but consumer c resolves the order in this run. */
  predicate Alone(s: State, actions: seq<Action>, c: Id, o: Uuid)
    requires ValidRun(s, actions)
    decreases |actions|
  {
    actions != [] ==>
      && (P.Actor(actions[0]) == Some(c) || !ActionEnds(s, actions[0], o))
      && Alone(Next(s, actions[0]), actions[1..], c, o)
  }

  // ---------------------------------------------------------------------
  // The consumer's own part

  /** A process that is past its delivery stays so until it takes up another. */
  lemma {:induction false} PastStays(s: State, actions: seq<Action>, c: Id)
    requires ValidRun(s, actions) && Take(c) !in actions && c < |s.consumers| && Stage(s.consumers[c]) == 2
    ensures c < |Run(s, actions).consumers| && Stage(Run(s, actions).consumers[c]) == 2
    decreases |actions|
  {
    if actions != [] {
      StageStep(s, actions[0], c);
      PastStays(Next(s, actions[0]), actions[1..], c);
    }
  }

  lemma StageStep(s: State, a: Action, c: Id)
    requires Enabled(s, a) && c < |s.consumers| && a != Take(c)
    ensures |Next(s, a).consumers| == |s.consumers|
    ensures var k := s.consumers[c]; var k' := Next(s, a).consumers[c];
      && Stage(k) <= Stage(k')
      && (Stage(k) == Stage(k') == 1 ==> k'.phase == k.phase)
  {
    P.NowGrows(s, a);
    if P.Actor(a) != Some(c) { P.OthersUntouched(s, a, c); } else { StageGrows(s, a, c); }
  }

  lemma {:induction false} ResultStays(s: State, actions: seq<Action>, c: Id)
    requires ValidRun(s, actions) && Take(c) !in actions && HasResult(s, c) && HasResult(Run(s, actions), c)
    ensures Run(s, actions).consumers[c].phase == s.consumers[c].phase
    decreases |actions|
  {
    if actions != [] {
      var next := Next(s, actions[0]);
      StageStep(s, actions[0], c);
      if Stage(next.consumers[c]) == 2 { PastStays(next, actions[1..], c); }
      ResultStays(next, actions[1..], c);
    }
  }

  /** While the delivery is under way and until it has its result, the consumer resolves
      the order by its commit and by nothing else. */
  lemma OwnEnd(s: State, a: Action, c: Id)
    requires Inv(s) && Enabled(s, a) && IsUp(s, c) && P.Actor(a) == Some(c)
    requires Stage(s.consumers[c]) <= 1 && s.consumers[c].phase.m.body.Encoded?
    requires c < |Next(s, a).consumers| && Stage(Next(s, a).consumers[c]) <= 1
    ensures ActionEnds(s, a, s.consumers[c].phase.m.body.event.orderId) <==> Commits(a, c)
  {
    assert ConsumerInv(s.db, s.now, c, s.consumers[c]);
    DbStepIs(s, a);
  }

  lemma CommitResult(s: State, a: Action, c: Id)
    requires Enabled(s, a) && Commits(a, c)
    ensures HasResult(Next(s, a), c) && Next(s, a).consumers[c].phase.m == s.consumers[c].phase.m
    ensures Next(s, a).consumers[c].phase.Succeeded? <==> a == CommitReply(c, true)
  {
  }

  lemma NoCommitWithResult(s: State, a: Action, c: Id)
    requires Enabled(s, a) && HasResult(s, c)
    ensures !Commits(a, c)
  {
  }

  /** The order of the delivery is known to the database. */
  predicate About(s: State, c: Id, o: Uuid) {
    && IsUp(s, c) && Stage(s.consumers[c]) <= 1
    && s.consumers[c].phase.m.body.Encoded? && s.consumers[c].phase.m.body.event.orderId == o
    && o in s.db.orders
  }

  lemma AboutStays(s: State, a: Action, c: Id, o: Uuid)
    requires Inv(s) && Enabled(s, a) && About(s, c, o) && a != Take(c)
    ensures |Next(s, a).consumers| == |s.consumers|
    ensures Stage(Next(s, a).consumers[c]) <= 1 ==> About(Next(s, a), c, o)
  {
    DbKeeps(s, a);
    StageStep(s, a, c);
    if P.Actor(a) != Some(c) {
      P.OthersUntouched(s, a, c);
    } else if Stage(s.consumers[c]) == 0 {
      if Cause(a, c).Some? { CausesFail(s, a, c); } else { NothingElseFails(s, a, c); }
    }
  }

  // ---------------------------------------------------------------------
  // The order of a failed delivery

  /** What the theorem below says of the rest of a run. */
  ghost predicate Explained(s: State, actions: seq<Action>, c: Id, o: Uuid)
    requires ValidRun(s, actions)
  {
    DB.IsPending(Run(s, actions).db.orders, o) <==>
      DB.IsPending(s.db.orders, o) && Alone(s, actions, c, o) && CommitReply(c, false) !in actions
  }

  lemma OneMoreExplained(s: State, actions: seq<Action>, c: Id, o: Uuid)
    requires Inv(s) && ValidRun(s, actions) && actions != [] && o in s.db.orders
    requires P.Actor(actions[0]) == Some(c) ==> (ActionEnds(s, actions[0], o) <==> actions[0] == CommitReply(c, false))
    requires Explained(Next(s, actions[0]), actions[1..], c, o)
    ensures Explained(s, actions, c, o)
  {
    PendingUntilActionEnds(s, actions[0], o);
    assert actions == [actions[0]] + actions[1..];
  }

  /** The first action of a run that ends with a failure. */
  lemma FirstAction(s: State, actions: seq<Action>, c: Id, o: Uuid)
    requires Inv(s) && ValidRun(s, actions) && actions != [] && Take(c) !in actions && About(s, c, o)
    requires HasResult(Run(s, actions), c) && Run(s, actions).consumers[c].phase.Failed?
    ensures About(Next(s, actions[0]), c, o)
    ensures P.Actor(actions[0]) == Some(c) ==> (ActionEnds(s, actions[0], o) <==> actions[0] == CommitReply(c, false))
  {
    var a, rest := actions[0], actions[1..];
    AboutStays(s, a, c, o);
    if Stage(Next(s, a).consumers[c]) == 2 { PastStays(Next(s, a), rest, c); }
    if P.Actor(a) == Some(c) { OwnEnd(s, a, c); }
    if Commits(a, c) { NoAcknowledgedCommit(s, a, rest, c); }
  }

  lemma NoAcknowledgedCommit(s: State, a: Action, rest: seq<Action>, c: Id)
    requires Enabled(s, a) && Commits(a, c) && ValidRun(Next(s, a), rest) && Take(c) !in rest
    requires HasResult(Run(Next(s, a), rest), c) && Run(Next(s, a), rest).consumers[c].phase.Failed?
    ensures a == CommitReply(c, false)
  {
    CommitResult(s, a, c);
    ResultStays(Next(s, a), rest, c);
  }

  lemma {:induction false} FailureIsExplained(s: State, actions: seq<Action>, c: Id, o: Uuid)
    requires Inv(s) && ValidRun(s, actions) && Take(c) !in actions && About(s, c, o)
    requires HasResult(Run(s, actions), c) && Run(s, actions).consumers[c].phase.Failed?
    ensures Explained(s, actions, c, o)
    decreases |actions|
  {
    if actions != [] {
      FirstAction(s, actions, c, o);
      P.StepKeepsInv(s, actions[0]);
      FailureIsExplained(Next(s, actions[0]), actions[1..], c, o);
      OneMoreExplained(s, actions, c, o);
    }
  }

  /** The documented promise, for every delivery that is rejected for good: its order is
      PENDING then exactly when it was PENDING at the take-up, nobody else resolved it
      meanwhile, and the consumer lost no reply to a COMMIT of its own. */
  lemma RejectedOrderIsPendingIff(s: State, actions: seq<Action>, c: Id)
    requires Guarantees.Reachable(s) && IsUp(s, c) && s.consumers[c].phase.Checking?
    requires ValidRun(s, actions) && Take(c) !in actions && InFailed(Run(s, actions), c, GiveUp)
    ensures s.consumers[c].phase.m.body.Encoded?
    ensures var o := s.consumers[c].phase.m.body.event.orderId;
      DB.IsPending(Run(s, actions).db.orders, o) <==>
        DB.IsPending(s.db.orders, o) && Alone(s, actions, c, o) && CommitReply(c, false) !in actions
  {
    Guarantees.ReachableInv(s);
    assert ConsumerInv(s.db, s.now, c, s.consumers[c]);
    FailureIsExplained(s, actions, c, s.consumers[c].phase.m.body.event.orderId);
  }
}
