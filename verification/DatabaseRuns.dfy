/** What a run of the protocol does to the database: a run of the statements, equal to
    atomic calls, in which every handling is the program of ExecuteOrder. */
module DatabaseRuns {
  import opened Prelude
  import opened Delivery
  import opened Protocol
  import opened ProtocolInvariant
  import opened HandlingRuns
  import opened Store
  import Refinement
  import P = ProtocolPreservation
  import Guarantees
  import Failure
  import DB = Database

  /** The statements of a run, in order. */
  function DbSteps(s: State, actions: seq<Action>): seq<DB.Step>
    requires ValidRun(s, actions)
    decreases |actions|
  {
    if actions == [] then []
    else
      LastStep(s, actions);
      var before := actions[..|actions| - 1];
      var step := DbStep(Run(s, before), actions[|actions| - 1]);
      if step.Some? then DbSteps(s, before) + [step.value] else DbSteps(s, before)
  }

  /** The database part of a protocol run is a run of the database. */
  lemma {:induction false} RunsProject(s: State, actions: seq<Action>)
    requires ValidRun(s, actions)
    ensures DB.ValidRun(s.db, DbSteps(s, actions))
    ensures DB.Run(s.db, DbSteps(s, actions)) == Run(s, actions).db
    decreases |actions|
  {
    if actions != [] {
      LastStep(s, actions);
      var before, a := actions[..|actions| - 1], actions[|actions| - 1];
      RunsProject(s, before);
      DbStepIs(Run(s, before), a);
      var step := DbStep(Run(s, before), a);
      if step.Some? { RunAppend(s.db, DbSteps(s, before), step.value); }
    }
  }

  // ---------------------------------------------------------------------
  // The protocol never skips a PENDING order

  lemma NoActionSkipsPending(s: State, a: Action)
    requires Inv(s) && Enabled(s, a) && DbStep(s, a).Some?
    ensures DB.Enabled(s.db, DbStep(s, a).value) && !Refinement.PendingSkip(s.db, DbStep(s, a).value)
  {
    DbStepIs(s, a);
    if a.ExistsReply? {
      P.OutcomeSettles(s, a, a.c);
      assert ConsumerInv(s.db, s.now, a.c, s.consumers[a.c]);
    }
  }

  lemma {:induction false} RunSkipsNoPending(s: State, actions: seq<Action>)
    requires Inv(s) && ValidRun(s, actions)
    ensures DB.ValidRun(s.db, DbSteps(s, actions)) && Refinement.NoPendingSkip(s.db, DbSteps(s, actions))
    decreases |actions|
  {
    RunsProject(s, actions);
    if actions != [] {
      var at := Before(s, actions);
      var before, a := actions[..|actions| - 1], actions[|actions| - 1];
      RunSkipsNoPending(s, before);
      RunsProject(s, before);
      if DbStep(at, a).Some? {
        NoActionSkipsPending(at, a);
        Refinement.NoPendingSkipAppend(s.db, DbSteps(s, before), DbStep(at, a).value);
      }
    }
  }

  /** The whole system over its whole life: what crashes, redeliveries, duplicates and
      interleaved transactions leave in the tables is what some sequence of atomic
      calls of ExecuteOrder would leave. */
  lemma SystemIsAtomic(n: nat, actions: seq<Action>)
    requires ValidRun(Init(n), actions)
    ensures DB.ValidRun(DB.EMPTY, DbSteps(Init(n), actions))
    ensures Refinement.AtomicRun(Refinement.View(DB.EMPTY),
                                 Refinement.Ops(DB.EMPTY, DbSteps(Init(n), actions)),
                                 Refinement.View(Run(Init(n), actions).db))
  {
    InitInv(n);
    RunSkipsNoPending(Init(n), actions);
    RunsProject(Init(n), actions);
    Refinement.RunRefinesIff(DB.EMPTY, DbSteps(Init(n), actions));
  }

  // ---------------------------------------------------------------------
  // A handling is the program of ExecuteOrder

  /** The transaction that a message's handling runs when the lookup brings this price. */
  function CallOf(m: Message, price: real): DB.Tx
    requires m.body.Encoded?
  {
    DB.Tx(m.body.event.orderId, price, m.body.event.quantity, DB.Begun)
  }

  /** The statements so far of a transaction that is still open. */
  predicate SoFar(own: Log, c: Id, tx: DB.Tx) {
    var asked := Asked(c, tx.orderId, tx.price, tx.quantity);
    match tx.pc
    case Begun => own == asked.earlier
    case Waiting => own == asked
    case Updated => own == After(asked, DB.Lock(c))
    case Inserted => own == After(After(asked, DB.Lock(c)), DB.Insert(c))
    case Missed(_) => own == asked || own == After(asked, DB.Lock(c))
  }

  /** A call that executed the order. */
  predicate Did(own: Log, c: Id, tx: DB.Tx, db: DB.Db) {
    && Executes(own, c, tx.orderId, tx.price, tx.quantity)
    && DB.IsExecuted(db.orders, tx.orderId) && DB.Row(tx) in db.executions
  }

  /** A call that had nothing to execute. */
  predicate Skipped(own: Log, c: Id, tx: DB.Tx, db: DB.Db) {
    && Looks(own, c, tx.orderId, tx.price, tx.quantity)
    && tx.orderId in db.orders && !DB.IsPending(db.orders, tx.orderId)
  }

  /** A call that failed: rolled back, or committed with its reply lost. */
  predicate Lost(own: Log, c: Id, tx: DB.Tx, db: DB.Db) {
    (GivesUp(own, c, tx.orderId, tx.price, tx.quantity) && own != Nothing) || Did(own, c, tx, db)
  }

  /** The statements of consumer c since its take-up explain where it is with m. */
  ghost predicate Traced(own: Log, c: Id, m: Message, k: Consumer, db: DB.Db) {
    && m.body.Encoded?
    && (Stage(k) < 2 ==> k.phase.m == m)
    && (k.Up? && (k.phase.Checking? || k.phase.Pricing?) ==> own == Nothing)
    && (k.Up? && k.phase.Executing? ==> c in db.txs && SoFar(own, c, db.txs[c]))
    && (k.Up? && k.phase.Succeeded? ==>
          exists price :: Did(own, c, CallOf(m, price), db) || Skipped(own, c, CallOf(m, price), db))
    && (k.Up? && k.phase.Failed? ==>
          || (own == Nothing && exists x :: k.phase.cause == PriceError(x))
          || (k.phase.cause == STORE_ERROR && exists price :: Lost(own, c, CallOf(m, price), db)))
  }

  /** Results outlive whatever others do to the database afterwards. */
  lemma ResultsStay(own: Log, c: Id, tx: DB.Tx, a: DB.Db, b: DB.Db)
    requires DB.Evolves(a, b) && forall e :: e in a.executions ==> e in b.executions
    ensures Did(own, c, tx, a) ==> Did(own, c, tx, b)
    ensures Skipped(own, c, tx, a) ==> Skipped(own, c, tx, b)
    ensures Lost(own, c, tx, a) ==> Lost(own, c, tx, b)
  {
  }

  lemma ExecutionsStay(s: State, a: Action)
    requires Enabled(s, a)
    ensures forall e :: e in s.db.executions ==> e in Next(s, a).db.executions
  {
    DbStepIs(s, a);
  }

  /** The process does not move, or moves on to nothing new. */
  lemma TracedStays(own: Log, c: Id, m: Message, k: Consumer, k': Consumer, a: DB.Db, b: DB.Db)
    requires Traced(own, c, m, k, a) && DB.Evolves(a, b) && forall e :: e in a.executions ==> e in b.executions
    requires Stage(k') < 2 ==> k.Up? && k'.phase == k.phase
    requires Stage(k') == 0 && c in a.txs ==> c in b.txs && b.txs[c] == a.txs[c]
    ensures Traced(own, c, m, k', b)
  {
    forall price { ResultsStay(own, c, CallOf(m, price), a, b); }
  }

  /** The log after an action of consumer c. */
  function Longer(own: Log, c: Id, s: State, a: Action): Log
    requires Enabled(s, a)
  {
    if DbStep(s, a).Some? && Own(DbStep(s, a).value, c) then After(own, DbStep(s, a).value) else own
  }

  lemma OthersOwnNothing(own: Log, c: Id, s: State, a: Action)
    requires Enabled(s, a) && P.Actor(a) != Some(c)
    ensures Longer(own, c, s, a) == own
  {
  }

  /** After the action the longer log explains where the process is. */
  ghost predicate StaysTraced(own: Log, c: Id, s: State, a: Action, m: Message)
    requires Enabled(s, a)
  {
    && c < |Next(s, a).consumers|
    && Traced(Longer(own, c, s, a), c, m, Next(s, a).consumers[c], Next(s, a).db)
  }

  /** Statements of the open transaction. */
  lemma StatementTraced(own: Log, c: Id, s: State, a: Action, m: Message)
    requires Enabled(s, a) && a.Statement? && a.c == c && Traced(own, c, m, s.consumers[c], s.db)
    ensures StaysTraced(own, c, s, a, m)
  {
  }

  lemma CommitTraced(own: Log, c: Id, s: State, a: Action, m: Message)
    requires Enabled(s, a) && a.CommitReply? && a.c == c && Traced(own, c, m, s.consumers[c], s.db)
    requires Linked(s.db, c, s.consumers[c]) && m.body.event.orderId in s.db.orders
    ensures StaysTraced(own, c, s, a, m)
  {
    var call := CallOf(m, s.consumers[c].phase.price);
    assert DB.Row(call) == DB.Row(s.db.txs[c]);
    assert Next(s, a).db.executions[|s.db.executions|] == DB.Row(call);
    assert Did(Longer(own, c, s, a), c, call, Next(s, a).db);
    assert Lost(Longer(own, c, s, a), c, call, Next(s, a).db);
  }

  lemma ExistsTraced(own: Log, c: Id, s: State, a: Action, m: Message)
    requires Enabled(s, a) && a.ExistsReply? && a.c == c && Traced(own, c, m, s.consumers[c], s.db)
    requires Linked(s.db, c, s.consumers[c]) && m.body.event.orderId in s.db.orders
    requires !DB.IsPending(s.db.orders, m.body.event.orderId)
    ensures StaysTraced(own, c, s, a, m)
  {
    var call := CallOf(m, s.consumers[c].phase.price);
    assert Skipped(Longer(own, c, s, a), c, call, Next(s, a).db);
  }

  lemma StoreFailureTraced(own: Log, c: Id, s: State, a: Action, m: Message)
    requires Enabled(s, a) && a.StoreFails? && a.c == c && Traced(own, c, m, s.consumers[c], s.db)
    requires Linked(s.db, c, s.consumers[c])
    ensures StaysTraced(own, c, s, a, m)
  {
    var call := CallOf(m, s.consumers[c].phase.price);
    assert Lost(Longer(own, c, s, a), c, call, Next(s, a).db);
  }

  /** Up to the lookup no statement is made, and a quote begins the transaction. */
  lemma LookupTraced(own: Log, c: Id, s: State, a: Action, m: Message)
    requires Enabled(s, a) && (a.Check? || a.Price?) && a.c == c && Traced(own, c, m, s.consumers[c], s.db)
    requires a.Check? ==> Admit(s.consumers[c].phase.m.body).Ok?
    ensures StaysTraced(own, c, s, a, m)
  {
  }

  lemma StageOfMove(s: State, a: Action, c: Id)
    requires Enabled(s, a) && P.Actor(a) == Some(c) && P.Moves(a)
    ensures IsUp(s, c) && Stage(s.consumers[c]) == 0
  {
  }

  lemma MovesTraced(own: Log, c: Id, s: State, a: Action, m: Message)
    requires Enabled(s, a) && P.Actor(a) == Some(c) && P.Moves(a)
    requires c < |s.consumers| && Traced(own, c, m, s.consumers[c], s.db)
    requires Linked(s.db, c, s.consumers[c]) && Contract(s.db, m.body.event)
    requires a.ExistsReply? ==> !DB.IsPending(s.db.orders, m.body.event.orderId)
    ensures StaysTraced(own, c, s, a, m)
  {
    StageOfMove(s, a, c);
    if a.Statement? { StatementTraced(own, c, s, a, m); }
    else if a.CommitReply? { CommitTraced(own, c, s, a, m); }
    else if a.ExistsReply? { ExistsTraced(own, c, s, a, m); }
    else if a.StoreFails? { StoreFailureTraced(own, c, s, a, m); }
    else { LookupTraced(own, c, s, a, m); }
  }

  /** What is no part of the handling: the channel, the settlement, leaving. */
  lemma RestTraced(own: Log, c: Id, s: State, a: Action, m: Message)
    requires Enabled(s, a) && c < |s.consumers| && P.Actor(a) == Some(c) && !P.Moves(a) && a != Take(c)
    requires Traced(own, c, m, s.consumers[c], s.db)
    ensures StaysTraced(own, c, s, a, m)
  {
    if a.Crash? {
      Gone(s, a, c);
    } else {
      KeepsDatabase(s, a, c);
      TracedStays(own, c, m, s.consumers[c], Next(s, a).consumers[c], s.db, s.db);
    }
  }

  lemma Gone(s: State, a: Action, c: Id)
    requires Enabled(s, a) && a.Crash? && a.c == c
    ensures |Next(s, a).consumers| == |s.consumers| && Next(s, a).consumers[c] == Down
  {
  }

  lemma KeepsDatabase(s: State, a: Action, c: Id)
    requires Enabled(s, a) && c < |s.consumers| && P.Actor(a) == Some(c)
    requires !P.Moves(a) && a != Take(c) && !a.Crash?
    ensures DbStep(s, a).None? && Next(s, a).db == s.db && |Next(s, a).consumers| == |s.consumers|
    ensures Stage(Next(s, a).consumers[c]) < 2 ==>
      s.consumers[c].Up? && Next(s, a).consumers[c].phase == s.consumers[c].phase
  {
    if P.IsChannel(a) { ChannelKeepsPhase(s, a, c); }
  }

  lemma MoveIsSound(s: State, a: Action, c: Id)
    requires Inv(s) && Enabled(s, a) && P.Actor(a) == Some(c) && P.Moves(a)
    ensures IsUp(s, c) && Stage(s.consumers[c]) == 0 && s.consumers[c].phase.m.body.Encoded?
    ensures Linked(s.db, c, s.consumers[c]) && Contract(s.db, s.consumers[c].phase.m.body.event)
    ensures a.ExistsReply? ==> !DB.IsPending(s.db.orders, s.consumers[c].phase.m.body.event.orderId)
  {
    StageOfMove(s, a, c);
    assert ConsumerInv(s.db, s.now, c, s.consumers[c]);
    if a.ExistsReply? { P.OutcomeSettles(s, a, c); }
  }

  lemma OtherTraced(own: Log, c: Id, s: State, a: Action, m: Message)
    requires Inv(s) && Enabled(s, a) && c < |s.consumers| && P.Actor(a) != Some(c)
    requires Traced(own, c, m, s.consumers[c], s.db)
    ensures StaysTraced(own, c, s, a, m)
  {
    P.NowGrows(s, a);
    P.OthersUntouched(s, a, c);
    OthersOwnNothing(own, c, s, a);
    DbKeeps(s, a);
    ExecutionsStay(s, a);
    TracedStays(own, c, m, s.consumers[c], Next(s, a).consumers[c], s.db, Next(s, a).db);
  }

  lemma TracedStep(own: Log, c: Id, s: State, a: Action, m: Message)
    requires Inv(s) && Enabled(s, a) && c < |s.consumers| && a != Take(c)
    requires Traced(own, c, m, s.consumers[c], s.db)
    ensures StaysTraced(own, c, s, a, m)
  {
    if P.Actor(a) != Some(c) {
      OtherTraced(own, c, s, a, m);
    } else if P.Moves(a) {
      MoveIsSound(s, a, c);
      MovesTraced(own, c, s, a, m);
    } else {
      RestTraced(own, c, s, a, m);
    }
  }

  lemma LogGrows(s: State, actions: seq<Action>, c: Id)
    requires ValidRun(s, actions) && actions != []
    ensures var before, a := actions[..|actions| - 1], actions[|actions| - 1];
      && ValidRun(s, before) && Enabled(Run(s, before), a)
      && OwnSteps(DbSteps(s, actions), c) == Longer(OwnSteps(DbSteps(s, before), c), c, Run(s, before), a)
  {
    LastStep(s, actions);
    var before, a := actions[..|actions| - 1], actions[|actions| - 1];
    var step := DbStep(Run(s, before), a);
    if step.Some? { OwnStepsAppend(DbSteps(s, before), step.value, c); }
  }

  lemma {:induction false} HandlingIsTraced(s: State, actions: seq<Action>, c: Id)
    requires Inv(s) && IsUp(s, c) && s.consumers[c].phase.Checking?
    requires ValidRun(s, actions) && Take(c) !in actions
    ensures TracedAt(s, actions, c, s.consumers[c].phase.m)
    decreases |actions|
  {
    if actions == [] {
      assert ConsumerInv(s.db, s.now, c, s.consumers[c]);
    } else {
      LastStep(s, actions);
      HandlingIsTraced(s, actions[..|actions| - 1], c);
      TracedOneMore(s, actions, c, s.consumers[c].phase.m);
    }
  }

  ghost predicate TracedAt(s: State, actions: seq<Action>, c: Id, m: Message)
    requires ValidRun(s, actions)
  {
    && c < |Run(s, actions).consumers|
    && Traced(OwnSteps(DbSteps(s, actions), c), c, m, Run(s, actions).consumers[c], Run(s, actions).db)
  }

  lemma TracedOneMore(s: State, actions: seq<Action>, c: Id, m: Message)
    requires Inv(s) && ValidRun(s, actions) && actions != [] && Take(c) != actions[|actions| - 1]
    requires ValidRun(s, actions[..|actions| - 1]) && TracedAt(s, actions[..|actions| - 1], c, m)
    ensures TracedAt(s, actions, c, m)
  {
    var at := Before(s, actions);
    var before, a := actions[..|actions| - 1], actions[|actions| - 1];
    LogGrows(s, actions, c);
    TracedStep(OwnSteps(DbSteps(s, before), c), c, at, a, m);
  }

  /** The result of the handling, as ExecuteOrder's results map to it. */
  predicate Returns(k: Consumer, err: Option<Failure.Error>)
    requires k.Up?
  {
    match err
    case None => k.phase.Succeeded?
    case Some(e) => k.phase.Failed? && k.phase.cause == Failure.Wrap(e)
  }

  /** The statements are those of one call of ExecuteOrder at this price for the message's
      order and quantity, and the process has a result that its contract allows. */
  ghost predicate OneCall(own: Log, c: Id, m: Message, price: real, k: Consumer, before: DB.Db, after: DB.Db)
    requires k.Up? && m.body.Encoded?
  {
    && InLog(own, BeginOf(c, CallOf(m, price)))
    && exists fault, executed, err ::
         Outcome(own, c, CallOf(m, price), before, after, fault, executed, err) && Returns(k, err)
  }

  predicate InLog(own: Log, step: DB.Step) {
    own.After? && (own.step == step || InLog(own.earlier, step))
  }

  lemma {:induction false} LoggedIsStep(steps: seq<DB.Step>, t: DB.TxId, step: DB.Step)
    requires InLog(OwnSteps(steps, t), step)
    ensures step in steps
  {
    if steps != [] && !(Own(steps[|steps| - 1], t) && steps[|steps| - 1] == step) {
      LoggedIsStep(steps[..|steps| - 1], t, step);
    }
  }

  /** A transaction of a consumer begins with the price of one of its lookups. */
  lemma {:induction false} BeginsAreQuoted(s: State, actions: seq<Action>, step: DB.Step)
    requires ValidRun(s, actions) && step in DbSteps(s, actions) && step.Begin?
    ensures Price(step.t, Quoted(step.price)) in actions
    decreases |actions|
  {
    LastStep(s, actions);
    var before, a := actions[..|actions| - 1], actions[|actions| - 1];
    if step in DbSteps(s, before) {
      BeginsAreQuoted(s, before, step);
    } else {
      assert a == Price(step.t, Quoted(step.price));
    }
  }

  /** The program of a call starts with its Begin. */
  lemma ProgramBegins(own: Log, c: Id, tx: DB.Tx)
    requires
      || Executes(own, c, tx.orderId, tx.price, tx.quantity) || Looks(own, c, tx.orderId, tx.price, tx.quantity)
      || (GivesUp(own, c, tx.orderId, tx.price, tx.quantity) && own != Nothing)
    ensures InLog(own, BeginOf(c, tx))
  {
    var begin := After(Nothing, BeginOf(c, tx));
    assert InLog(begin, BeginOf(c, tx));
    assert InLog(After(begin, DB.Scan(c)), BeginOf(c, tx));
    assert InLog(After(After(begin, DB.Scan(c)), DB.Lock(c)), BeginOf(c, tx));
    assert InLog(After(After(After(begin, DB.Scan(c)), DB.Lock(c)), DB.Insert(c)), BeginOf(c, tx));
  }

  /** The lookup failed, and no statement was made. */
  ghost predicate NoCall(own: Log, k: Consumer)
    requires k.Up?
  {
    own == Nothing && k.phase.Failed? && exists x :: k.phase.cause == PriceError(x)
  }

  lemma TracedResult(own: Log, c: Id, m: Message, k: Consumer, before: DB.Db, after: DB.Db)
    requires Traced(own, c, m, k, after) && k.Up? && Stage(k) == 1
    ensures NoCall(own, k) || exists price :: OneCall(own, c, m, price, k, before, after)
  {
    if k.phase.Succeeded? {
      var price :| Did(own, c, CallOf(m, price), after) || Skipped(own, c, CallOf(m, price), after);
      var executed := Did(own, c, CallOf(m, price), after);
      ProgramBegins(own, c, CallOf(m, price));
      assert Outcome(own, c, CallOf(m, price), before, after, NoFault, executed, None);
      assert Returns(k, None);
      assert OneCall(own, c, m, price, k, before, after);
    } else if !NoCall(own, k) {
      var price :| Lost(own, c, CallOf(m, price), after);
      var err := Some(Failure.Wrap(Failure.Plain));
      ProgramBegins(own, c, CallOf(m, price));
      assert Outcome(own, c, CallOf(m, price), before, after, CommitReplyLost, false, err);
      assert Returns(k, err);
      assert OneCall(own, c, m, price, k, before, after);
    }
  }

  /** Over every run, a delivery that has its result failed at its lookup or is one call
      of ExecuteOrder at the price that its lookup returned. */
  lemma HandlingIsExecuteOrder(s: State, actions: seq<Action>, c: Id)
    requires Guarantees.Reachable(s) && IsUp(s, c) && s.consumers[c].phase.Checking?
    requires ValidRun(s, actions) && Take(c) !in actions && HasResult(Run(s, actions), c)
    ensures s.consumers[c].phase.m.body.Encoded?
    ensures var after := Run(s, actions);
      var own := OwnSteps(DbSteps(s, actions), c);
      || NoCall(own, after.consumers[c])
      || exists price ::
           && Price(c, Quoted(price)) in actions
           && OneCall(own, c, s.consumers[c].phase.m, price, after.consumers[c], s.db, after.db)
  {
    Guarantees.ReachableInv(s);
    HandlingIsTraced(s, actions, c);
    var m, own, after := s.consumers[c].phase.m, OwnSteps(DbSteps(s, actions), c), Run(s, actions);
    TracedResult(own, c, m, after.consumers[c], s.db, after.db);
    if price :| OneCall(own, c, m, price, after.consumers[c], s.db, after.db) {
      LoggedIsStep(DbSteps(s, actions), c, BeginOf(c, CallOf(m, price)));
      BeginsAreQuoted(s, actions, BeginOf(c, CallOf(m, price)));
    }
  }
}
