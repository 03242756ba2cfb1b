/** ExecuteOrder of internal/order/store.go as the program it is, run against a
    database that other transactions change between its statements. */
module Store {
  import opened Prelude
  import opened Orders
  import opened Database
  import Failure

  /** The statement of a call that fails, if any. CommitReplyLost: the COMMIT takes
      effect and still returns an error. */
  datatype Fault =
    | NoFault | BeginFails | UpdateFails | RowsAffectedFails | InsertFails | CommitFails
    | CommitReplyLost | ExistsFails

  /** What happens around one call: its fault; what others do before each of its
      statements; and what they do, round by round, while it waits for a row lock
      until its timeout. */
  datatype Schedule = Schedule(fault: Fault, pauses: seq<seq<Step>>, rounds: seq<seq<Step>>)

  /** The step belongs to transaction t. */
  predicate Own(step: Step, t: TxId) { !step.Create? && !step.Resolve? && step.t == t }

  /** The steps of one transaction, the latest one outermost. */
  datatype Log = Nothing | After(earlier: Log, step: Step)

  function OwnSteps(steps: seq<Step>, t: TxId): Log {
    if steps == [] then Nothing
    else
      var last := steps[|steps| - 1];
      var earlier := OwnSteps(steps[..|steps| - 1], t);
      if Own(last, t) then After(earlier, last) else earlier
  }

  lemma OwnStepsAppend(steps: seq<Step>, step: Step, t: TxId)
    ensures OwnSteps(steps + [step], t) ==
      if Own(step, t) then After(OwnSteps(steps, t), step) else OwnSteps(steps, t)
  {
    assert (steps + [step])[..|steps|] == steps;
  }

  lemma {:induction false} RunAppend(db: Db, steps: seq<Step>, step: Step)
    requires ValidRun(db, steps) && Enabled(Run(db, steps), step)
    ensures ValidRun(db, steps + [step]) && Run(db, steps + [step]) == Next(Run(db, steps), step)
    decreases |steps|
  {
    if steps == [] {
      assert [] + [step] == [step] && [step][1..] == [];
    } else {
      assert (steps + [step])[1..] == steps[1..] + [step];
      RunAppend(Next(db, steps[0]), steps[1..], step);
    }
  }

  /** The first statements of a call: its program so far. */
  function Asked(t: TxId, id: Uuid, price: real, quantity: int): Log {
    After(After(Nothing, Begin(t, id, price, quantity)), Scan(t))
  }

  /** The whole program of a call that executes the order. */
  predicate Executes(own: Log, t: TxId, id: Uuid, price: real, quantity: int) {
    own == After(After(After(Asked(t, id, price, quantity), Lock(t)), Insert(t)), Commit(t))
  }

  /** The whole program of a call that finds nothing to execute. */
  predicate Looks(own: Log, t: TxId, id: Uuid, price: real, quantity: int) {
    || own == After(Asked(t, id, price, quantity), Exists(t))
    || own == After(After(Asked(t, id, price, quantity), Lock(t)), Exists(t))
  }

  /** A call that began nothing, or rolled back before any COMMIT. */
  predicate GivesUp(own: Log, t: TxId, id: Uuid, price: real, quantity: int) {
    var asked := Asked(t, id, price, quantity);
    || own == Nothing
    || own == After(asked.earlier, Rollback(t))
    || own == After(asked, Rollback(t))
    || own == After(After(asked, Lock(t)), Rollback(t))
    || own == After(After(After(asked, Lock(t)), Insert(t)), Rollback(t))
  }

  function BeginOf(t: TxId, tx: Tx): Step { Begin(t, tx.orderId, tx.price, tx.quantity) }

  /** What a call of ExecuteOrder promises: own are the steps of its transaction t,
      before and after the database, executed and err its results. */
  ghost predicate Outcome(own: Log, t: TxId, tx: Tx, before: Db, after: Db, fault: Fault,
                          executed: bool, err: Option<Failure.Error>)
  {
    var id := tx.orderId;
    // (true, nil): the order is executed, by this call, with one new row.
    && (executed ==>
          && err.None? && Executes(own, t, id, tx.price, tx.quantity)
          && IsExecuted(after.orders, id) && Row(tx) in after.executions)
    // (false, nil): nothing was written; an order stored before the call is settled.
    && (!executed && err.None? ==>
          && Looks(own, t, id, tx.price, tx.quantity)
          && id in after.orders && (id in before.orders ==> !IsPending(after.orders, id)))
    // ErrOrderNotFound: nothing was written; the order was not stored.
    && (err == Some(Failure.OrderNotFound) ==>
          !executed && Looks(own, t, id, tx.price, tx.quantity) && id !in before.orders)
    // Any other error: rolled back, unless the reply to COMMIT was lost. It takes a
    // fault or a row lock that outlasts the call.
    && (err.Some? && err.value != Failure.OrderNotFound ==>
          && !executed && err == Some(Failure.Wrap(Failure.Plain))
          && (GivesUp(own, t, id, tx.price, tx.quantity)
              || (fault.CommitReplyLost? && Executes(own, t, id, tx.price, tx.quantity) && IsExecuted(after.orders, id)))
          && (fault != NoFault || id in after.locks))
  }

  /** The orders and executions tables with everything that happened to them. */
  class OrderStore {
    var db: Db
    var unused: TxId          // no transaction has had this name or a later one
    ghost const base: Db
    ghost var trace: seq<Step>

    ghost predicate Valid()
      reads this
    {
      && Inv(base) && ValidRun(base, trace) && db == Run(base, trace) && Inv(db)
      && forall t :: unused <= t ==> Fresh(t)
    }

    /** Transaction t has not begun. */
    ghost predicate Fresh(t: TxId)
      reads this
    {
      t !in db.txs && OwnSteps(trace, t) == Nothing
    }

    constructor ()
      ensures Valid() && db == EMPTY && trace == []
    {
      db := EMPTY;
      base := EMPTY;
      trace := [];
      unused := 0;
    }

    /** One step of some transaction. */
    method Do(step: Step)
      requires Valid() && Enabled(db, step)
      modifies this
      ensures Valid() && db == Next(old(db), step) && trace == old(trace) + [step]
      ensures Evolves(old(db), db)
      ensures forall t ::
        OwnSteps(trace, t) == if Own(step, t) then After(OwnSteps(old(trace), t), step) else OwnSteps(old(trace), t)
    {
      assert !step.Create? && !step.Resolve? && unused <= step.t ==> Fresh(step.t);
      StepKeepsInv(db, step);
      StepEvolves(db, step);
      RunAppend(base, trace, step);
      forall t ensures OwnSteps(trace + [step], t) ==
        if Own(step, t) then After(OwnSteps(trace, t), step) else OwnSteps(trace, t)
      {
        OwnStepsAppend(trace, step, t);
      }
      trace := trace + [step];
      db := Next(db, step);
      if step.Begin? && unused <= step.t {
        unused := step.t + 1;
      }
      forall t | unused <= t ensures Fresh(t) {
        assert old(unused) <= t && old(Fresh(t));
        OwnStepsAppend(old(trace), step, t);
      }
    }

    /** Others take the steps they can; transaction t is not theirs. */
    method Others(t: TxId, steps: seq<Step>)
      requires Valid()
      modifies this
      ensures Valid() && Evolves(old(db), db)
      ensures t in db.txs <==> t in old(db.txs)
      ensures t in db.txs ==> db.txs[t] == old(db.txs[t])
      ensures OwnSteps(trace, t) == OwnSteps(old(trace), t)
    {
      for i := 0 to |steps|
        invariant Valid() && Evolves(old(db), db)
        invariant t in db.txs <==> t in old(db.txs)
        invariant t in db.txs ==> db.txs[t] == old(db.txs[t])
        invariant OwnSteps(trace, t) == OwnSteps(old(trace), t)
      {
        if !Own(steps[i], t) && Enabled(db, steps[i]) {
          Do(steps[i]);
        }
      }
    }

    method Pause(t: TxId, schedule: Schedule, i: nat)
      requires Valid()
      modifies this
      ensures Valid() && Evolves(old(db), db)
      ensures t in db.txs <==> t in old(db.txs)
      ensures t in db.txs ==> db.txs[t] == old(db.txs[t])
      ensures OwnSteps(trace, t) == OwnSteps(old(trace), t)
    {
      if i < |schedule.pauses| {
        Others(t, schedule.pauses[i]);
      }
    }

    /** The UPDATE: it looks for the row, waits for its lock and looks again. */
    method Update(t: TxId, schedule: Schedule) returns (ok: bool, rowsAffected: nat)
      requires Valid() && At(db, t, Begun)
      modifies this
      ensures Valid() && Evolves(old(db), db) && t in db.txs
      ensures db.txs[t] == old(db.txs[t]).(pc := db.txs[t].pc)
      ensures ok <==> db.txs[t].pc != Waiting
      ensures !ok ==> db.txs[t].orderId in db.locks
      ensures ok ==> (db.txs[t].pc == Updated && rowsAffected == 1) || (db.txs[t].pc.Missed? && rowsAffected == 0)
      ensures db.txs[t].orderId in old(db.orders) ==> db.txs[t].pc != Missed(false)
      ensures OwnSteps(trace, t) == After(OwnSteps(old(trace), t), Scan(t))
        || (OwnSteps(trace, t) == After(After(OwnSteps(old(trace), t), Scan(t)), Lock(t)) && db.txs[t].pc != Missed(false))
      ensures db.txs[t].pc == Updated ==> OwnSteps(trace, t) == After(After(OwnSteps(old(trace), t), Scan(t)), Lock(t))
    {
      ghost var own := OwnSteps(trace, t);
      var id := db.txs[t].orderId;
      Do(Scan(t));
      if db.txs[t].pc == Waiting {
        var i := 0;
        while id in db.locks && i < |schedule.rounds|
          invariant Valid() && Evolves(old(db), db) && t in db.txs
          invariant db.txs[t] == old(db.txs[t]).(pc := Waiting)
          invariant OwnSteps(trace, t) == After(own, Scan(t))
        {
          Others(t, schedule.rounds[i]);
          i := i + 1;
        }
        if id in db.locks {
          return false, 0;
        }
        assert TxInv(db, t);
        Do(Lock(t));
      }
      return true, if db.txs[t].pc == Updated then 1 else 0;
    }

    /** tx.Commit. */
    method Finish(t: TxId, schedule: Schedule) returns (executed: bool, err: Option<Failure.Error>)
      requires Valid() && At(db, t, Inserted)
      modifies this
      ensures Valid() && Evolves(old(db), db) && t !in db.txs
      ensures executed <==> !schedule.fault.CommitFails? && !schedule.fault.CommitReplyLost?
      ensures err == if executed then None else Some(Failure.Wrap(Failure.Plain))
      ensures OwnSteps(trace, t) ==
        After(OwnSteps(old(trace), t), if schedule.fault.CommitFails? then Rollback(t) else Commit(t))
      ensures !schedule.fault.CommitFails? ==>
        IsExecuted(db.orders, old(db.txs[t]).orderId) && Row(old(db.txs[t])) in db.executions
    {
      executed, err := false, Some(Failure.Wrap(Failure.Plain));
      if schedule.fault.CommitFails? {
        Do(Rollback(t));
      } else {
        assert TxInv(db, t);
        ghost var row := Row(db.txs[t]);
        Do(Commit(t));
        assert db.executions[|db.executions| - 1] == row;
        if !schedule.fault.CommitReplyLost? {
          executed, err := true, None;
        }
      }
    }

    /** The UPDATE changed the row: record the execution and commit. */
    method Record(t: TxId, schedule: Schedule) returns (executed: bool, err: Option<Failure.Error>)
      requires Valid() && At(db, t, Updated)
      modifies this
      ensures Valid() && Evolves(old(db), db) && t !in db.txs
      ensures executed <==> err.None?
      ensures var tx := old(db.txs[t]); var own := OwnSteps(old(trace), t);
        if executed || schedule.fault.CommitReplyLost? then
          && OwnSteps(trace, t) == After(After(own, Insert(t)), Commit(t))
          && IsExecuted(db.orders, tx.orderId) && Row(tx) in db.executions
        else
          || OwnSteps(trace, t) == After(own, Rollback(t))
          || OwnSteps(trace, t) == After(After(own, Insert(t)), Rollback(t))
      ensures err.Some? ==> err == Some(Failure.Wrap(Failure.Plain)) && schedule.fault != NoFault
    {
      if schedule.fault.InsertFails? {
        Do(Rollback(t));
        executed, err := false, Some(Failure.Wrap(Failure.Plain));
      } else {
        Do(Insert(t));
        Pause(t, schedule, 3);
        executed, err := Finish(t, schedule);
      }
    }

    /** The UPDATE changed nothing: is the order there at all? */
    method Look(t: TxId, schedule: Schedule) returns (err: Option<Failure.Error>)
      requires Valid() && t in db.txs && db.txs[t].pc.Missed?
      modifies this
      ensures Valid() && Evolves(old(db), db) && t !in db.txs
      ensures var tx := old(db.txs[t]); var own := OwnSteps(old(trace), t);
        match err
        case None =>
          && OwnSteps(trace, t) == After(own, Exists(t))
          && tx.orderId in db.orders && (tx.pc == Missed(true) ==> !IsPending(db.orders, tx.orderId))
        case Some(OrderNotFound) =>
          OwnSteps(trace, t) == After(own, Exists(t)) && tx.orderId !in db.orders
        case Some(e) =>
          OwnSteps(trace, t) == After(own, Rollback(t)) && e == Failure.Wrap(Failure.Plain) && schedule.fault != NoFault
    {
      if schedule.fault.ExistsFails? {
        Do(Rollback(t));
        return Some(Failure.Wrap(Failure.Plain));
      }
      assert TxInv(db, t);
      var found := ExistsReply(db, t);
      Do(Exists(t));
      if !found {
        return Some(Failure.OrderNotFound);
      }
      return None;
    }

    /** What follows the UPDATE, by the number of rows it changed. */
    method Conclude(t: TxId, tx: Tx, rowsAffected: nat, schedule: Schedule, ghost before: Db)
      returns (executed: bool, err: Option<Failure.Error>)
      requires Valid() && Evolves(before, db) && t in db.txs && db.txs[t] == tx
      requires (tx.pc == Updated && rowsAffected == 1) || (tx.pc.Missed? && rowsAffected == 0)
      requires tx.pc == Missed(false) ==> tx.orderId !in before.orders
      requires var asked := Asked(t, tx.orderId, tx.price, tx.quantity);
        OwnSteps(trace, t) == After(asked, Lock(t)) || (OwnSteps(trace, t) == asked && tx.pc.Missed?)
      modifies this
      ensures Valid() && Evolves(old(db), db) && t !in db.txs
      ensures Outcome(OwnSteps(trace, t), t, tx, before, db, schedule.fault, executed, err)
    {
      if rowsAffected == 1 {
        executed, err := Record(t, schedule);
      } else {
        executed := false;
        err := Look(t, schedule);
      }
    }

    /** The transaction of a call, once it has begun. */
    method Transact(t: TxId, schedule: Schedule) returns (executed: bool, err: Option<Failure.Error>)
      requires Valid() && At(db, t, Begun)
      requires OwnSteps(trace, t) == After(Nothing, BeginOf(t, db.txs[t]))
      modifies this
      ensures Valid() && Evolves(old(db), db) && t !in db.txs
      ensures Outcome(OwnSteps(trace, t), t, old(db.txs[t]), old(db), db, schedule.fault, executed, err)
    {
      executed, err := false, Some(Failure.Wrap(Failure.Plain));
      if schedule.fault.UpdateFails? {
        Do(Rollback(t));
      } else {
        var ok, rowsAffected := Update(t, schedule);
        if !ok || schedule.fault.RowsAffectedFails? {
          Do(Rollback(t));
        } else {
          Pause(t, schedule, 2);
          executed, err := Conclude(t, db.txs[t], rowsAffected, schedule, old(db));
        }
      }
    }

    /** ExecuteOrder. t names the transaction of this call. */
    method ExecuteOrder(t: TxId, id: Uuid, price: real, quantity: int, schedule: Schedule)
      returns (executed: bool, err: Option<Failure.Error>)
      requires Valid() && Fresh(t)
      modifies this
      ensures Valid() && Evolves(old(db), db) && t !in db.txs
      ensures Outcome(OwnSteps(trace, t), t, Tx(id, price, quantity, Begun), old(db), db, schedule.fault, executed, err)
    {
      executed, err := false, Some(Failure.Wrap(Failure.Plain));
      Pause(t, schedule, 0);
      if !schedule.fault.BeginFails? {
        Do(Begin(t, id, price, quantity));
        Pause(t, schedule, 1);
        executed, err := Transact(t, schedule);
      }
    }
  }
}
