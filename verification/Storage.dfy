/** The database layer as called by the services (internal/repositories/postgresql): each
    operation runs its transaction body through the retry loop, while other transactions
    commit in between. */
module Storage {
  import opened Digits
  import opened Orders
  import opened TxRetry
  import opened Ledger
  import B = Books

  type TxEnv = seq<Attempt<Tables, DbError>>

  /** Others only do what the service's transactions do to the rows (Books shows that they
      all extend the tables), and what hits a statement is an error of the server. */
  ghost predicate Fair(env: TxEnv) {
    && |env| == 3
    && (forall k :: 0 <= k < |env| ==> env[k].hit.Some? ==> env[k].hit.value.0 == ServerError)
    && (forall k, t :: 0 <= k < |env| ==> B.Extends(t, env[k].others(t)))
  }

  /** An attempt that nothing hits: the body decides. */
  function Unhit(others: Tables -> Tables): Attempt<Tables, DbError> {
    Attempt(others, true, None, Committed, false)
  }

  lemma {:induction false} OthersExtend(t: Tables, env: TxEnv, k: nat)
    requires Fair(env) && k <= |env|
    ensures B.Extends(t, OthersOnly(t, env, k))
  {
    if k > 0 {
      OthersExtend(t, env, k - 1);
      B.ExtendsIsTransitive(t, OthersOnly(t, env, k - 1), OthersOnly(t, env, k));
    }
  }

  /** One read: what others commit before it, and whether it fails, retriably or not. */
  datatype Read<!S> = Read(others: S -> S, failure: Option<bool>, cancelled: bool)

  ghost predicate FairReads(lookups: seq<Read<Tables>>) {
    && |lookups| == 3
    && (forall k, t :: 0 <= k < |lookups| ==> B.Extends(t, lookups[k].others(t)))
  }

  /** After this read another one is tried. */
  predicate TriedAgain(r: Read<Tables>) {
    r.failure == Some(true) && !r.cancelled
  }

  /** The read whose fate is the caller's. */
  function LastRead(lookups: seq<Read<Tables>>): (k: nat)
    requires lookups != []
    ensures k < |lookups|
    ensures forall j :: 0 <= j < k ==> TriedAgain(lookups[j])
    ensures TriedAgain(lookups[k]) ==> k == |lookups| - 1
  {
    if |lookups| == 1 || !TriedAgain(lookups[0]) then 0 else 1 + LastRead(lookups[1..])
  }

  /** The tables that the first `k` reads meet, the last of them included. */
  function TablesMet(t: Tables, lookups: seq<Read<Tables>>, k: nat): Tables
    requires k <= |lookups|
  {
    if k == 0 then t else lookups[k - 1].others(TablesMet(t, lookups, k - 1))
  }

  /** What extends the tables in one attempt does so in the loop. */
  lemma LoopExtends(start: Tables, action: Tables -> TxResult, env: TxEnv)
    requires Fair(env)
    requires forall t :: action(t).Done? ==> B.Extends(t, action(t).state)
    ensures B.Extends(start, Loop(start, action, env).db)
  {
    var end := Loop(start, action, env);
    LoopMeetsOutcome(start, action, env);
    OthersExtend(start, env, end.turns);
    B.ExtendsIsTransitive(start, OthersOnly(start, env, end.turns), end.db);
  }

  /** An insert that took effect made the row, as inserted; a refused one met a row. */
  lemma InsertOutcome(start: Tables, order: Order, env: TxEnv)
    requires Fair(env)
    ensures var end := Loop(start, InsertBody(order), env);
            && B.Extends(start, end.db)
            && (TookEffect(env, end.turns, end.err) ==>
                  && end.err != Some(BodyFailed(OrderExists))
                  && order.id !in start.orders
                  && order.id in end.db.orders && end.db.orders[order.id] == order.(accrual := 0))
            && (end.err == Some(BodyFailed(OrderExists)) ==> order.id in end.db.orders)
  {
    LoopMeetsOutcome(start, InsertBody(order), env);
    OthersExtend(start, env, Loop(start, InsertBody(order), env).turns);
    LoopExtends(start, InsertBody(order), env);
  }

  class SQLStorage {
    var tables: Tables

    constructor ()
      ensures tables == EMPTY_TABLES
    {
      tables := EMPTY_TABLES;
    }

    /** What the retry loop makes of one insert; success means that the row was new and is
        there as inserted, and "exists" that a row of that number is. */
    method AddOrder(order: Order, env: TxEnv) returns (err: Option<TxError<DbError>>)
      requires Fair(env)
      modifies this
      ensures var end := Loop(old(tables), InsertBody(order), env); tables == end.db && err == end.err
      ensures B.Extends(old(tables), tables)
      ensures err.None? ==>
                && order.id !in old(tables).orders
                && order.id in tables.orders && tables.orders[order.id] == order.(accrual := 0)
      ensures err == Some(BodyFailed(OrderExists)) ==> order.id in tables.orders
      ensures var turns := Loop(old(tables), InsertBody(order), env).turns;
              err.None? ==> var met := OthersOnly(old(tables), env, turns);
                            tables == met.(orders := met.orders[order.id := order.(accrual := 0)])
      ensures var turns := Loop(old(tables), InsertBody(order), env).turns;
              env[turns - 1] == Unhit(env[turns - 1].others) ==>
                err == if order.id in OthersOnly(old(tables), env, turns).orders
                       then Some(BodyFailed(OrderExists)) else None
    {
      ghost var start := tables;
      var turns, runs;
      tables, err, turns, runs := WithTxRetry(tables, InsertBody(order), env);
      InsertOutcome(start, order, env);
    }

    /** The upsert and the credit, as the retry loop runs them. An attempt that nothing hits
        succeeds iff no credit is due or the credit can be given; success leaves the row with
        the new status and accrual under its owner, the credit if one is due, and all else
        as the attempt met it. */
    method UpdateOrder(order: Order, env: TxEnv) returns (err: Option<TxError<DbError>>)
      requires Fair(env)
      modifies this
      ensures var end := Loop(old(tables), UpdateBody(order), env);
              var met := OthersOnly(old(tables), env, end.turns);
              && tables == end.db && err == end.err
              && (env[end.turns - 1] == Unhit(env[end.turns - 1].others) ==>
                    (err.None? <==> CreditDue(order) ==> CanCredit(met, order.user, order.accrual)))
              && (err.None? ==> IsUpdated(met, order, tables))
    {
      ghost var start := tables;
      var turns, runs;
      tables, err, turns, runs := WithTxRetry(tables, UpdateBody(order), env);
      assert LastRun(start, UpdateBody(order), env, turns)
          == RunBody(UpdateBody(order), env[turns - 1], OthersOnly(start, env, turns));
      UpdateSucceeds(OthersOnly(start, env, turns), order);
    }

    /** A withdrawal that is granted leaves its row and its debit, a refused one neither; the
        answer is the guard's whenever an attempt gets as far as the guard and the commit. */
    method AddWithdrawn(w: Withdrawal, env: TxEnv) returns (err: Option<TxError<DbError>>)
      requires Fair(env)
      modifies this
      ensures var end := Loop(old(tables), WithdrawBody(w), env);
              var met := OthersOnly(old(tables), env, end.turns);
              && tables == end.db && err == end.err
              && (env[end.turns - 1] == Unhit(env[end.turns - 1].others) ==>
                    (err.None? <==> w.user in met.users && 0 < met.users[w.user] + Wrap64(-w.sum) <= INT64_MAX))
              && (err.None? ==>
                    && w.user in met.users
                    && tables == met.(withdrawals := met.withdrawals + [w],
                                      users := met.users[w.user := met.users[w.user] + Wrap64(-w.sum)])
                    && Balance(tables, w.user) == Balance(met, w.user) + Wrap64(-w.sum) > 0)
              && (err == Some(BodyFailed(BalanceNotEnough)) ==>
                    && tables == met
                    && (w.user in met.users ==> met.users[w.user] + Wrap64(-w.sum) <= 0))
    {
      ghost var start := tables;
      var turns, runs;
      tables, err, turns, runs := WithTxRetry(tables, WithdrawBody(w), env);
      assert LastRun(start, WithdrawBody(w), env, turns)
          == RunBody(WithdrawBody(w), env[turns - 1], OthersOnly(start, env, turns));
    }

    /** The row of an order, if it belongs to the user, as the last read finds it. The lookup
        fails exactly when that read fails: at once, in the last attempt, or cancelled. */
    method GetOrder(id: string, user: string, lookups: seq<Read<Tables>>) returns (row: Option<Order>, failed: bool)
      requires FairReads(lookups)
      modifies this
      ensures tables == TablesMet(old(tables), lookups, LastRead(lookups) + 1)
      ensures B.Extends(old(tables), tables)
      ensures failed <==> lookups[LastRead(lookups)].failure.Some?
      ensures TriedAgain(lookups[0]) && TriedAgain(lookups[1]) ==> (failed <==> lookups[2].failure.Some?)
      ensures row.Some? <==> !failed && id in tables.orders && tables.orders[id].user == user
      ensures row.Some? ==> row.value == tables.orders[id]
    {
      var k := 0;
      while k < RETRYING_ATTEMPTS
        invariant 0 <= k <= RETRYING_ATTEMPTS
        invariant tables == TablesMet(old(tables), lookups, k)
        invariant forall j :: 0 <= j < k ==> TriedAgain(lookups[j])
        invariant B.Extends(old(tables), tables)
      {
        ghost var before := tables;
        tables := lookups[k].others(tables);
        B.ExtendsIsTransitive(old(tables), before, tables);
        match lookups[k].failure {
          case None => return GetOrderRow(tables, id, user), false;
          case Some(retriable) =>
            if !retriable || lookups[k].cancelled {
              return None, true;
            }
        }
        k := k + 1;
      }
      return None, true;
    }
  }
}
