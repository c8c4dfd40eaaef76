/** The worker's write and the upload's insert in System, attempt by attempt, are the retry
    loop of TxRetry: the two models of withTxRetry agree, in the tables and in what the
    caller goes on to do. */
module Attempts {
  import opened Digits
  import opened Orders
  import opened TxRetry
  import opened Ledger
  import opened System
  import opened Storage
  import Pool

  /** One attempt of the loop, as System sees it. */
  function AsTx(a: Attempt<Tables, DbError>): TxAttempt {
    if !a.begins then BeginFails
    else match a.hit
         case Some((_, retriable)) => Hit(retriable, a.cancelled)
         case None => Completes(a.commit)
  }

  /** The attempts of one write, with the transactions of others in between. */
  function WriteLoop(t: Tables, w: Pool.Worker, env: TxEnv): (Tables, Pool.Worker)
    decreases |env|
  {
    if env == [] || !w.Writing? then (t, w)
    else
      var (t', w') := AfterWrite(env[0].others(t), w, AsTx(env[0]));
      WriteLoop(t', w', env[1..])
  }

  /** The worker goes on as ProcessAccrualTask does after UpdateOrder. */
  function AfterUpdate(order: Order, err: Option<TxError<DbError>>): Pool.Worker {
    if err.None? && order.status == Processing then Pool.Requeueing(order) else Pool.Idle
  }

  lemma {:induction false} WriteIsTheLoop(t: Tables, w: Pool.Worker, env: TxEnv)
    requires w.Writing? && env != [] && w.attempt + |env| == 3
    ensures var end := Loop(t, UpdateBody(w.order), env);
            WriteLoop(t, w, env) == (end.db, AfterUpdate(w.order, end.err))
    decreases |env|
  {
    var (t', w') := AfterWrite(env[0].others(t), w, AsTx(env[0]));
    if w'.Writing? {
      WriteIsTheLoop(t', w', env[1..]);
    }
  }

  /** The attempts of one insert, with the transactions of others in between. */
  function InsertLoop(t: Tables, o: Order, phase: Phase, env: TxEnv): (Tables, Phase)
    decreases |env|
  {
    if env == [] || !phase.Inserting? then (t, phase)
    else
      var (t', phase') := AfterInsert(env[0].others(t), o, phase.attempt, AsTx(env[0]));
      InsertLoop(t', o, phase', env[1..])
  }

  /** The upload goes on as Store does after AddOrder. */
  function AfterAdd(err: Option<TxError<DbError>>): Phase {
    if err.None? then Offering
    else if err == Some(BodyFailed(OrderExists)) then LookingUp
    else Answered(Broken)
  }

  lemma {:induction false} InsertIsTheLoop(t: Tables, o: Order, phase: Phase, env: TxEnv)
    requires phase.Inserting? && env != [] && phase.attempt + |env| == 3
    requires forall k :: 0 <= k < |env| ==> env[k].hit.Some? ==> env[k].hit.value.0 == ServerError
    ensures var end := Loop(t, InsertBody(o), env);
            InsertLoop(t, o, phase, env) == (end.db, AfterAdd(end.err))
    decreases |env|
  {
    var (t', phase') := AfterInsert(env[0].others(t), o, phase.attempt, AsTx(env[0]));
    if phase'.Inserting? {
      InsertIsTheLoop(t', o, phase', env[1..]);
    }
  }

  // ----------------------------------------------------- two failures and a third attempt

  /** A write hit twice is made by the third attempt, or given up with it. */
  lemma ThirdWriteDecides(t: Tables, w: Pool.Worker, env: TxEnv)
    requires w.Writing? && w.attempt == 0 && HitTwice(env)
    ensures var met := env[2].others(env[1].others(env[0].others(t)));
            && (env[2].hit.Some? ==> WriteLoop(t, w, env) == (met, Pool.Idle))
            && (env[2].hit.None? && env[2].commit == Committed && UpdateOrderTx(met, w.order).Done? ==>
                  WriteLoop(t, w, env)
                  == (UpdateOrderTx(met, w.order).state,
                      if w.order.status == Processing then Pool.Requeueing(w.order) else Pool.Idle))
  {
    WriteIsTheLoop(t, w, env);
    ThirdAttemptDecides(t, UpdateBody(w.order), env);
  }

  /** An insert hit twice is made by the third attempt, or answered "broken" with it. */
  lemma ThirdInsertDecides(t: Tables, o: Order, env: TxEnv)
    requires HitTwice(env)
    requires forall k :: 0 <= k < |env| ==> env[k].hit.Some? ==> env[k].hit.value.0 == ServerError
    ensures var met := env[2].others(env[1].others(env[0].others(t)));
            && (env[2].hit.Some? ==> InsertLoop(t, o, Phase.Inserting(0), env) == (met, Answered(Broken)))
            && (env[2].hit.None? && env[2].commit == Committed && o.id !in met.orders ==>
                  InsertLoop(t, o, Phase.Inserting(0), env)
                  == (met.(orders := met.orders[o.id := o.(accrual := 0)]), Offering))
  {
    InsertIsTheLoop(t, o, Phase.Inserting(0), env);
    ThirdAttemptDecides(t, InsertBody(o), env);
  }
}
