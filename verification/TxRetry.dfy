/** The bounded transaction loop (withTxRetry in internal/repositories/postgresql/common.go),
    around an arbitrary transaction body, with arbitrary transactions of others between the
    attempts. */
module TxRetry {
  import opened Digits

  /** RetryingAttempts; the contracts say 3, the code names the constant. */
  const RETRYING_ATTEMPTS: nat := 3

  /** A transaction body either yields the new database state or fails without effect. */
  datatype BodyResult<+S, +E> = Done(state: S) | Failed(error: E, retriable: bool)

  /** A commit may be acknowledged, or fail after or before it took effect. */
  datatype Commit = Committed | AppliedButFailed | NotApplied

  /** What the environment does around one attempt: what others commit before it, whether the
      transaction begins, whether a statement of the body is hit by a failure of the
      connection or the server, how the commit ends, and whether the context is cancelled
      while the caller waits for the next attempt. */
  datatype Attempt<!S, +E> = Attempt(
    others: S -> S,
    begins: bool,
    hit: Option<(E, bool)>,
    commit: Commit,
    cancelled: bool)

  datatype TxError<+E> = BeginFailed | BodyFailed(error: E) | CommitFailed | Cancelled

  /** The body run inside attempt `a` on state `s`. */
  function RunBody<S, E>(action: S -> BodyResult<S, E>, a: Attempt<S, E>, s: S): BodyResult<S, E> {
    match a.hit
    case Some((error, retriable)) => Failed(error, retriable)
    case None => action(s)
  }

  /** How a call of the loop ends: the state, what the caller is told, the attempts started. */
  datatype Ending<S, +E> = Ending(db: S, err: Option<TxError<E>>, turns: nat)

  /** The loop, attempt by attempt. */
  function Loop<S, E>(s: S, action: S -> BodyResult<S, E>, env: seq<Attempt<S, E>>): (end: Ending<S, E>)
    requires env != []
    ensures 1 <= end.turns <= |env|
    decreases |env|
  {
    var a, met := env[0], env[0].others(s);
    if !a.begins then Ending(met, Some(BeginFailed), 1)
    else
      match RunBody(action, a, met)
      case Done(next) =>
        if a.commit == Committed then Ending(next, None, 1)
        else Ending(if a.commit == AppliedButFailed then next else met, Some(CommitFailed), 1)
      case Failed(error, retriable) =>
        if retriable && a.cancelled then Ending(met, Some(Cancelled), 1)
        else if retriable && |env| > 1 then
          var rest := Loop(met, action, env[1..]);
          rest.(turns := rest.turns + 1)
        else Ending(met, Some(BodyFailed(error)), 1)
  }

  // ------------------------------------------------ what the ending means, without the loop

  /** The state that the transactions of others alone give by the time of attempt `k`. */
  function OthersOnly<S, E>(s: S, env: seq<Attempt<S, E>>, k: nat): S
    requires k <= |env|
  {
    if k == 0 then s else env[k - 1].others(OthersOnly(s, env, k - 1))
  }

  /** What the body makes of the state that attempt `k` meets. */
  function LastRun<S, E>(start: S, action: S -> BodyResult<S, E>, env: seq<Attempt<S, E>>, k: nat): BodyResult<S, E>
    requires 1 <= k <= |env|
  {
    RunBody(action, env[k - 1], OthersOnly(start, env, k))
  }

  /** Attempt `k` began, failed in its body, retriably, and nobody cancelled the wait. */
  ghost predicate Retried<S, E>(start: S, action: S -> BodyResult<S, E>, env: seq<Attempt<S, E>>, k: nat)
    requires 1 <= k <= |env|
  {
    var last := LastRun(start, action, env, k);
    env[k - 1].begins && last.Failed? && last.retriable && !env[k - 1].cancelled
  }

  /** The body's effect is in the database: its commit was acknowledged, or failed too late. */
  ghost predicate TookEffect<S, E>(env: seq<Attempt<S, E>>, turns: nat, err: Option<TxError<E>>)
    requires 1 <= turns <= |env|
  {
    err.None? || (err == Some(CommitFailed) && env[turns - 1].commit == AppliedButFailed)
  }

  /** What befell attempt `turns`, the last one, when the caller is told `err`. */
  ghost predicate Cause<S, E>(start: S, action: S -> BodyResult<S, E>, env: seq<Attempt<S, E>>,
                        turns: nat, err: Option<TxError<E>>)
    requires 1 <= turns <= |env|
  {
    var a, last := env[turns - 1], LastRun(start, action, env, turns);
    match err
    case None => a.begins && last.Done? && a.commit == Committed
    case Some(BeginFailed) => !a.begins
    case Some(CommitFailed) => a.begins && last.Done? && a.commit != Committed
    case Some(Cancelled) => a.begins && last.Failed? && last.retriable && a.cancelled
    case Some(BodyFailed(e)) =>
      && a.begins && last.Failed? && last.error == e
      && (last.retriable ==> turns == |env| && !a.cancelled)
  }

  /** Every attempt before the last was retried, so rolled back; the last one gave the caller
      its answer; and its body's effect, on the state that others left, is all that remains. */
  ghost predicate Outcome<S, E>(start: S, action: S -> BodyResult<S, E>, env: seq<Attempt<S, E>>,
                                db: S, err: Option<TxError<E>>, turns: nat)
  {
    && 1 <= turns <= |env|
    && (forall k :: 1 <= k < turns ==> Retried(start, action, env, k))
    && Cause(start, action, env, turns, err)
    && db == if TookEffect(env, turns, err) then LastRun(start, action, env, turns).state
             else OthersOnly(start, env, turns)
  }

  /** The environment leaves the loop no choice. */
  lemma OutcomeIsUnique<S, E>(start: S, action: S -> BodyResult<S, E>, env: seq<Attempt<S, E>>,
                              db: S, err: Option<TxError<E>>, turns: nat,
                              db': S, err': Option<TxError<E>>, turns': nat)
    requires Outcome(start, action, env, db, err, turns) && Outcome(start, action, env, db', err', turns')
    ensures db == db' && err == err' && turns == turns'
  {
    LastIsNotRetried(start, action, env, turns, err);
    LastIsNotRetried(start, action, env, turns', err');
  }

  lemma LastIsNotRetried<S, E>(start: S, action: S -> BodyResult<S, E>, env: seq<Attempt<S, E>>,
                               turns: nat, err: Option<TxError<E>>)
    requires 1 <= turns <= |env| && Cause(start, action, env, turns, err)
    ensures Retried(start, action, env, turns) ==> turns == |env|
  {
  }

  lemma {:induction false} OthersLater<S, E>(s: S, env: seq<Attempt<S, E>>, k: nat)
    requires env != [] && k < |env|
    ensures OthersOnly(s, env, k + 1) == OthersOnly(env[0].others(s), env[1..], k)
  {
    if k > 0 {
      OthersLater(s, env, k - 1);
    }
  }

  /** The ending of the rest of the attempts, seen from one retried attempt earlier. */
  lemma OutcomeOneEarlier<S, E>(s: S, action: S -> BodyResult<S, E>, env: seq<Attempt<S, E>>, rest: Ending<S, E>)
    requires |env| > 1 && Retried(s, action, env, 1)
    requires Outcome(env[0].others(s), action, env[1..], rest.db, rest.err, rest.turns)
    ensures Outcome(s, action, env, rest.db, rest.err, rest.turns + 1)
  {
    OthersLater(s, env, rest.turns);
    forall k | 1 <= k < rest.turns + 1
      ensures Retried(s, action, env, k)
    {
      if k > 1 {
        OthersLater(s, env, k - 1);
        assert Retried(env[0].others(s), action, env[1..], k - 1);
      }
    }
  }

  lemma {:induction false} LoopMeetsOutcome<S, E>(s: S, action: S -> BodyResult<S, E>, env: seq<Attempt<S, E>>)
    requires env != []
    ensures var end := Loop(s, action, env); Outcome(s, action, env, end.db, end.err, end.turns)
    decreases |env|
  {
    assert OthersOnly(s, env, 1) == env[0].others(OthersOnly(s, env, 0));
    if Retried(s, action, env, 1) && |env| > 1 {
      LoopMeetsOutcome(env[0].others(s), action, env[1..]);
      OutcomeOneEarlier(s, action, env, Loop(env[0].others(s), action, env[1..]));
    }
  }

  /** The loop ends as described, and in no other way. */
  lemma OutcomeIsLoop<S, E>(start: S, action: S -> BodyResult<S, E>, env: seq<Attempt<S, E>>,
                            db: S, err: Option<TxError<E>>, turns: nat)
    requires env != []
    ensures Outcome(start, action, env, db, err, turns) <==> Loop(start, action, env) == Ending(db, err, turns)
  {
    var end := Loop(start, action, env);
    LoopMeetsOutcome(start, action, env);
    if Outcome(start, action, env, db, err, turns) {
      OutcomeIsUnique(start, action, env, db, err, turns, end.db, end.err, end.turns);
    }
  }

  /** Three attempts, the first two of them hit by retriable errors and not cancelled. */
  ghost predicate HitTwice<S, E>(env: seq<Attempt<S, E>>) {
    && |env| == 3 && env[0].begins && env[1].begins && env[2].begins
    && env[0].hit.Some? && env[0].hit.value.1 && !env[0].cancelled
    && env[1].hit.Some? && env[1].hit.value.1 && !env[1].cancelled
  }

  /** The third attempt, and no earlier or later one, decides then: unhit, it leaves the
      body's effect on what others left; hit, its error is the caller's. */
  lemma ThirdAttemptDecides<S, E>(start: S, action: S -> BodyResult<S, E>, env: seq<Attempt<S, E>>)
    requires HitTwice(env)
    ensures var met := env[2].others(env[1].others(env[0].others(start)));
            match env[2].hit
            case None =>
              action(met).Done? && env[2].commit == Committed ==>
                Loop(start, action, env) == Ending(action(met).state, None, 3)
            case Some((error, retriable)) =>
              Loop(start, action, env)
              == Ending(met, if retriable && env[2].cancelled then Some(Cancelled) else Some(BodyFailed(error)), 3)
  {
    var met1 := env[0].others(start);
    var met2 := env[1].others(met1);
    assert env[1..][0] == env[1] && env[1..][1..] == env[2..] && env[2..][0] == env[2];
    var last := Loop(met2, action, env[2..]);
    assert Loop(met1, action, env[1..]) == last.(turns := last.turns + 1);
    assert Loop(start, action, env) == last.(turns := last.turns + 2);
  }

  // ------------------------------------------------------------------- the program

  /** `turns` counts the attempts started, `runs` the executions of the body. */
  method WithTxRetry<S, E>(start: S, action: S -> BodyResult<S, E>, env: seq<Attempt<S, E>>)
    returns (db: S, err: Option<TxError<E>>, turns: nat, runs: nat)
    requires |env| == 3
    ensures Outcome(start, action, env, db, err, turns)
    ensures Loop(start, action, env) == Ending(db, err, turns)
    ensures turns <= 3 && runs == if err == Some(BeginFailed) then turns - 1 else turns
  {
    db, turns, runs := start, 0, 0;
    var lastErr: Option<TxError<E>> := None;
    while turns < RETRYING_ATTEMPTS
      invariant 0 <= turns == runs <= RETRYING_ATTEMPTS
      invariant db == OthersOnly(start, env, turns)
      invariant forall k :: 1 <= k <= turns ==> Retried(start, action, env, k)
      invariant turns > 0 ==>
                  && Retried(start, action, env, turns)
                  && lastErr == Some(BodyFailed(LastRun(start, action, env, turns).error))
    {
      var a := env[turns];
      db := a.others(db);
      turns := turns + 1;
      if !a.begins {
        err := Some(BeginFailed);
        OutcomeIsLoop(start, action, env, db, err, turns);
        return;
      }
      runs := runs + 1;
      match RunBody(action, a, db) {
        case Done(next) =>
          match a.commit {
            case Committed => db, err := next, None;
            case AppliedButFailed => db, err := next, Some(CommitFailed);
            case NotApplied => err := Some(CommitFailed);
          }
          OutcomeIsLoop(start, action, env, db, err, turns);
          return;
        case Failed(error, retriable) =>
          lastErr := Some(BodyFailed(error));
          if !retriable || a.cancelled {
            err := if retriable then Some(Cancelled) else lastErr;
            OutcomeIsLoop(start, action, env, db, err, turns);
            return;
          }
      }
    }
    err := lastErr;
    OutcomeIsLoop(start, action, env, db, err, turns);
  }
}
