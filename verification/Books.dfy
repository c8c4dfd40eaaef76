/** The tables together with the live tasks: what the accrual pipeline does to them, with the
    places a task can be in left out. Every step of the whole system is one of these steps
    (see System), so what they keep, every run keeps.

    A task is live while some component can still act on it. */
module Books {
  import opened Orders
  import opened TxRetry
  import opened Ledger
  import opened Digits

  datatype Books = Books(tables: Tables, live: multiset<Order>)

  // ------------------------------------------------------------------- the steps

  /** Tasks move between places, or are dropped. */
  ghost predicate Moves(b: Books, b': Books) {
    b'.tables == b.tables && b'.live <= b.live
  }

  /** An upload inserts the row of a new order; its task may or may not come to life. */
  ghost predicate Uploads(b: Books, b': Books, o: Order) {
    && o.status == New && o.accrual == 0
    && AddOrderTx(b.tables, o) == Done(b'.tables)
    && b'.live <= b.live + multiset{o}
  }

  /** A worker's write consumes its task; only a written PROCESSING makes a new one. */
  ghost predicate Updates(b: Books, b': Books, task: Order, o: Order) {
    && task in b.live && o.id == task.id && o.user == task.user
    && UpdateOrderTx(b.tables, o) == Done(b'.tables)
    && b'.live <= b.live - multiset{task} + (if o.status == Processing then multiset{o} else multiset{})
  }

  ghost predicate Withdraws(b: Books, b': Books, w: Withdrawal) {
    && FitsInt64(w.sum) && AddWithdrawnTx(b.tables, w) == Done(b'.tables)
    && b'.live <= b.live
  }

  ghost predicate Joins(b: Books, b': Books, user: string) {
    AddUserTx(b.tables, user) == Done(b'.tables) && b'.live <= b.live
  }

  ghost predicate Step(b: Books, b': Books) {
    || Moves(b, b')
    || (exists o :: Uploads(b, b', o))
    || (exists task, o :: Updates(b, b', task, o))
    || (exists w :: Withdraws(b, b', w))
    || (exists user :: Joins(b, b', user))
  }

  // ------------------------------------------------------------------- invariant

  /** Every live task mirrors its row, which is open, and is the only one for its order. */
  ghost predicate Mirrors(b: Books) {
    forall t :: t in b.live ==>
      b.live[t] == 1 && t.id in b.tables.orders && b.tables.orders[t.id] == t && Open(t.status)
  }

  ghost predicate Good(b: Books) {
    Sound(b.tables) && Mirrors(b)
  }

  /** No two live tasks, in whatever places, are for one order. */
  lemma OneTaskPerOrder(b: Books, t1: Order, t2: Order)
    requires Good(b) && t1 in b.live && t2 in b.live && t1.id == t2.id
    ensures t1 == t2 && b.live[t1] == 1
  {
  }

  /** What happened to the rows: none disappears or changes its owner, a final one does not
      change at all, and withdrawals are only added. */
  ghost predicate Extends(t: Tables, t': Tables) {
    && (forall id :: id in t.orders ==> id in t'.orders && t'.orders[id].user == t.orders[id].user)
    && (forall id :: id in t.orders && !Open(t.orders[id].status) ==> id in t'.orders && t'.orders[id] == t.orders[id])
    && t.withdrawals <= t'.withdrawals
    && t.users.Keys <= t'.users.Keys
  }

  lemma UploadKeepsGood(b: Books, b': Books, o: Order)
    requires Good(b) && Uploads(b, b', o)
    ensures Good(b') && Extends(b.tables, b'.tables)
  {
    AddOrderKeepsSound(b.tables, o);
    assert o.(accrual := 0) == o;
    forall t | t in b'.live
      ensures b'.live[t] == 1 && t.id in b'.tables.orders && b'.tables.orders[t.id] == t && Open(t.status)
    {
      assert b'.live[t] <= (b.live + multiset{o})[t];
      if t != o {
        assert t in b.live;
      } else {
        assert o !in b.live;
      }
    }
  }

  lemma UpdateKeepsGood(b: Books, b': Books, task: Order, o: Order)
    requires Good(b) && Updates(b, b', task, o)
    ensures Good(b') && Extends(b.tables, b'.tables)
    ensures b'.tables.orders == b.tables.orders[o.id := o]
  {
    UpdateOrderKeepsSound(b.tables, o);
    var added := if o.status == Processing then multiset{o} else multiset{};
    forall t | t in b'.live
      ensures b'.live[t] == 1 && t.id in b'.tables.orders && b'.tables.orders[t.id] == t && Open(t.status)
    {
      assert b'.live[t] <= (b.live - multiset{task} + added)[t];
      if t in b.live - multiset{task} {
        assert t in b.live && t != task;
        assert t.id != task.id;
        assert t !in added;
      } else {
        assert t in added;
      }
    }
  }

  lemma OtherStepsKeepMirrors(b: Books, b': Books)
    requires Mirrors(b) && b'.live <= b.live && b'.tables.orders == b.tables.orders
    ensures Mirrors(b')
  {
    forall t | t in b'.live
      ensures b'.live[t] == 1 && t in b.live
    {
      assert b'.live[t] <= b.live[t];
    }
  }

  lemma WithdrawalKeepsGood(b: Books, b': Books, w: Withdrawal)
    requires Good(b) && Withdraws(b, b', w)
    ensures Good(b') && Extends(b.tables, b'.tables)
  {
    AddWithdrawnKeepsSound(b.tables, w);
    OtherStepsKeepMirrors(b, b');
  }

  lemma JoinKeepsGood(b: Books, b': Books, user: string)
    requires Good(b) && Joins(b, b', user)
    ensures Good(b') && Extends(b.tables, b'.tables)
  {
    AddUserKeepsSound(b.tables, user);
    OtherStepsKeepMirrors(b, b');
  }

  lemma StepKeepsGood(b: Books, b': Books)
    requires Good(b) && Step(b, b')
    ensures Good(b') && Extends(b.tables, b'.tables)
  {
    if Moves(b, b') {
      OtherStepsKeepMirrors(b, b');
    } else if o :| Uploads(b, b', o) {
      UploadKeepsGood(b, b', o);
    } else if task, o :| Updates(b, b', task, o) {
      UpdateKeepsGood(b, b', task, o);
    } else if w :| Withdraws(b, b', w) {
      WithdrawalKeepsGood(b, b', w);
    } else {
      var user :| Joins(b, b', user);
      JoinKeepsGood(b, b', user);
    }
  }

  lemma ExtendsIsTransitive(a: Tables, b: Tables, c: Tables)
    requires Extends(a, b) && Extends(b, c)
    ensures Extends(a, c)
  {
  }

  /** Once a row is final no task for it is live. */
  lemma FinalRowsHaveNoTask(b: Books, t: Order)
    requires Good(b) && t in b.live
    ensures t.id in b.tables.orders && Open(b.tables.orders[t.id].status)
  {
  }
}
