/** The three tables and their transactions (internal/repositories/postgresql).

    Each transaction body is one function from the tables to the new tables or an error;
    an error leaves the tables as they were. `users.balance` is a running total that only
    UpdateBalance changes. */
module Ledger {
  import opened Digits
  import opened Orders
  import opened TxRetry

  datatype Withdrawal = Withdrawal(user: string, order: string, sum: int)

  /** `credited` is not a column: it records, per order, how often the order's accrual was
      added to a balance. */
  datatype Tables = Tables(
    users: map<string, int>,
    orders: map<string, Order>,
    withdrawals: seq<Withdrawal>,
    credited: multiset<string>)

  const EMPTY_TABLES := Tables(map[], map[], [], multiset{})

  datatype DbError = OrderExists | BalanceNotEnough | OutOfRange | OrderNotFound | ServerError

  type TxResult = BodyResult<Tables, DbError>

  // ---------------------------------------------------------- transaction bodies

  /** A new user's balance is the column default, 0. */
  function AddUserTx(t: Tables, user: string): TxResult {
    if user in t.users then Failed(ServerError, false)
    else Done(t.(users := t.users[user := 0]))
  }

  /** The insert names no accrual: the column default, 0, is stored. */
  function AddOrderTx(t: Tables, o: Order): TxResult {
    if o.id in t.orders then Failed(OrderExists, false)
    else Done(t.(orders := t.orders[o.id := o.(accrual := 0)]))
  }

  /** The guarded update: the new balance must be strictly positive (and a bigint). */
  function UpdateBalance(t: Tables, user: string, diff: int): TxResult {
    if user !in t.users then Failed(BalanceNotEnough, false)
    else
      var balance := t.users[user] + diff;
      if !FitsInt64(balance) then Failed(OutOfRange, false)
      else if balance > 0 then Done(t.(users := t.users[user := balance]))
      else Failed(BalanceNotEnough, false)
  }

  /** INSERT … ON CONFLICT (id) DO UPDATE: an existing row keeps its owner. */
  function UpsertOrder(orders: map<string, Order>, o: Order): map<string, Order> {
    if o.id in orders then orders[o.id := orders[o.id].(status := o.status, accrual := o.accrual)]
    else orders[o.id := o]
  }

  /** The upsert, and the credit of a processed order's positive accrual, in one transaction. */
  function UpdateOrderTx(t: Tables, o: Order): TxResult {
    var t1 := t.(orders := UpsertOrder(t.orders, o));
    if o.status == Processed && o.accrual > 0 then
      UpdateBalance(t1.(credited := t1.credited + multiset{o.id}), o.user, o.accrual)
    else Done(t1)
  }

  /** The withdrawal row and the debit, in one transaction; the negation is Go's. */
  function AddWithdrawnTx(t: Tables, w: Withdrawal): TxResult {
    UpdateBalance(t.(withdrawals := t.withdrawals + [w]), w.user, Wrap64(-w.sum))
  }

  // the bodies as the retry loop takes them

  function InsertBody(o: Order): Tables -> TxResult {
    t => AddOrderTx(t, o)
  }

  function UpdateBody(o: Order): Tables -> TxResult {
    t => UpdateOrderTx(t, o)
  }

  function WithdrawBody(w: Withdrawal): Tables -> TxResult {
    t => AddWithdrawnTx(t, w)
  }

  /** SELECT … WHERE id = $1 AND user_id = $2 */
  function GetOrderRow(t: Tables, id: string, user: string): Option<Order> {
    if id in t.orders && t.orders[id].user == user then Some(t.orders[id]) else None
  }

  // ------------------------------------------------------------------- the sums

  /** What a row contributes to a user's balance. */
  function Credit(o: Order, user: string): (c: int)
    ensures c >= 0
  {
    if o.user == user && o.status == Processed && o.accrual > 0 then o.accrual else 0
  }

  ghost function Credits(orders: map<string, Order>, user: string): (sum: int)
    ensures sum >= 0
  {
    if orders == map[] then 0
    else
      var id :| id in orders;
      Credit(orders[id], user) + Credits(orders - {id}, user)
  }

  function Debits(ws: seq<Withdrawal>, user: string): int {
    if ws == [] then 0
    else
      var last := ws[|ws| - 1];
      Debits(ws[..|ws| - 1], user) + if last.user == user then last.sum else 0
  }

  /** The sum does not depend on the order in which rows are taken. */
  lemma {:induction false} CreditsWithout(orders: map<string, Order>, id: string, user: string)
    requires id in orders
    ensures Credits(orders, user) == Credit(orders[id], user) + Credits(orders - {id}, user)
    decreases |orders|
  {
    var first :| first in orders
      && Credits(orders, user) == Credit(orders[first], user) + Credits(orders - {first}, user);
    if first != id {
      CreditsWithout(orders - {first}, id, user);
      CreditsWithout(orders - {id}, first, user);
      assert orders - {first} - {id} == orders - {id} - {first};
    }
  }

  lemma CreditsAfterUpdate(orders: map<string, Order>, o: Order, user: string)
    ensures Credits(orders[o.id := o], user)
            == Credits(orders, user) + Credit(o, user)
               - if o.id in orders then Credit(orders[o.id], user) else 0
  {
    var updated := orders[o.id := o];
    CreditsWithout(updated, o.id, user);
    if o.id in orders {
      CreditsWithout(orders, o.id, user);
      assert updated - {o.id} == orders - {o.id};
    } else {
      assert updated - {o.id} == orders;
    }
  }

  // ------------------------------------------------------------------ invariants

  function Balance(t: Tables, user: string): int {
    if user in t.users then t.users[user] else 0
  }

  /** The running totals agree with the rows they summarise. */
  ghost predicate Balanced(t: Tables) {
    forall u :: Balance(t, u) == Credits(t.orders, u) - Debits(t.withdrawals, u)
  }

  predicate HasCredit(t: Tables, user: string) {
    exists id :: id in t.orders && Credit(t.orders[id], user) > 0
  }

  predicate HasWithdrawal(t: Tables, user: string) {
    exists i :: 0 <= i < |t.withdrawals| && t.withdrawals[i].user == user
  }

  /** Balances are never negative, and positive once anything was credited or withdrawn. */
  ghost predicate Positive(t: Tables) {
    forall u :: && 0 <= Balance(t, u) <= INT64_MAX
                && (HasCredit(t, u) || HasWithdrawal(t, u) ==> Balance(t, u) > 0)
  }

  function TimesDue(t: Tables, id: string): nat {
    if id in t.orders && t.orders[id].status == Processed && t.orders[id].accrual > 0 then 1 else 0
  }

  /** Every processed order with a positive accrual was credited exactly once, no other ever. */
  ghost predicate CreditedOnce(t: Tables) {
    forall id {:trigger t.credited[id]} :: t.credited[id] == TimesDue(t, id)
  }

  ghost predicate Keyed(t: Tables) {
    forall id :: id in t.orders ==> t.orders[id].id == id
  }

  ghost predicate Sound(t: Tables) {
    Keyed(t) && Balanced(t) && Positive(t) && CreditedOnce(t)
  }

  lemma EmptyIsSound()
    ensures Sound(EMPTY_TABLES)
  {
  }

  // --------------------------------------------- what each transaction keeps

  lemma AddUserKeepsSound(t: Tables, user: string)
    requires Sound(t) && AddUserTx(t, user).Done?
    ensures Sound(AddUserTx(t, user).state)
  {
    var t' := AddUserTx(t, user).state;
    forall u
      ensures Balance(t', u) == Balance(t, u)
      ensures HasCredit(t', u) == HasCredit(t, u) && HasWithdrawal(t', u) == HasWithdrawal(t, u)
    {
    }
  }

  lemma AddOrderKeepsSound(t: Tables, o: Order)
    requires Sound(t) && o.status != Processed && AddOrderTx(t, o).Done?
    ensures Sound(AddOrderTx(t, o).state)
  {
    RowChangeKeepsSound(t, o.(accrual := 0));
  }

  /** Writing a row that carries no credit, over one that carries none, moves no total. */
  lemma RowChangeKeepsSound(t: Tables, o: Order)
    requires Sound(t) && !(o.status == Processed && o.accrual > 0) && TimesDue(t, o.id) == 0
    ensures Sound(t.(orders := t.orders[o.id := o]))
  {
    var t' := t.(orders := t.orders[o.id := o]);
    forall u
      ensures Balance(t', u) == Credits(t'.orders, u) - Debits(t'.withdrawals, u)
    {
      CreditsAfterUpdate(t.orders, o, u);
    }
    forall u | HasCredit(t', u)
      ensures HasCredit(t, u)
    {
      var id :| id in t'.orders && Credit(t'.orders[id], u) > 0;
      assert id in t.orders && Credit(t.orders[id], u) > 0;
    }
  }

  /** Completing an open order moves the balance and the rows together. */
  lemma UpdateOrderKeepsSound(t: Tables, o: Order)
    requires Sound(t)
    requires o.id in t.orders && t.orders[o.id].user == o.user && Open(t.orders[o.id].status)
    requires UpdateOrderTx(t, o).Done?
    ensures var t' := UpdateOrderTx(t, o).state;
            Sound(t') && t'.orders == t.orders[o.id := o] && t'.withdrawals == t.withdrawals
  {
    assert t.orders[o.id].(status := o.status, accrual := o.accrual) == o;
    if o.status == Processed && o.accrual > 0 {
      CreditKeepsSound(t, o);
    } else {
      RowChangeKeepsSound(t, o);
    }
  }

  lemma CreditKeepsSound(t: Tables, o: Order)
    requires Sound(t) && o.status == Processed && o.accrual > 0
    requires o.id in t.orders && TimesDue(t, o.id) == 0
    requires o.user in t.users && FitsInt64(t.users[o.user] + o.accrual)
    ensures Sound(t.(orders := t.orders[o.id := o], users := t.users[o.user := t.users[o.user] + o.accrual],
                     credited := t.credited + multiset{o.id}))
  {
    var t' := t.(orders := t.orders[o.id := o], users := t.users[o.user := t.users[o.user] + o.accrual],
                 credited := t.credited + multiset{o.id});
    assert Balance(t, o.user) >= 0;
    forall u
      ensures Balance(t', u) == Credits(t'.orders, u) - Debits(t'.withdrawals, u)
      ensures u != o.user ==> Balance(t', u) == Balance(t, u)
    {
      CreditsAfterUpdate(t.orders, o, u);
    }
    forall u | u != o.user && HasCredit(t', u)
      ensures HasCredit(t, u)
    {
      var id :| id in t'.orders && Credit(t'.orders[id], u) > 0;
      assert id in t.orders && Credit(t.orders[id], u) > 0;
    }
  }

  /** A processed order with a positive accrual is credited; nothing else ever is. */
  predicate CreditDue(o: Order) {
    o.status == Processed && o.accrual > 0
  }

  predicate CanCredit(t: Tables, user: string, sum: int) {
    user in t.users && 0 < t.users[user] + sum <= INT64_MAX
  }

  /** What updating an order leaves, table by table. */
  ghost predicate IsUpdated(t: Tables, o: Order, t': Tables) {
    && t'.orders.Keys == t.orders.Keys + {o.id}
    && t'.orders[o.id].status == o.status && t'.orders[o.id].accrual == o.accrual
    && t'.orders[o.id].user == (if o.id in t.orders then t.orders[o.id].user else o.user)
    && t'.orders[o.id].id == (if o.id in t.orders then t.orders[o.id].id else o.id)
    && (forall id :: id in t.orders && id != o.id ==> t'.orders[id] == t.orders[id])
    && t'.withdrawals == t.withdrawals
    && t'.users.Keys == t.users.Keys
    && (forall u :: u in t.users && !(CreditDue(o) && u == o.user) ==> t'.users[u] == t.users[u])
    && (CreditDue(o) ==> o.user in t.users && t'.users[o.user] == t.users[o.user] + o.accrual)
    && t'.credited == t.credited + if CreditDue(o) then multiset{o.id} else multiset{}
  }

  /** An update succeeds exactly when no credit is due or the credit can be given. */
  lemma UpdateSucceeds(t: Tables, o: Order)
    ensures UpdateOrderTx(t, o).Done? <==> (CreditDue(o) ==> CanCredit(t, o.user, o.accrual))
    ensures UpdateOrderTx(t, o).Done? ==> IsUpdated(t, o, UpdateOrderTx(t, o).state)
  {
  }

  /** No credit is due, or there is a user to take it whose total stays an int64. */
  predicate WriteCanSucceed(t: Tables, o: Order) {
    o.status == Processed && o.accrual > 0 ==>
      o.user in t.users && Balance(t, o.user) + o.accrual <= INT64_MAX
  }

  /** Over sound tables only a missing user or an overflowing total stands in the way. */
  lemma UpdateOfSoundSucceeds(t: Tables, o: Order)
    requires Sound(t)
    ensures UpdateOrderTx(t, o).Done?
            <==> WriteCanSucceed(t, o)
  {
    assert Balance(t, o.user) >= 0;
    UpdateSucceeds(t, o);
  }

  /** An update under the row's own owner writes the whole row. */
  lemma UpdateOfOwnRow(t: Tables, o: Order)
    requires Sound(t) && o.id in t.orders && t.orders[o.id].user == o.user && WriteCanSucceed(t, o)
    ensures UpdateOrderTx(t, o).Done?
    ensures var t' := UpdateOrderTx(t, o).state;
            && t'.orders == t.orders[o.id := o]
            && Balance(t', o.user)
               == Balance(t, o.user) + (if o.status == Processed && o.accrual > 0 then o.accrual else 0)
            && (forall u :: u != o.user ==> Balance(t', u) == Balance(t, u))
  {
    UpdateOfSoundSucceeds(t, o);
    assert t.orders[o.id].(status := o.status, accrual := o.accrual) == o;
  }

  /** A credit is refused only for a user without a row or for an overflowing total: the
      strict guard never refuses one. */
  lemma CreditIsRefusedOnlyWhen(t: Tables, o: Order)
    requires Sound(t) && o.status == Processed && o.accrual > 0
    ensures UpdateOrderTx(t, o).Done?
            <==> o.user in t.users && Balance(t, o.user) + o.accrual <= INT64_MAX
  {
    assert Balance(t, o.user) >= 0;
  }

  /** A withdrawal commits exactly when the balance strictly exceeds its sum (and the new
      balance fits); it then leaves the row and the debit, and otherwise nothing. */
  lemma WithdrawalIsGuarded(t: Tables, w: Withdrawal)
    requires Sound(t) && FitsInt64(w.sum)
    ensures AddWithdrawnTx(t, w).Done?
            <==> w.user in t.users && Balance(t, w.user) > w.sum && FitsInt64(Balance(t, w.user) - w.sum)
    ensures AddWithdrawnTx(t, w).Done? ==>
              var t' := AddWithdrawnTx(t, w).state;
              && t'.withdrawals == t.withdrawals + [w]
              && Balance(t', w.user) == Balance(t, w.user) - w.sum
              && t'.orders == t.orders
  {
    if w.sum == INT64_MIN {
      assert Wrap64(-w.sum) == INT64_MIN;
    }
  }

  lemma AddWithdrawnKeepsSound(t: Tables, w: Withdrawal)
    requires Sound(t) && FitsInt64(w.sum)
    requires AddWithdrawnTx(t, w).Done?
    ensures Sound(AddWithdrawnTx(t, w).state)
  {
    WithdrawalIsGuarded(t, w);
    var t' := AddWithdrawnTx(t, w).state;
    assert t'.withdrawals[..|t.withdrawals|] == t.withdrawals;
    forall u | u != w.user && HasWithdrawal(t', u)
      ensures HasWithdrawal(t, u)
    {
      var i :| 0 <= i < |t'.withdrawals| && t'.withdrawals[i].user == u;
      assert i < |t.withdrawals| && t.withdrawals[i].user == u;
    }
    assert forall u :: HasCredit(t', u) <==> HasCredit(t, u);
  }

  /** The credit is unconditional: a second task for one order breaks the agreement. */
  lemma SecondUpdateBreaksTheBalance(t: Tables, o: Order)
    requires Sound(t) && o.id in t.orders && t.orders[o.id] == o
    requires o.status == Processed && o.accrual > 0 && UpdateOrderTx(t, o).Done?
    ensures !Balanced(UpdateOrderTx(t, o).state) && UpdateOrderTx(t, o).state.credited[o.id] == 2
  {
    var t' := UpdateOrderTx(t, o).state;
    assert t'.orders == t.orders;
    assert Balance(t', o.user) == Balance(t, o.user) + o.accrual;
  }
}
