/** The main results: every statement is about every run of the service, that is, every state
    reached from empty tables by any sequence of events. */
module Theorems {
  import opened Digits
  import opened Orders
  import opened TxRetry
  import opened Ledger
  import opened Luhn
  import opened DumpFile
  import opened System
  import opened Refines
  import opened Safety
  import Money
  import Pool
  import B = Books

  ghost predicate Reachable(cfg: Settings, s: State) {
    exists events :: Reaches(cfg, INITIAL, events, s)
  }

  lemma ReachableIsGood(cfg: Settings, s: State)
    requires Reachable(cfg, s)
    ensures SysInv(cfg, s)
  {
    var events :| Reaches(cfg, INITIAL, events, s);
    InitialIsGood(cfg);
    RunKeepsInv(cfg, INITIAL, events, s);
  }

  // ------------------------------------------------------------------ the ledger

  /** Each user's balance is what the processed orders gave minus what was withdrawn; it is
      never negative, and positive once anything was credited or withdrawn. */
  lemma BalancesAgree(cfg: Settings, s: State, user: string)
    requires Reachable(cfg, s)
    ensures Balance(s.tables, user) == Credits(s.tables.orders, user) - Debits(s.tables.withdrawals, user)
    ensures Balance(s.tables, user) >= 0
    ensures HasCredit(s.tables, user) || HasWithdrawal(s.tables, user) ==> Balance(s.tables, user) > 0
  {
    ReachableIsGood(cfg, s);
  }

  /** An order's accrual is credited once if its row is processed with a positive accrual,
      and never otherwise, across all crashes and restarts. */
  lemma CreditedAtMostOnce(cfg: Settings, s: State, id: string)
    requires Reachable(cfg, s)
    ensures s.tables.credited[id] <= 1
    ensures s.tables.credited[id] == 1
            <==> id in s.tables.orders && s.tables.orders[id].status == Processed && s.tables.orders[id].accrual > 0
  {
    ReachableIsGood(cfg, s);
  }

  /** A withdrawal commits only when the balance strictly exceeds its sum. */
  lemma WithdrawalsAreCovered(cfg: Settings, s: State, w: Withdrawal)
    requires Reachable(cfg, s) && Enabled(cfg, s, Withdraw(w))
    ensures Balance(s.tables, w.user) > w.sum
    ensures Balance(Apply(cfg, s, Withdraw(w)).tables, w.user) == Balance(s.tables, w.user) - w.sum
  {
    ReachableIsGood(cfg, s);
    WithdrawalIsGuarded(s.tables, w);
  }

  /** A withdrawal that the funds cover is refused exactly when it asks for all of them. */
  lemma WholeBalanceIsRefused(cfg: Settings, s: State, w: Withdrawal)
    requires Reachable(cfg, s) && Up(s) && ValidNumber(w.order) && 0 <= w.sum <= Balance(s.tables, w.user)
    requires w.user in s.tables.users
    ensures !Enabled(cfg, s, Withdraw(w)) <==> w.sum == Balance(s.tables, w.user)
  {
    ReachableIsGood(cfg, s);
    WithdrawalIsGuarded(s.tables, w);
  }

  // nothing checks the sign of a withdrawal

  /** A withdrawal raises the balance exactly when its sum is negative. */
  lemma NegativeSumsAdd(cfg: Settings, s: State, w: Withdrawal)
    requires Reachable(cfg, s) && Enabled(cfg, s, Withdraw(w))
    ensures Balance(Apply(cfg, s, Withdraw(w)).tables, w.user) > Balance(s.tables, w.user) <==> w.sum < 0
  {
    WithdrawalsAreCovered(cfg, s, w);
  }

  /** A user has at most what the processed orders gave exactly when the withdrawals do not
      sum to a gain. */
  lemma BalanceWithinCredits(cfg: Settings, s: State, user: string)
    requires Reachable(cfg, s)
    ensures Balance(s.tables, user) <= Credits(s.tables.orders, user) <==> Debits(s.tables.withdrawals, user) >= 0
  {
    BalancesAgree(cfg, s, user);
  }

  predicate NoNegativeSum(events: seq<Event>) {
    forall i :: 0 <= i < |events| && events[i].Withdraw? ==> events[i].withdrawal.sum >= 0
  }

  predicate SumsNotNegative(ws: seq<Withdrawal>) {
    forall i :: 0 <= i < |ws| ==> ws[i].sum >= 0
  }

  lemma EventAddsWithdrawal(cfg: Settings, s: State, e: Event)
    requires Enabled(cfg, s, e)
    ensures Apply(cfg, s, e).tables.withdrawals
            == s.tables.withdrawals + if e.Withdraw? then [e.withdrawal] else []
  {
  }

  lemma {:induction false} RunKeepsSums(cfg: Settings, s: State, events: seq<Event>, s': State)
    requires Reaches(cfg, s, events, s') && NoNegativeSum(events) && SumsNotNegative(s.tables.withdrawals)
    ensures SumsNotNegative(s'.tables.withdrawals)
    decreases |events|
  {
    if events != [] {
      assert events[0].Withdraw? ==> events[0].withdrawal.sum >= 0;
      EventAddsWithdrawal(cfg, s, events[0]);
      RunKeepsSums(cfg, Apply(cfg, s, events[0]), events[1..], s');
    }
  }

  lemma {:induction false} DebitsNotNegative(ws: seq<Withdrawal>, user: string)
    requires SumsNotNegative(ws)
    ensures Debits(ws, user) >= 0
  {
    if ws != [] {
      DebitsNotNegative(ws[..|ws| - 1], user);
    }
  }

  /** In a run whose callers withdraw no negative sums nobody has more than was credited. */
  lemma NobodyGainsByWithdrawing(cfg: Settings, events: seq<Event>, s: State, user: string)
    requires Reaches(cfg, INITIAL, events, s) && NoNegativeSum(events)
    ensures Balance(s.tables, user) <= Credits(s.tables.orders, user)
  {
    RunKeepsSums(cfg, INITIAL, events, s);
    DebitsNotNegative(s.tables.withdrawals, user);
    BalanceWithinCredits(cfg, s, user);
  }

  /** With a negative sum a user without any order comes to a balance of 100, all of which
      cannot be withdrawn. */
  lemma NegativeSumMakesMoney(cfg: Settings) returns (s: State)
    ensures Reachable(cfg, s) && s.tables.orders == map[] && Balance(s.tables, "user") == 100
    ensures !Enabled(cfg, s, Withdraw(Withdrawal("user", "0", 100)))
    ensures Enabled(cfg, s, Withdraw(Withdrawal("user", "0", 99)))
  {
    ZeroIsANumber();
    var gain := Withdraw(Withdrawal("user", "0", -100));
    var s1 := Apply(cfg, INITIAL, Boots(Restores));
    var s2 := Apply(cfg, s1, Register("user"));
    assert s2.tables == EMPTY_TABLES.(users := map["user" := 0]) && Up(s2);
    s := Apply(cfg, s2, gain);
    ReachesBy3(cfg, INITIAL, Boots(Restores), Register("user"), gain);
  }

  lemma ReachesBy3(cfg: Settings, s: State, e1: Event, e2: Event, e3: Event)
    requires Enabled(cfg, s, e1)
    requires Enabled(cfg, Apply(cfg, s, e1), e2)
    requires Enabled(cfg, Apply(cfg, Apply(cfg, s, e1), e2), e3)
    ensures Reaches(cfg, s, [e1, e2, e3], Apply(cfg, Apply(cfg, Apply(cfg, s, e1), e2), e3))
  {
    var s1 := Apply(cfg, s, e1);
    var s2 := Apply(cfg, s1, e2);
    var s3 := Apply(cfg, s2, e3);
    assert [e3][1..] == [] && [e2, e3][1..] == [e3] && [e1, e2, e3][1..] == [e2, e3];
    assert Reaches(cfg, s2, [e3], s3);
    assert Reaches(cfg, s1, [e2, e3], s3);
  }

  lemma ZeroIsANumber()
    ensures ValidNumber("0")
  {
    assert Stripped("0"[1..]) == "" && Stripped("0") == "0";
    assert "0"[..0] == "" && LuhnSum("", true) == 0;
  }

  // ------------------------------------------------------------------- live tasks

  /** Across the dump file, the callers' hands, the queues and the workers there is at most
      one live task per order, and it mirrors the order's row. */
  lemma OneLiveTaskPerOrder(cfg: Settings, s: State, t1: Order, t2: Order)
    requires Reachable(cfg, s) && t1 in LiveTasks(s) && t2 in LiveTasks(s) && t1.id == t2.id
    ensures t1 == t2 && LiveTasks(s)[t1] == 1
    ensures t1.id in s.tables.orders && s.tables.orders[t1.id] == t1 && Open(t1.status)
  {
    ReachableIsGood(cfg, s);
    B.OneTaskPerOrder(View(s), t1, t2);
  }

  /** The write of a worker always meets the row of its own task, with its owner. */
  lemma WritesUpdateOwnRow(cfg: Settings, s: State, i: nat)
    requires Reachable(cfg, s) && HasWorker(s, i) && s.process.value.workers[i].Writing?
    ensures var w := s.process.value.workers[i];
            && w.order.id == w.task.id && w.task.id in s.tables.orders
            && s.tables.orders[w.task.id] == w.task && w.order.user == s.tables.orders[w.task.id].user
  {
    ReachableIsGood(cfg, s);
    assert WorkerGood(s.process.value.workers[i]);
    WorkerReplacesTask(s, i, Pool.Idle);
  }

  /** A final row never changes again, and no task for it is ever live. */
  lemma FinalIsForever(cfg: Settings, s: State, events: seq<Event>, s': State, id: string)
    requires Reachable(cfg, s) && Reaches(cfg, s, events, s')
    requires id in s.tables.orders && !Open(s.tables.orders[id].status)
    ensures id in s'.tables.orders && s'.tables.orders[id] == s.tables.orders[id]
    ensures forall t :: t in LiveTasks(s') ==> t.id != id
  {
    ReachableIsGood(cfg, s);
    RunKeepsInv(cfg, s, events, s');
    forall t | t in LiveTasks(s')
      ensures t.id != id
    {
      B.FinalRowsHaveNoTask(View(s'), t);
    }
  }

  // ------------------------------------------------------ from a reply to the ledger

  /** Outside the shortcut a reply with a status of ours and a readable accrual, or none,
      sets its worker to write exactly that; nothing else changes. */
  lemma RepliesAreWritten(cfg: Settings, s: State, i: nat, reply: Reply, status: Status, k: int)
    requires Enabled(cfg, s, Replied(i, reply))
    requires var task := s.process.value.workers[i].task;
             && AsksFor(reply, status) && Gives(reply.accrual, task.accrual, k)
             && !(cfg.skipRepeats && Repeats(task, reply))
    ensures var task := s.process.value.workers[i].task;
            Apply(cfg, s, Replied(i, reply))
            == WorkerMoves(s, i, Pool.Writing(task, Order(task.id, task.user, status, k), 0))
  {
    DecisionPerReply(cfg.skipRepeats, s.process.value.workers[i].task, reply);
  }

  /** In a reachable state a committed attempt leaves the row as written, and its owner richer
      by the accrual of a processed order; a PROCESSING order is requeued, any other done. */
  lemma CommittedWriteIsStored(cfg: Settings, s: State, i: nat, o: Order)
    requires Reachable(cfg, s) && HasWorker(s, i)
    requires s.process.value.workers[i].Writing? && s.process.value.workers[i].order == o
    requires WriteCanSucceed(s.tables, o)
    ensures var s' := Apply(cfg, s, WriteAttempted(i, Completes(Committed)));
            && s'.tables.orders == s.tables.orders[o.id := o]
            && Balance(s'.tables, o.user)
               == Balance(s.tables, o.user) + (if o.status == Processed && o.accrual > 0 then o.accrual else 0)
            && (forall u :: u != o.user ==> Balance(s'.tables, u) == Balance(s.tables, u))
            && s' == WorkerMoves(s, i, if o.status == Processing then Pool.Requeueing(o) else Pool.Idle).(
                       tables := s'.tables)
  {
    assert Sound(s.tables) by { ReachableIsGood(cfg, s); }
    WritesUpdateOwnRow(cfg, s, i);
    UpdateOfOwnRow(s.tables, o);
  }

  /** In a reachable state a PROCESSED reply with a positive accrual, and a committed attempt,
      credit a registered user whose total fits, once and by exactly that accrual. */
  lemma ProcessedIsCredited(cfg: Settings, s: State, i: nat, accrual: string, k: int) returns (s': State)
    requires Reachable(cfg, s) && Enabled(cfg, s, Replied(i, Answer(Known(Processed), accrual)))
    requires accrual != "" && Money.ParseAccrual(accrual) == Money.Amount(k) && k > 0
    requires var user := s.process.value.workers[i].task.user;
             user in s.tables.users && Balance(s.tables, user) + k <= INT64_MAX
    ensures var e1, e2 := Replied(i, Answer(Known(Processed), accrual)), WriteAttempted(i, Completes(Committed));
            Reaches(cfg, s, [e1, e2], s')
    ensures var task := s.process.value.workers[i].task;
            && s'.tables.orders == s.tables.orders[task.id := Order(task.id, task.user, Processed, k)]
            && Balance(s'.tables, task.user) == Balance(s.tables, task.user) + k
            && (forall u :: u != task.user ==> Balance(s'.tables, u) == Balance(s.tables, u))
            && s'.tables.credited[task.id] == 1
            && HasWorker(s', i) && s'.process.value.workers[i].Idle?
  {
    var task := s.process.value.workers[i].task;
    var e1, e2 := Replied(i, Answer(Known(Processed), accrual)), WriteAttempted(i, Completes(Committed));
    var o := Order(task.id, task.user, Processed, k);
    RepliesAreWritten(cfg, s, i, e1.reply, Processed, k);
    var s1 := Apply(cfg, s, e1);
    ReachesBy2(cfg, s, e1, e2);
    StillReachable(cfg, s, [e1], s1);
    CommittedWriteIsStored(cfg, s1, i, o);
    s' := Apply(cfg, s1, e2);
    StillReachable(cfg, s, [e1, e2], s');
    CreditedAtMostOnce(cfg, s', task.id);
  }

  lemma ReachesBy2(cfg: Settings, s: State, e1: Event, e2: Event)
    requires Enabled(cfg, s, e1) && Enabled(cfg, Apply(cfg, s, e1), e2)
    ensures Reaches(cfg, s, [e1], Apply(cfg, s, e1))
    ensures Reaches(cfg, s, [e1, e2], Apply(cfg, Apply(cfg, s, e1), e2))
  {
    assert [e1][1..] == [] && [e2][1..] == [] && [e1, e2][1..] == [e2];
    assert Reaches(cfg, Apply(cfg, s, e1), [e2], Apply(cfg, Apply(cfg, s, e1), e2));
  }

  lemma StillReachable(cfg: Settings, s: State, events: seq<Event>, s': State)
    requires Reachable(cfg, s) && Reaches(cfg, s, events, s')
    ensures Reachable(cfg, s')
  {
    var before :| Reaches(cfg, INITIAL, before, s);
    ReachesJoins(cfg, INITIAL, before, s, events, s');
  }

  // --------------------------------------------------------------------- uploads

  /** Of all calls ever made under one text, at most one succeeds; its caller owns the row. */
  lemma OneCallWins(cfg: Settings, s: State, c: nat, d: nat)
    requires Reachable(cfg, s) && c < |s.calls| && d < |s.calls|
    requires s.calls[c].phase == Answered(Accepted) && s.calls[d].phase == Answered(Accepted)
    requires s.calls[c].order.id == s.calls[d].order.id
    ensures c == d
    ensures var o := s.calls[c].order;
            && o.id in s.tables.orders && s.tables.orders[o.id].user == o.user && ValidNumber(o.id)
  {
    ReachableIsGood(cfg, s);
    assert CallFits(s.tables.orders, s.calls[c]);
  }

  // the table is keyed by the text, the check looks at the digits only

  /** Accepted calls for one number, spelt in whatever way, are one call exactly when their
      texts are equal. */
  lemma OneCallPerSpelling(cfg: Settings, s: State, c: nat, d: nat)
    requires Reachable(cfg, s) && c < |s.calls| && d < |s.calls|
    requires s.calls[c].phase == Answered(Accepted) && s.calls[d].phase == Answered(Accepted)
    requires Stripped(s.calls[c].order.id) == Stripped(s.calls[d].order.id)
    ensures c == d <==> s.calls[c].order.id == s.calls[d].order.id
  {
    if s.calls[c].order.id == s.calls[d].order.id {
      OneCallWins(cfg, s, c, d);
    }
  }

  /** Without spaces and hyphens in the texts at most one call per number is accepted. */
  lemma OneCallPerNumber(cfg: Settings, s: State, c: nat, d: nat)
    requires Reachable(cfg, s) && c < |s.calls| && d < |s.calls|
    requires s.calls[c].phase == Answered(Accepted) && s.calls[d].phase == Answered(Accepted)
    requires AllDigits(s.calls[c].order.id) && AllDigits(s.calls[d].order.id)
    requires Stripped(s.calls[c].order.id) == Stripped(s.calls[d].order.id)
    ensures c == d
  {
    DigitsAreKept(s.calls[c].order.id);
    DigitsAreKept(s.calls[d].order.id);
    OneCallWins(cfg, s, c, d);
  }

  /** The events of one upload that nothing disturbs. */
  function UploadEvents(c: nat, id: string, user: string): seq<Event> {
    [StoreBegins(id, user), InsertAttempted(c, Completes(Committed)), CallOffers(c, false)]
  }

  /** An upload under a text that is new to the table is accepted, whatever it spells. */
  lemma NewTextIsAccepted(cfg: Settings, s: State, id: string, user: string) returns (s': State)
    requires Up(s) && !s.process.value.stop.linkClosed
    requires ValidNumber(id) && id != "" && user != "" && id !in s.tables.orders
    ensures Reaches(cfg, s, UploadEvents(|s.calls|, id, user), s')
    ensures Up(s') && !s'.process.value.stop.linkClosed
    ensures s'.calls == s.calls + [Call(Order(id, user, New, 0), Answered(Accepted))]
    ensures s'.tables.orders.Keys == s.tables.orders.Keys + {id}
  {
    var c, order := |s.calls|, Order(id, user, New, 0);
    var events := UploadEvents(c, id, user);
    var s1 := Apply(cfg, s, events[0]);
    assert s1 == s.(calls := s.calls + [Call(order, Inserting(0))]);
    var s2 := Apply(cfg, s1, events[1]);
    assert s2.calls == s.calls + [Call(order, Offering)];
    s' := Apply(cfg, s2, events[2]);
    assert s'.calls == s.calls + [Call(order, Answered(Accepted))];
    ReachesBy3(cfg, s, events[0], events[1], events[2]);
  }

  /** Two uploads of two texts that pass the check are both accepted, whatever they spell. */
  lemma TwoTextsBothWin(cfg: Settings, id1: string, user1: string, id2: string, user2: string) returns (s: State)
    requires ValidNumber(id1) && ValidNumber(id2) && id1 != id2
    requires id1 != "" && id2 != "" && user1 != "" && user2 != ""
    ensures Reachable(cfg, s)
    ensures s.calls == [Call(Order(id1, user1, New, 0), Answered(Accepted)),
                        Call(Order(id2, user2, New, 0), Answered(Accepted))]
  {
    var boots := Boots(Restores);
    var s1 := Apply(cfg, INITIAL, boots);
    assert s1.calls == [] && s1.tables == EMPTY_TABLES && !s1.process.value.stop.linkClosed;
    var s2 := NewTextIsAccepted(cfg, s1, id1, user1);
    s := NewTextIsAccepted(cfg, s2, id2, user2);
    assert [boots][1..] == [];
    assert Reaches(cfg, INITIAL, [boots], s1);
    ReachesJoins(cfg, INITIAL, [boots], s1, UploadEvents(0, id1, user1), s2);
    ReachesJoins(cfg, INITIAL, [boots] + UploadEvents(0, id1, user1), s2, UploadEvents(1, id2, user2), s);
  }

  /** Two users are both accepted with one number, the second by appending a space. */
  lemma TwoSpellingsBothWin(cfg: Settings) returns (s: State)
    ensures Reachable(cfg, s)
    ensures s.calls == [Call(Order("0", "anna", New, 0), Answered(Accepted)),
                        Call(Order("0 ", "boris", New, 0), Answered(Accepted))]
    ensures Stripped("0") == Stripped("0 ")
  {
    SpellingsOfZero();
    assert |"0"| != |"0 "|;
    s := TwoTextsBothWin(cfg, "0", "anna", "0 ", "boris");
  }

  lemma SpellingsOfZero()
    ensures ValidNumber("0") && ValidNumber("0 ") && Stripped("0") == Stripped("0 ")
  {
    ZeroIsANumber();
    SeparatorsAreIgnored("0", ' ', "");
    assert "0" + [' '] + "" == "0 " && "0" + "" == "0";
    StrippedAppend("0", " ");
    assert Stripped(" ") == "" && "0" + " " == "0 ";
  }

  /** A duplicate upload whose lookup completed was told "yours" iff the caller owns the row,
      although insert and lookup are separate transactions; and this stays true. */
  lemma DuplicatesAreToldTheOwner(cfg: Settings, s: State, c: nat)
    requires Reachable(cfg, s) && c < |s.calls|
    requires s.calls[c].phase == Answered(AlreadyYours) || s.calls[c].phase == Answered(AnotherUsers)
    ensures var o := s.calls[c].order;
            && o.id in s.tables.orders
            && (s.calls[c].phase == Answered(AlreadyYours) <==> s.tables.orders[o.id].user == o.user)
  {
    ReachableIsGood(cfg, s);
    assert CallFits(s.tables.orders, s.calls[c]);
  }

  lemma EventKeepsAnswers(cfg: Settings, s: State, e: Event, c: nat)
    requires Enabled(cfg, s, e) && c < |s.calls|
    ensures var s' := Apply(cfg, s, e);
            && c < |s'.calls| && s'.calls[c].order == s.calls[c].order
            && (s.calls[c].phase.Answered? ==> s'.calls[c] == s.calls[c])
  {
  }

  /** An answer that was given stands, through crashes and restarts. */
  lemma {:induction false} AnswersStand(cfg: Settings, s: State, events: seq<Event>, s': State, c: nat)
    requires Reaches(cfg, s, events, s') && c < |s.calls| && s.calls[c].phase.Answered?
    ensures c < |s'.calls| && s'.calls[c] == s.calls[c]
    decreases |events|
  {
    if events != [] {
      EventKeepsAnswers(cfg, s, events[0], c);
      AnswersStand(cfg, Apply(cfg, s, events[0]), events[1..], s', c);
    }
  }

  /** Rows stay, and their owners never change. */
  lemma OwnersNeverChange(cfg: Settings, s: State, events: seq<Event>, s': State, id: string)
    requires Reachable(cfg, s) && Reaches(cfg, s, events, s') && id in s.tables.orders
    ensures id in s'.tables.orders && s'.tables.orders[id].user == s.tables.orders[id].user
  {
    ReachableIsGood(cfg, s);
    RunKeepsInv(cfg, s, events, s');
  }

  // ------------------------------------------------------------------- the pool

  /** No wakeup is lost, tasks in flight are conserved, and the dump's list is in order. */
  lemma PoolIsSound(cfg: Settings, s: State)
    requires Reachable(cfg, s) && Up(s)
    ensures Pool.NoLostWakeup(s.process.value)
    ensures Pool.Conserved(s.process.value)
    ensures Pool.DumpIsOrdered(s.process.value)
  {
    ReachableIsGood(cfg, s);
  }

  /** No send meets a closed `workerCh`: whoever could send has returned before. */
  lemma WorkerChannelClosesLast(cfg: Settings, s: State)
    requires Reachable(cfg, s) && Up(s) && s.process.value.stop.workerClosed
    ensures s.process.value.dispatcher.DispatcherDone? && s.process.value.reader.ReaderDone?
    ensures forall i :: 0 <= i < |s.process.value.workers| ==> s.process.value.workers[i].WorkerDone?
  {
    ReachableIsGood(cfg, s);
    Pool.ClosedOnlyAfterAllReturned(cfg.pool, s.process.value);
  }

  // ------------------------------------------------------------------- the stack

  /** One process runs through all these events. */
  ghost predicate StaysUp(cfg: Settings, s: State, events: seq<Event>)
    decreases |events|
  {
    Up(s) && (events == [] || (Enabled(cfg, s, events[0]) && StaysUp(cfg, Apply(cfg, s, events[0]), events[1..])))
  }

  /** At some point of the run the dispatcher takes `task` off a stack that holds nothing
      but `base` beneath it. */
  ghost predicate TakenOff(cfg: Settings, s: State, events: seq<Event>, base: seq<Order>, task: Order)
    decreases |events|
  {
    && events != [] && Enabled(cfg, s, events[0])
    && ((events[0] == InPool(Pool.Dispatches(Pool.Looks)) && s.process.value.pending == base + [task])
        || TakenOff(cfg, Apply(cfg, s, events[0]), events[1..], base, task))
  }

  lemma EventKeepsStack(cfg: Settings, s: State, e: Event, base: seq<Order>, task: Order)
    requires Enabled(cfg, s, e) && Up(s) && Up(Apply(cfg, s, e))
    requires base + [task] <= s.process.value.pending
    ensures || base + [task] <= Apply(cfg, s, e).process.value.pending
            || (e == InPool(Pool.Dispatches(Pool.Looks)) && s.process.value.pending == base + [task])
  {
    if e.InPool? {
      Pool.OnlyTheTopIsTaken(cfg.pool, s.process.value, e.e, base, task);
    }
  }

  /** Over any run of a process, whatever the pauses, push-backs and appends: a task on the
      stack stays, with everything beneath it, until it is the topmost; so what came later
      leaves earlier. */
  lemma {:induction false} LastInFirstOut(cfg: Settings, s: State, events: seq<Event>, s': State,
                                          base: seq<Order>, task: Order)
    requires Reaches(cfg, s, events, s') && StaysUp(cfg, s, events)
    requires base + [task] <= s.process.value.pending
    ensures Up(s') && (base + [task] <= s'.process.value.pending || TakenOff(cfg, s, events, base, task))
    decreases |events|
  {
    if events != [] {
      EventKeepsStack(cfg, s, events[0], base, task);
      var s1 := Apply(cfg, s, events[0]);
      if base + [task] <= s1.process.value.pending {
        LastInFirstOut(cfg, s1, events[1..], s', base, task);
      } else {
        StillUp(cfg, s, events, s');
      }
    }
  }

  lemma {:induction false} StillUp(cfg: Settings, s: State, events: seq<Event>, s': State)
    requires Reaches(cfg, s, events, s') && StaysUp(cfg, s, events)
    ensures Up(s')
    decreases |events|
  {
    if events != [] {
      StillUp(cfg, Apply(cfg, s, events[0]), events[1..], s');
    }
  }

  // ------------------------------------------------------------ dump and restart

  ghost predicate Dumped(s: State) {
    Up(s) ==> s.process.value.dispatcher.DispatcherDone?
  }

  /** Only a save and a start touch the dump file; a crash, above all, does not. */
  lemma OnlySaveAndStartTouchTheFile(cfg: Settings, s: State, e: Event)
    requires Enabled(cfg, s, e) && !e.Saves? && !e.Boots?
    ensures Apply(cfg, s, e).file == s.file
  {
  }

  /** A start: everything empty, everyone at the beginning of its loop, and the tasks of the
      file on the stack with a wakeup. */
  lemma StartIsFresh(cfg: Settings, s: State, boot: BootOutcome)
    requires !Up(s)
    ensures var s' := Apply(cfg, s, Boots(boot));
            var m := s'.process.value;
            && s'.tables == s.tables && s'.calls == s.calls
            && m.stop == Pool.Stop(false, false, false, false)
            && m.linkCh == [] && m.workerCh == [] && m.pauseCh == []
            && m.reader == Pool.Receiving && m.dispatcher == Pool.Waiting
            && |m.workers| == cfg.pool.workers && m.wg == cfg.pool.workers + 2
            && (forall i :: 0 <= i < |m.workers| ==> m.workers[i] == Pool.Idle)
            && (m.hasTasks <==> m.pending != [])
            && match boot
               case Restores => m.pending == s.file && s'.file == []
               case HeaderUnreadable => m.pending == [] && s'.file == []
               case RestoreFails => m.pending == [] && s'.file == s.file
               case EraseFails => m.pending == [] && s'.file == s.file
  {
  }

  lemma EventKeepsDump(cfg: Settings, s: State, e: Event)
    requires Dumped(s) && Enabled(cfg, s, e) && !e.Boots?
    ensures Dumped(Apply(cfg, s, e)) && Apply(cfg, s, e).file == s.file
  {
  }

  lemma {:induction false} RunKeepsDump(cfg: Settings, s: State, events: seq<Event>, s': State)
    requires Dumped(s) && Reaches(cfg, s, events, s')
    requires forall i :: 0 <= i < |events| ==> !events[i].Boots?
    ensures Dumped(s') && s'.file == s.file
    decreases |events|
  {
    if events != [] {
      EventKeepsDump(cfg, s, events[0]);
      RunKeepsDump(cfg, Apply(cfg, s, events[0]), events[1..], s');
    }
  }

  /** In every reachable state in which the dump is about to be saved the channel is empty,
      and every task that was restored or received is in the list, or was taken by a worker,
      or is in the reader's hand, or came on the stack after the snapshot. */
  lemma DumpIsComplete(cfg: Settings, s: State)
    requires Reachable(cfg, s) && Up(s) && s.process.value.dispatcher.Saving?
    ensures Pool.ListIsComplete(s.process.value)
  {
    ReachableIsGood(cfg, s);
    Pool.SavedListIsComplete(cfg.pool, s.process.value);
  }

  /** `part` is `whole` with some elements left out. */
  predicate Subsequence(part: seq<Order>, whole: seq<Order>) {
    if whole == [] then part == []
    else Subsequence(part, whole[1..]) || (part != [] && part[0] == whole[0] && Subsequence(part[1..], whole[1..]))
  }

  lemma {:induction false} SubsequenceOfItself(xs: seq<Order>)
    ensures Subsequence(xs, xs)
  {
    if xs != [] {
      SubsequenceOfItself(xs[1..]);
    }
  }

  /** From the list `list` and the channel `ch` to the next ones: the channel's head goes on
      the list, or is taken by a worker, or nothing moves. */
  predicate DrainStep(list: seq<Order>, ch: seq<Order>, list': seq<Order>, ch': seq<Order>) {
    || (list' == list && ch' == ch)
    || (ch != [] && ch' == ch[1..] && (list' == list || list' == list + [ch[0]]))
  }

  lemma DrainStepFirst(list: seq<Order>, ch: seq<Order>, list1: seq<Order>, ch1: seq<Order>,
                       rest: seq<Order>, ch2: seq<Order>)
    returns (drained: seq<Order>)
    requires DrainStep(list, ch, list1, ch1) && Subsequence(rest + ch2, ch1)
    ensures list1 + rest == list + drained && Subsequence(drained + ch2, ch)
  {
    if list1 == list {
      drained := rest;
    } else {
      drained := [ch[0]] + rest;
      assert (drained + ch2)[0] == ch[0] && (drained + ch2)[1..] == rest + ch2;
    }
  }

  predicate Dumping(s: State) {
    Up(s) && (s.process.value.dispatcher.Draining? || s.process.value.dispatcher.Saving?)
  }

  lemma PoolEventOfDump(cfg: Pool.Config, m: Pool.Memory, e: Pool.Event)
    requires Pool.Enabled(cfg, m, e)
    requires m.dispatcher.Draining? || m.dispatcher.Saving?
    ensures var m' := Pool.Next(cfg, m, e);
            && (m'.dispatcher.Draining? || m'.dispatcher.Saving?)
            && DrainStep(m.dispatcher.orders, m.workerCh, m'.dispatcher.orders, m'.workerCh)
  {
    if e.Dispatches? {
      assert e.d == Pool.Drains;
    }
  }

  lemma EventOfDump(cfg: Settings, s: State, e: Event)
    requires Enabled(cfg, s, e) && Dumping(s) && Up(Apply(cfg, s, e))
    ensures var s' := Apply(cfg, s, e);
            var m, m' := s.process.value, s'.process.value;
            if Dumping(s') then DrainStep(m.dispatcher.orders, m.workerCh, m'.dispatcher.orders, m'.workerCh)
            else Dumped(s')
  {
    if e.InPool? {
      PoolEventOfDump(cfg.pool, s.process.value, e.e);
    }
  }

  lemma {:induction false} DumpStaysDone(cfg: Settings, s: State, events: seq<Event>, s': State)
    requires Reaches(cfg, s, events, s') && StaysUp(cfg, s, events) && Dumped(s)
    ensures Dumped(s')
    decreases |events|
  {
    if events != [] {
      EventKeepsDump(cfg, s, events[0]);
      DumpStaysDone(cfg, Apply(cfg, s, events[0]), events[1..], s');
    }
  }

  /** A run between two moments of one dump. */
  lemma {:induction false} DumpInOrder(cfg: Settings, s: State, events: seq<Event>, s': State)
    returns (drained: seq<Order>)
    requires Dumping(s) && Dumping(s')
    requires Reaches(cfg, s, events, s') && StaysUp(cfg, s, events)
    ensures s'.process.value.dispatcher.orders == s.process.value.dispatcher.orders + drained
    ensures Subsequence(drained + s'.process.value.workerCh, s.process.value.workerCh)
    decreases |events|
  {
    var m, left := s.process.value, s'.process.value.workerCh;
    if events == [] {
      drained := [];
      assert [] + left == left;
      SubsequenceOfItself(left);
    } else {
      var s1 := Apply(cfg, s, events[0]);
      EventOfDump(cfg, s, events[0]);
      if !Dumping(s1) { DumpStaysDone(cfg, s1, events[1..], s'); }
      var rest := DumpInOrder(cfg, s1, events[1..], s');
      var m1 := s1.process.value;
      drained := DrainStepFirst(m.dispatcher.orders, m.workerCh, m1.dispatcher.orders, m1.workerCh, rest, left);
    }
  }

  lemma SnapshotTaken(cfg: Settings, s: State)
    requires Up(s) && s.process.value.dispatcher.Snapshotting?
    ensures Enabled(cfg, s, InPool(Pool.Dispatches(Pool.Snapshots)))
    ensures var s1 := Apply(cfg, s, InPool(Pool.Dispatches(Pool.Snapshots)));
            && Up(s1) && s1.process.value.dispatcher == Pool.Draining(s.process.value.pending)
            && s1.process.value.workerCh == s.process.value.workerCh
  {
  }

  lemma SavedWhenDrained(cfg: Settings, s: State, e: Event, events: seq<Event>, s': State)
    requires Reachable(cfg, s) && Enabled(cfg, s, e) && Reaches(cfg, Apply(cfg, s, e), events, s')
    requires Up(s') && s'.process.value.dispatcher.Saving?
    ensures s'.process.value.workerCh == []
  {
    ReachableIsGood(cfg, s);
    EventKeepsInv(cfg, s, e);
    RunKeepsInv(cfg, Apply(cfg, s, e), events, s');
    Pool.SavedListIsComplete(cfg.pool, s'.process.value);
  }

  /** The dump among whatever else happens: the list that is saved is the stack at the
      snapshot, from the bottom, followed by the tasks that were in the channel then, in
      their order and without those that workers took meanwhile; and none is left there. */
  lemma SavedListIsStackThenChannel(cfg: Settings, s: State, s1: State, events: seq<Event>, s': State)
    returns (drained: seq<Order>)
    requires Reachable(cfg, s) && Enabled(cfg, s, InPool(Pool.Dispatches(Pool.Snapshots)))
    requires s1 == Apply(cfg, s, InPool(Pool.Dispatches(Pool.Snapshots)))
    requires Reaches(cfg, s1, events, s') && StaysUp(cfg, s1, events)
    requires Up(s') && s'.process.value.dispatcher.Saving?
    ensures s'.process.value.dispatcher.orders == s.process.value.pending + drained
    ensures Subsequence(drained, s.process.value.workerCh) && s'.process.value.workerCh == []
  {
    SavedWhenDrained(cfg, s, InPool(Pool.Dispatches(Pool.Snapshots)), events, s');
    SnapshotTaken(cfg, s);
    drained := DumpInOrder(cfg, s1, events, s');
    assert drained + [] == drained;
  }

  /** The list of a successful save is complete, and whatever happens until the next start, a
      successful restore puts it, the stack's snapshot followed by what was drained, back on
      the stack in order, with a wakeup iff it is not empty; a restore or erase that fails
      puts nothing there and leaves the file. */
  lemma GracefulRestart(cfg: Settings, s: State, events: seq<Event>, s': State, boot: BootOutcome)
    requires Reachable(cfg, s) && Enabled(cfg, s, Saves(Saved))
    requires Reaches(cfg, Apply(cfg, s, Saves(Saved)), events, s') && !Up(s')
    requires forall i :: 0 <= i < |events| ==> !events[i].Boots?
    ensures Pool.ListIsComplete(s.process.value)
    ensures var saved := s.process.value.flow.snapshot + s.process.value.flow.drained;
            var after := Apply(cfg, s', Boots(boot));
            && after.process.value.dispatcher.Waiting?
            && (boot == Restores ==> after.process.value.pending == saved && after.file == []
                                     && (after.process.value.hasTasks <==> saved != []))
            && (boot == RestoreFails || boot == EraseFails ==>
                  after.process.value.pending == [] && !after.process.value.hasTasks && after.file == saved)
  {
    DumpIsComplete(cfg, s);
    SavedFile(cfg, s);
    RunKeepsDump(cfg, Apply(cfg, s, Saves(Saved)), events, s');
    BootedFrom(cfg, s', boot);
  }

  lemma SavedFile(cfg: Settings, s: State)
    requires Reachable(cfg, s) && Enabled(cfg, s, Saves(Saved))
    ensures var s1 := Apply(cfg, s, Saves(Saved));
            Dumped(s1) && s1.file == s.process.value.flow.snapshot + s.process.value.flow.drained
  {
    ReachableIsGood(cfg, s);
  }

  lemma BootedFrom(cfg: Settings, s: State, boot: BootOutcome)
    requires !Up(s)
    ensures var m := Apply(cfg, s, Boots(boot)).process.value;
            var file := Apply(cfg, s, Boots(boot)).file;
            && m.dispatcher.Waiting? && (m.hasTasks <==> m.pending != [])
            && (boot == Restores ==> m.pending == s.file && file == [])
            && (boot == RestoreFails || boot == EraseFails ==> m.pending == [] && file == s.file)
  {
  }
}
