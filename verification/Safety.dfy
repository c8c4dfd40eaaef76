/** What holds in every run of the service, from empty tables and no dump file. */
module Safety {
  import opened Orders
  import opened Ledger
  import opened Luhn
  import opened DumpFile
  import opened System
  import opened Refines
  import Pool
  import B = Books

  // ------------------------------------------------------------------- invariant

  /** A call that has won its order: its insert was committed and acknowledged. */
  predicate Won(c: Call) {
    c.phase == Offering || c.phase == Answered(Accepted)
  }

  /** What a call's phase says about the rows. */
  predicate CallFits(orders: map<string, Order>, c: Call) {
    var id, user := c.order.id, c.order.user;
    && (c.phase.Inserting? ==> ValidNumber(id) && Valid(c.order))
    && (c.phase.LookingUp? ==> id in orders)
    && (Won(c) || c.phase == Answered(AlreadyYours) ==> id in orders && orders[id].user == user)
    && (c.phase == Answered(AnotherUsers) ==> id in orders && orders[id].user != user)
  }

  predicate CallsFit(s: State) {
    forall c :: 0 <= c < |s.calls| ==> CallFits(s.tables.orders, s.calls[c])
  }

  predicate OneWinner(calls: seq<Call>) {
    forall c, d :: 0 <= c < d < |calls| && Won(calls[c]) && Won(calls[d]) ==>
      calls[c].order.id != calls[d].order.id
  }

  /** Only checked numbers of named users reach the table. */
  predicate RowsAdmitted(t: Tables) {
    forall id :: id in t.orders ==> ValidNumber(id) && id != "" && t.orders[id].user != ""
  }

  ghost predicate SysInv(cfg: Settings, s: State) {
    && B.Good(View(s))
    && HandsGood(s)
    && CallsFit(s) && OneWinner(s.calls)
    && RowsAdmitted(s.tables)
    && (Up(s) ==> Pool.PoolInv(cfg.pool, s.process.value))
  }

  lemma InitialIsGood(cfg: Settings)
    ensures SysInv(cfg, INITIAL)
  {
    EmptyIsSound();
    assert LiveTasks(INITIAL) == multiset{};
  }

  // ------------------------------------------------------ one event keeps it: hands

  lemma EventKeepsHands(cfg: Settings, s: State, e: Event)
    requires HandsGood(s) && Enabled(cfg, s, e)
    ensures HandsGood(Apply(cfg, s, e))
  {
    match e
    case Replied(i, reply) => ReplyIsGood(cfg.skipRepeats, s.process.value.workers[i].task, reply);
    case WriteAttempted(i, tx) => AfterWriteIsGood(s.tables, s.process.value.workers[i], tx);
    case InPool(pe) => PoolKeepsWorkersGood(cfg, s.process.value, pe);
    case _ =>
  }

  lemma ReplyIsGood(skipRepeats: bool, task: Order, reply: Reply)
    ensures WorkerGood(Follow(task, Decide(skipRepeats, task, reply)))
  {
    if Decide(skipRepeats, task, reply).Write? {
      WrittenOrder(skipRepeats, task, reply);
    }
  }

  lemma AfterWriteIsGood(t: Tables, w: Pool.Worker, tx: TxAttempt)
    requires w.Writing? && WorkerGood(w)
    ensures WorkerGood(AfterWrite(t, w, tx).1)
  {
  }

  lemma PoolKeepsWorkersGood(cfg: Settings, m: Pool.Memory, pe: Pool.Event)
    requires WorkersGood(m.workers) && Pool.Enabled(cfg.pool, m, pe)
    ensures WorkersGood(Pool.Next(cfg.pool, m, pe).workers)
  {
    if !pe.Works? && !(pe.Dispatches? && pe.d.Hands?) {
      Pool.OtherStepsKeepWorkers(cfg.pool, m, pe);
    }
  }

  // ------------------------------------------------------- one event keeps it: pool

  lemma EventKeepsPool(cfg: Settings, s: State, e: Event)
    requires Up(s) ==> Pool.PoolInv(cfg.pool, s.process.value)
    requires Enabled(cfg, s, e)
    ensures var s' := Apply(cfg, s, e); Up(s') ==> Pool.PoolInv(cfg.pool, s'.process.value)
  {
    match e
    case InPool(pe) => Pool.PoolStepKeepsInv(cfg.pool, s.process.value, pe);
    case CallOffers(c, direct) => CallOfferKeepsPool(cfg, s, c, direct);
    case Replied(i, reply) => ReplyKeepsPool(cfg, s, i, reply);
    case PauseSent(i) => PauseKeepsPool(cfg, s, i);
    case WriteAttempted(i, tx) => WriteKeepsPool(cfg, s, i, tx);
    case WorkerOffers(i, direct) => WorkerOfferKeepsPool(cfg, s, i, direct);
    case Saves(save) => Pool.DumpEndKeepsInv(cfg.pool, s.process.value);
    case Boots(boot) => Pool.StartedIsGood(cfg.pool, AfterRestore(s.file, boot).1);
    case _ =>
  }

  lemma CallOfferKeepsPool(cfg: Settings, s: State, c: nat, direct: bool)
    requires InPhase(s, c) && s.calls[c].phase.Offering? && (direct ==> Pool.CanOfferDirectly(s.process.value))
    requires Pool.PoolInv(cfg.pool, s.process.value)
    ensures var s' := OfferFromCall(cfg, s, c, direct);
            Up(s') ==> Pool.PoolInv(cfg.pool, s'.process.value)
  {
    if !s.process.value.stop.linkClosed {
      Pool.OfferKeepsInv(cfg.pool, s.process.value, s.calls[c].order, direct);
    }
  }

  lemma ReplyKeepsPool(cfg: Settings, s: State, i: nat, reply: Reply)
    requires HasWorker(s, i) && s.process.value.workers[i].Asking? && Pool.PoolInv(cfg.pool, s.process.value)
    ensures var s' := React(cfg, s, i, reply);
            Up(s') ==> Pool.PoolInv(cfg.pool, s'.process.value)
  {
    var task := s.process.value.workers[i].task;
    Pool.WorkerMoveKeepsInv(cfg.pool, s.process.value, i, Follow(task, Decide(cfg.skipRepeats, task, reply)));
  }

  lemma WriteKeepsPool(cfg: Settings, s: State, i: nat, tx: TxAttempt)
    requires HasWorker(s, i) && s.process.value.workers[i].Writing? && Pool.PoolInv(cfg.pool, s.process.value)
    ensures Pool.PoolInv(cfg.pool, AttemptWrite(s, i, tx).process.value)
  {
    Pool.WorkerMoveKeepsInv(cfg.pool, s.process.value, i, AfterWrite(s.tables, s.process.value.workers[i], tx).1);
  }

  lemma PauseKeepsPool(cfg: Settings, s: State, i: nat)
    requires HasWorker(s, i) && s.process.value.workers[i].Pausing? && Pool.PoolInv(cfg.pool, s.process.value)
    ensures Pool.PoolInv(cfg.pool, SendPause(s, i).process.value)
  {
    var w := s.process.value.workers[i];
    Pool.PauseOfferKeepsInv(cfg.pool, s.process.value, w.delay);
    Pool.WorkerMoveKeepsInv(cfg.pool, Pool.PauseOffered(s.process.value, w.delay), i, Pool.Requeueing(w.task));
  }

  lemma WorkerOfferKeepsPool(cfg: Settings, s: State, i: nat, direct: bool)
    requires HasWorker(s, i) && s.process.value.workers[i].Requeueing?
    requires direct ==> Pool.CanOfferDirectly(s.process.value)
    requires Pool.PoolInv(cfg.pool, s.process.value)
    ensures var s' := OfferFromWorker(cfg, s, i, direct);
            Up(s') ==> Pool.PoolInv(cfg.pool, s'.process.value)
  {
    var m := s.process.value;
    if !m.stop.linkClosed {
      Pool.WorkerMoveKeepsInv(cfg.pool, m, i, Pool.Idle);
      Pool.OfferKeepsInv(cfg.pool, Pool.WorkerMoves(m, i, Pool.Idle), m.workers[i].task, direct);
    }
  }

  // ------------------------------------------------------ one event keeps it: calls

  lemma FitsLater(t: Tables, t': Tables, c: Call)
    requires CallFits(t.orders, c) && B.Extends(t, t')
    ensures CallFits(t'.orders, c)
  {
  }

  lemma MovedCallFits(s: State, c: nat, phase: Phase, tables: Tables)
    requires CallsFit(s) && OneWinner(s.calls) && c < |s.calls|
    requires B.Extends(s.tables, tables)
    requires CallFits(tables.orders, s.calls[c].(phase := phase))
    requires Won(s.calls[c].(phase := phase)) ==> Won(s.calls[c]) || s.calls[c].order.id !in s.tables.orders
    ensures var s' := CallMoves(s, c, phase).(tables := tables); CallsFit(s') && OneWinner(s'.calls)
  {
    var s' := CallMoves(s, c, phase).(tables := tables);
    forall d | 0 <= d < |s'.calls|
      ensures CallFits(s'.tables.orders, s'.calls[d])
    {
      if d != c { FitsLater(s.tables, tables, s.calls[d]); }
    }
    forall d | 0 <= d < |s.calls| && d != c && Won(s'.calls[c]) && Won(s'.calls[d])
      ensures s'.calls[d].order.id != s'.calls[c].order.id
    {
      assert CallFits(s.tables.orders, s.calls[d]);
    }
  }

  lemma InsertKeepsCalls(cfg: Settings, s: State, c: nat, tx: TxAttempt)
    requires CallsFit(s) && OneWinner(s.calls) && RowsAdmitted(s.tables)
    requires HandsGood(s) && InPhase(s, c) && s.calls[c].phase.Inserting?
    requires B.Extends(s.tables, AttemptInsert(s, c, tx).tables)
    ensures var s' := AttemptInsert(s, c, tx); CallsFit(s') && OneWinner(s'.calls) && RowsAdmitted(s'.tables)
  {
    var call := s.calls[c];
    var (tables, phase) := AfterInsert(s.tables, call.order, call.phase.attempt, tx);
    assert CallFits(s.tables.orders, call);
    InsertFits(s.tables, call, tx);
    MovedCallFits(s, c, phase, tables);
  }

  lemma InsertFits(t: Tables, call: Call, tx: TxAttempt)
    requires call.phase.Inserting? && CallFits(t.orders, call)
    ensures var (t', phase) := AfterInsert(t, call.order, call.phase.attempt, tx);
            && CallFits(t'.orders, call.(phase := phase))
            && (Won(call.(phase := phase)) ==> call.order.id !in t.orders)
            && (t'.orders == t.orders || t'.orders == t.orders[call.order.id := call.order.(accrual := 0)])
  {
  }

  lemma CutCallsFit(s: State)
    requires CallsFit(s) && OneWinner(s.calls)
    ensures CallsFit(Crashed(s)) && OneWinner(Crashed(s).calls)
  {
    var s' := Crashed(s);
    forall c | 0 <= c < |s'.calls|
      ensures CallFits(s'.tables.orders, s'.calls[c])
      ensures Won(s'.calls[c]) ==> Won(s.calls[c])
      ensures s'.calls[c].order == s.calls[c].order
    {
      assert CallFits(s.tables.orders, s.calls[c]);
    }
  }

  lemma AllFitLater(s: State, s': State)
    requires CallsFit(s) && s'.calls == s.calls && B.Extends(s.tables, s'.tables)
    ensures CallsFit(s')
  {
    forall c | 0 <= c < |s'.calls|
      ensures CallFits(s'.tables.orders, s'.calls[c])
    {
      FitsLater(s.tables, s'.tables, s.calls[c]);
    }
  }

  lemma EventKeepsCalls(cfg: Settings, s: State, e: Event)
    requires CallsFit(s) && OneWinner(s.calls) && RowsAdmitted(s.tables)
    requires HandsGood(s) && Enabled(cfg, s, e) && B.Extends(s.tables, Apply(cfg, s, e).tables)
    requires e.WriteAttempted? ==> s.process.value.workers[e.worker].task.id in s.tables.orders
    ensures var s' := Apply(cfg, s, e); CallsFit(s') && OneWinner(s'.calls) && RowsAdmitted(s'.tables)
  {
    match e
    case InsertAttempted(c, tx) => InsertKeepsCalls(cfg, s, c, tx);
    case LookupAttempted(c, fails) => LookupKeepsCalls(cfg, s, c, fails);
    case CallOffers(c, direct) => CallOfferKeepsCalls(cfg, s, c, direct);
    case StoreBegins(id, user) => NewCallFits(s, id, user);
    case Replied(i, reply) => if !Up(Apply(cfg, s, e)) { CutCallsFit(s); }
    case WriteAttempted(i, tx) =>
      AllFitLater(s, Apply(cfg, s, e));
      WriteKeepsAdmitted(cfg, s, i, tx);
    case WorkerOffers(i, direct) =>
      if s.process.value.stop.linkClosed { CutCallsFit(s); }
    case Crashes => CutCallsFit(s);
    case _ =>
      OtherEventsKeepCallsAndRows(cfg, s, e);
      AllFitLater(s, Apply(cfg, s, e));
  }

  lemma LookupKeepsCalls(cfg: Settings, s: State, c: nat, fails: bool)
    requires CallsFit(s) && OneWinner(s.calls) && Enabled(cfg, s, LookupAttempted(c, fails))
    ensures var s' := Apply(cfg, s, LookupAttempted(c, fails)); CallsFit(s') && OneWinner(s'.calls)
    ensures Apply(cfg, s, LookupAttempted(c, fails)).tables == s.tables
  {
    assert CallFits(s.tables.orders, s.calls[c]);
    MovedCallFits(s, c, LookedUp(s.tables, s.calls[c].order, fails), s.tables);
  }

  lemma CallOfferKeepsCalls(cfg: Settings, s: State, c: nat, direct: bool)
    requires CallsFit(s) && OneWinner(s.calls) && InPhase(s, c) && s.calls[c].phase.Offering?
    requires direct ==> Pool.CanOfferDirectly(s.process.value)
    ensures var s' := OfferFromCall(cfg, s, c, direct);
            CallsFit(s') && OneWinner(s'.calls) && s'.tables == s.tables
  {
    assert CallFits(s.tables.orders, s.calls[c]);
    MovedCallFits(s, c, Answered(if s.process.value.stop.linkClosed then Broken else Accepted), s.tables);
  }

  lemma NewCallFits(s: State, id: string, user: string)
    requires CallsFit(s) && OneWinner(s.calls)
    ensures var s' := s.(calls := s.calls + [NewCall(id, user)]); CallsFit(s') && OneWinner(s'.calls)
  {
  }

  lemma OtherEventsKeepCallsAndRows(cfg: Settings, s: State, e: Event)
    requires Enabled(cfg, s, e)
    requires e.Register? || e.Withdraw? || e.InPool? || e.PauseSent? || e.Saves? || e.Boots?
    ensures Apply(cfg, s, e).calls == s.calls && Apply(cfg, s, e).tables.orders == s.tables.orders
  {
  }

  lemma WriteKeepsAdmitted(cfg: Settings, s: State, i: nat, tx: TxAttempt)
    requires RowsAdmitted(s.tables) && HandsGood(s) && HasWorker(s, i) && s.process.value.workers[i].Writing?
    requires s.process.value.workers[i].task.id in s.tables.orders
    ensures RowsAdmitted(AttemptWrite(s, i, tx).tables)
  {
    var w := s.process.value.workers[i];
    assert WorkerGood(w);
    WriteEnds(s.tables, w, tx);
    if UpdateOrderTx(s.tables, w.order).Done? {
      UpsertKeepsKeysAndOwners(s.tables, w.order);
    }
  }

  lemma UpsertKeepsKeysAndOwners(t: Tables, o: Order)
    requires o.id in t.orders && UpdateOrderTx(t, o).Done?
    ensures var orders := UpdateOrderTx(t, o).state.orders;
            orders.Keys == t.orders.Keys && forall id :: id in orders ==> orders[id].user == t.orders[id].user
  {
  }

  // ------------------------------------------------------------------ every event

  lemma WriterHoldsLiveTask(cfg: Settings, s: State, i: nat)
    requires B.Good(View(s)) && HasWorker(s, i) && s.process.value.workers[i].Writing?
    ensures s.process.value.workers[i].task.id in s.tables.orders
  {
    WorkerReplacesTask(s, i, Pool.Idle);
  }

  lemma EventKeepsInv(cfg: Settings, s: State, e: Event)
    requires SysInv(cfg, s) && Enabled(cfg, s, e)
    ensures SysInv(cfg, Apply(cfg, s, e)) && B.Extends(s.tables, Apply(cfg, s, e).tables)
  {
    EventRefines(cfg, s, e);
    B.StepKeepsGood(View(s), View(Apply(cfg, s, e)));
    EventKeepsHands(cfg, s, e);
    EventKeepsPool(cfg, s, e);
    if e.WriteAttempted? { WriterHoldsLiveTask(cfg, s, e.worker); }
    EventKeepsCalls(cfg, s, e);
  }

  lemma {:induction false} RunKeepsInv(cfg: Settings, s: State, events: seq<Event>, s': State)
    requires SysInv(cfg, s) && Reaches(cfg, s, events, s')
    ensures SysInv(cfg, s') && B.Extends(s.tables, s'.tables)
    decreases |events|
  {
    if events != [] {
      EventKeepsInv(cfg, s, events[0]);
      RunKeepsInv(cfg, Apply(cfg, s, events[0]), events[1..], s');
    }
  }
}
