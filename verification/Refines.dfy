/** Every event of the system is a step of the books: tables and live tasks, forgetting the
    places. What Books proves about its steps therefore holds of the system's runs. */
module Refines {
  import opened Orders
  import opened TxRetry
  import opened Ledger
  import opened Bags
  import opened DumpFile
  import opened System
  import Pool
  import B = Books

  /** A call holds a live task between its committed insert and its offer. */
  function CallHand(c: Call): multiset<Order> {
    if c.phase.Offering? then multiset{c.order} else multiset{}
  }

  ghost function InProcess(s: State): multiset<Order> {
    if Up(s) then Pool.Live(s.process.value) else multiset{}
  }

  /** All live tasks: in the dump file, in the callers' hands, in the process. */
  ghost function LiveTasks(s: State): multiset<Order> {
    multiset(s.file) + Gather(s.calls, CallHand) + InProcess(s)
  }

  ghost function View(s: State): B.Books {
    B.Books(s.tables, LiveTasks(s))
  }

  /** What the proof needs to know of the hands: callers hold fresh orders, and a worker
      writes its own task's order. */
  predicate HandsGood(s: State) {
    && (forall c :: 0 <= c < |s.calls| ==> s.calls[c].order.status == New && s.calls[c].order.accrual == 0)
    && (Up(s) ==> WorkersGood(s.process.value.workers))
  }

  predicate WorkersGood(workers: seq<Pool.Worker>) {
    forall i :: 0 <= i < |workers| ==> WorkerGood(workers[i])
  }

  predicate WorkerGood(w: Pool.Worker) {
    w.Writing? ==> w.order.id == w.task.id && w.order.user == w.task.user && w.attempt < RETRYING_ATTEMPTS
  }

  // ------------------------------------------------------------ arithmetic of the total

  lemma PartsShrink(f: multiset<Order>, c: multiset<Order>, p: multiset<Order>,
                    f': multiset<Order>, c': multiset<Order>, p': multiset<Order>)
    requires f' <= f && c' <= c && p' <= p
    ensures f' + c' + p' <= f + c + p
  {
  }

  lemma LastPartGrows(f: multiset<Order>, c: multiset<Order>, p: multiset<Order>, x: multiset<Order>)
    ensures f + c + (p + x) == (f + c + p) + x
    ensures f + (c + x) + p == (f + c + p) + x
    ensures (f + x) + c + p == (f + c + p) + x
  {
  }

  lemma LastPartChanges(rest: multiset<Order>, p: multiset<Order>, p': multiset<Order>,
                        x: multiset<Order>, y: multiset<Order>)
    requires x <= p && p' == p - x + y
    ensures x <= rest + p && rest + p' == rest + p - x + y
  {
  }

  /** A process that keeps or loses tasks, everything else unchanged. */
  lemma ProcessShrinks(s: State, s': State)
    requires s'.tables == s.tables && s'.file == s.file && s'.calls == s.calls
    requires InProcess(s') <= InProcess(s)
    ensures B.Moves(View(s), View(s'))
  {
    PartsShrink(multiset(s.file), Gather(s.calls, CallHand), InProcess(s),
                multiset(s'.file), Gather(s'.calls, CallHand), InProcess(s'));
  }

  // ----------------------------------------------------------------- uploads

  lemma CallMoveExchanges(s: State, c: nat, phase: Phase)
    requires c < |s.calls| && !s.calls[c].phase.Offering?
    ensures Gather(CallMoves(s, c, phase).calls, CallHand)
            == Gather(s.calls, CallHand) + CallHand(s.calls[c].(phase := phase))
  {
    GatherUpdate(s.calls, c, s.calls[c].(phase := phase), CallHand);
  }

  lemma QuietCallMove(s: State, c: nat, phase: Phase)
    requires c < |s.calls| && !s.calls[c].phase.Offering? && !phase.Offering?
    ensures LiveTasks(CallMoves(s, c, phase)) == LiveTasks(s)
  {
    CallMoveExchanges(s, c, phase);
  }

  lemma BeginRefines(cfg: Settings, s: State, id: string, user: string)
    ensures B.Moves(View(s), View(s.(calls := s.calls + [NewCall(id, user)])))
  {
    GatherAppend(s.calls, NewCall(id, user), CallHand);
    assert CallHand(NewCall(id, user)) == multiset{};
  }

  lemma InsertRefines(cfg: Settings, s: State, c: nat, tx: TxAttempt)
    requires HandsGood(s) && InPhase(s, c) && s.calls[c].phase.Inserting?
    ensures B.Step(View(s), View(AttemptInsert(s, c, tx)))
  {
    var call := s.calls[c];
    var (tables, phase) := AfterInsert(s.tables, call.order, call.phase.attempt, tx);
    InsertEnds(s.tables, call.order, call.phase.attempt, tx);
    CallMoveGrows(s, c, phase);
    InsertStep(View(s), View(AttemptInsert(s, c, tx)), call.order, phase);
  }

  lemma InsertStep(b: B.Books, b': B.Books, o: Order, phase: Phase)
    requires o.status == New && o.accrual == 0
    requires (b'.tables == b.tables && !phase.Offering?) || AddOrderTx(b.tables, o) == Done(b'.tables)
    requires b'.live == b.live + if phase.Offering? then multiset{o} else multiset{}
    ensures B.Step(b, b')
  {
    if b'.tables == b.tables && !phase.Offering? {
      assert B.Moves(b, b');
    } else {
      assert B.Uploads(b, b', o);
    }
  }

  lemma InsertEnds(t: Tables, o: Order, attempt: nat, tx: TxAttempt)
    ensures var (t', phase) := AfterInsert(t, o, attempt, tx);
            (t' == t && !phase.Offering?) || AddOrderTx(t, o) == Done(t')
  {
  }

  lemma CallMoveGrows(s: State, c: nat, phase: Phase)
    requires c < |s.calls| && !s.calls[c].phase.Offering?
    ensures var hand := CallHand(s.calls[c].(phase := phase));
            && LiveTasks(CallMoves(s, c, phase)) == LiveTasks(s) + hand
            && (phase.Offering? ==> hand == multiset{s.calls[c].order})
            && (!phase.Offering? ==> hand == multiset{})
  {
    CallMoveExchanges(s, c, phase);
    LastPartGrows(multiset(s.file), Gather(s.calls, CallHand), InProcess(s), CallHand(s.calls[c].(phase := phase)));
  }

  /** An upload whose send meets the closed channel loses its task. */
  lemma ClosedOfferRefines(cfg: Settings, s: State, c: nat, direct: bool)
    requires InPhase(s, c) && s.calls[c].phase.Offering? && (direct ==> Pool.CanOfferDirectly(s.process.value))
    requires s.process.value.stop.linkClosed
    ensures B.Moves(View(s), View(OfferFromCall(cfg, s, c, direct)))
  {
    var s' := OfferFromCall(cfg, s, c, direct);
    GatherUpdate(s.calls, c, s.calls[c].(phase := Answered(Broken)), CallHand);
    OfferedFromCall(multiset(s.file), Gather(s.calls, CallHand), InProcess(s), InProcess(s'), CallHand(s.calls[c]));
  }

  lemma CallOfferRefines(cfg: Settings, s: State, c: nat, direct: bool)
    requires InPhase(s, c) && s.calls[c].phase.Offering? && (direct ==> Pool.CanOfferDirectly(s.process.value))
    requires !s.process.value.stop.linkClosed
    ensures B.Moves(View(s), View(OfferFromCall(cfg, s, c, direct)))
  {
    var o := s.calls[c].order;
    var s' := OfferFromCall(cfg, s, c, direct);
    GatherUpdate(s.calls, c, s.calls[c].(phase := Answered(Accepted)), CallHand);
    Pool.OfferMovesTask(cfg.pool, s.process.value, o, direct);
    OfferedFromCall(multiset(s.file), Gather(s.calls, CallHand), InProcess(s), InProcess(s'), multiset{o});
  }

  lemma OfferedFromCall(f: multiset<Order>, c: multiset<Order>, p: multiset<Order>, p': multiset<Order>,
                        x: multiset<Order>)
    requires x <= c && p' <= p + x
    ensures f + (c - x + multiset{}) + p' <= f + c + p
  {
  }

  // ----------------------------------------------------------------- workers

  lemma WorkerMoveRefines(s: State, i: nat, w: Pool.Worker)
    requires HasWorker(s, i)
    requires Pool.WorkerHand(w) <= Pool.WorkerHand(s.process.value.workers[i])
    ensures B.Moves(View(s), View(WorkerMoves(s, i, w)))
  {
    var m := s.process.value;
    Pool.WorkerMoveExchangesHands(m, i, w);
    Exchanged(Pool.Live(m), Pool.WorkerHand(m.workers[i]), Pool.WorkerHand(w));
    ProcessShrinks(s, WorkerMoves(s, i, w));
  }

  lemma Exchanged(all: multiset<Order>, x: multiset<Order>, y: multiset<Order>)
    requires x <= all && y <= x
    ensures all - x + y <= all
  {
  }

  lemma ReactRefines(cfg: Settings, s: State, i: nat, reply: Reply)
    requires HasWorker(s, i) && s.process.value.workers[i].Asking?
    ensures B.Moves(View(s), View(React(cfg, s, i, reply)))
  {
    var task := s.process.value.workers[i].task;
    var plan := Decide(cfg.skipRepeats, task, reply);
    FollowingKeepsTheTask(task, plan);
    if plan.Crash? { CrashRefines(s); } else { WorkerMoveRefines(s, i, Follow(task, plan)); }
  }

  lemma FollowingKeepsTheTask(task: Order, plan: Plan)
    ensures Pool.WorkerHand(Follow(task, plan)) <= multiset{task}
  {
  }

  lemma PauseRefines(cfg: Settings, s: State, i: nat)
    requires HasWorker(s, i) && s.process.value.workers[i].Pausing?
    ensures B.Moves(View(s), View(SendPause(s, i)))
  {
    var w := s.process.value.workers[i];
    var m := Pool.PauseOffered(s.process.value, w.delay);
    Pool.PauseOfferMovesNothing(s.process.value, w.delay);
    assert InProcess(SendPause(s, i)) <= InProcess(s) by {
      Pool.WorkerMoveExchangesHands(m, i, Pool.Requeueing(w.task));
      Exchanged(Pool.Live(m), multiset{w.task}, multiset{w.task});
    }
    ProcessShrinks(s, SendPause(s, i));
  }

  lemma WorkerOfferRefines(cfg: Settings, s: State, i: nat, direct: bool)
    requires HasWorker(s, i) && s.process.value.workers[i].Requeueing?
    requires direct ==> Pool.CanOfferDirectly(s.process.value)
    requires !s.process.value.stop.linkClosed
    ensures B.Moves(View(s), View(OfferFromWorker(cfg, s, i, direct)))
  {
    var m := s.process.value;
    var task := m.workers[i].task;
    Pool.WorkerMoveExchangesHands(m, i, Pool.Idle);
    Pool.OfferMovesTask(cfg.pool, Pool.WorkerMoves(m, i, Pool.Idle), task, direct);
    Returned(Pool.Live(m), multiset{task}, Pool.Live(OfferFromWorker(cfg, s, i, direct).process.value));
    ProcessShrinks(s, OfferFromWorker(cfg, s, i, direct));
  }

  lemma Returned(all: multiset<Order>, x: multiset<Order>, all': multiset<Order>)
    requires x <= all && all' <= (all - x + multiset{}) + x
    ensures all' <= all
  {
  }

  lemma WriteRefines(cfg: Settings, s: State, i: nat, tx: TxAttempt)
    requires HandsGood(s) && HasWorker(s, i) && s.process.value.workers[i].Writing?
    ensures B.Step(View(s), View(AttemptWrite(s, i, tx)))
  {
    var w := s.process.value.workers[i];
    var (tables, w') := AfterWrite(s.tables, w, tx);
    WriteEnds(s.tables, w, tx);
    if tables == s.tables && Pool.WorkerHand(w') <= Pool.WorkerHand(w) {
      WorkerMoveRefines(s, i, w');
      assert B.Moves(View(s), View(AttemptWrite(s, i, tx)));
    } else {
      WorkerReplacesTask(s, i, w');
      assert WorkerGood(w);
      assert B.Updates(View(s), View(AttemptWrite(s, i, tx)), w.task, w.order);
    }
  }

  /** An attempt either changes nothing but the attempt count or the task's fate, or applies
      the update; only an applied PROCESSING leaves a task. */
  lemma WriteEnds(t: Tables, w: Pool.Worker, tx: TxAttempt)
    requires w.Writing?
    ensures var (t', w') := AfterWrite(t, w, tx);
            || (t' == t && Pool.WorkerHand(w') <= Pool.WorkerHand(w))
            || (&& UpdateOrderTx(t, w.order) == Done(t')
                && Pool.WorkerHand(w') <= if w.order.status == Processing then multiset{w.order} else multiset{})
  {
  }

  lemma WorkerReplacesTask(s: State, i: nat, w: Pool.Worker)
    requires HasWorker(s, i) && !s.process.value.workers[i].Idle? && !s.process.value.workers[i].WorkerDone?
    ensures var task := s.process.value.workers[i].task;
            && task in LiveTasks(s)
            && LiveTasks(WorkerMoves(s, i, w)) == LiveTasks(s) - multiset{task} + Pool.WorkerHand(w)
  {
    var m := s.process.value;
    var x := multiset{m.workers[i].task};
    Pool.WorkerMoveExchangesHands(m, i, w);
    LastPartChanges(multiset(s.file) + Gather(s.calls, CallHand), Pool.Live(m),
                    Pool.Live(Pool.WorkerMoves(m, i, w)), x, Pool.WorkerHand(w));
  }

  // ------------------------------------------------------- dump, crash and restart

  lemma SaveRefines(cfg: Settings, s: State, save: SaveOutcome)
    requires Up(s) && s.process.value.dispatcher.Saving?
    ensures B.Moves(View(s), View(SaveDump(s, save)))
  {
    var s' := SaveDump(s, save);
    var m := s.process.value;
    var orders := m.dispatcher.orders;
    var listed := multiset(orders);
    var elsewhere := InProcess(s');
    assert InProcess(s) == elsewhere + listed by {
      ListSetApart(Pool.Inbound(m.linkCh, m.reader), listed, multiset(m.workerCh), Gather(m.workers, Pool.WorkerHand));
    }
    match save
    case Saved => FileReplaced(multiset(s.file), listed, Gather(s.calls, CallHand), elsewhere, listed);
    case OpenFails => PartsShrink(multiset(s.file), Gather(s.calls, CallHand), InProcess(s),
                                  multiset(s.file), Gather(s.calls, CallHand), elsewhere);
    case CutAfter(n) =>
      PrefixIsPart(orders, if n < |orders| then n else |orders|);
      assert orders[..|orders|] == orders;
      FileReplaced(multiset(s.file), multiset(s'.file), Gather(s.calls, CallHand), elsewhere, listed);
  }

  lemma ListSetApart(a: multiset<Order>, x: multiset<Order>, c: multiset<Order>, d: multiset<Order>)
    ensures a + x + c + d == (a + multiset{} + c + d) + x
  {
    InFourParts(a, multiset{}, c, d, x);
    assert multiset{} + x == x;
  }

  lemma PrefixIsPart(xs: seq<Order>, n: nat)
    requires n <= |xs|
    ensures multiset(xs[..n]) <= multiset(xs)
  {
    assert xs == xs[..n] + xs[n..];
  }

  lemma FileReplaced(f: multiset<Order>, f': multiset<Order>, c: multiset<Order>, p: multiset<Order>,
                     x: multiset<Order>)
    requires f' <= x
    ensures f' + c + p <= f + c + (p + x)
  {
  }

  lemma CrashRefines(s: State)
    ensures B.Moves(View(s), View(Crashed(s)))
  {
    var s' := Crashed(s);
    GatherNothing(s'.calls, CallHand);
    PartsShrink(multiset(s.file), Gather(s.calls, CallHand), InProcess(s),
                multiset(s'.file), Gather(s'.calls, CallHand), InProcess(s'));
  }

  lemma BootRefines(cfg: Settings, s: State, boot: BootOutcome)
    requires !Up(s)
    ensures B.Moves(View(s), View(Booted(cfg, s, boot)))
  {
    var (file, restored) := AfterRestore(s.file, boot);
    Pool.StartedHolds(cfg.pool, restored);
    FileShared(multiset(s.file), multiset(file), Gather(s.calls, CallHand), multiset(restored));
  }

  lemma FileShared(f: multiset<Order>, f': multiset<Order>, c: multiset<Order>, p: multiset<Order>)
    requires f' + p <= f
    ensures f' + c + p <= f + c + multiset{}
  {
  }

  // ------------------------------------------------------------------ all events

  lemma CallEventRefines(cfg: Settings, s: State, e: Event)
    requires HandsGood(s) && Enabled(cfg, s, e)
    requires e.StoreBegins? || e.InsertAttempted? || e.LookupAttempted? || e.CallOffers?
    ensures B.Step(View(s), View(Apply(cfg, s, e)))
  {
    match e
    case StoreBegins(id, user) => BeginRefines(cfg, s, id, user);
    case InsertAttempted(c, tx) => InsertRefines(cfg, s, c, tx);
    case LookupAttempted(c, fails) => QuietCallMove(s, c, LookedUp(s.tables, s.calls[c].order, fails));
    case CallOffers(c, direct) =>
      if s.process.value.stop.linkClosed {
        ClosedOfferRefines(cfg, s, c, direct);
      } else {
        CallOfferRefines(cfg, s, c, direct);
      }
  }

  lemma EventRefines(cfg: Settings, s: State, e: Event)
    requires HandsGood(s) && Enabled(cfg, s, e)
    ensures B.Step(View(s), View(Apply(cfg, s, e)))
  {
    match e
    case Register(user) => assert B.Joins(View(s), View(Apply(cfg, s, e)), user);
    case Withdraw(w) => assert B.Withdraws(View(s), View(Apply(cfg, s, e)), w);
    case InPool(pe) =>
      Pool.PoolStepMovesTasks(cfg.pool, s.process.value, pe);
      ProcessShrinks(s, Apply(cfg, s, e));
    case Replied(i, reply) => ReactRefines(cfg, s, i, reply);
    case PauseSent(i) => PauseRefines(cfg, s, i);
    case WriteAttempted(i, tx) => WriteRefines(cfg, s, i, tx);
    case WorkerOffers(i, direct) =>
      if s.process.value.stop.linkClosed { CrashRefines(s); } else { WorkerOfferRefines(cfg, s, i, direct); }
    case Saves(save) => SaveRefines(cfg, s, save);
    case Crashes => CrashRefines(s);
    case Boots(boot) => BootRefines(cfg, s, boot);
    case _ => CallEventRefines(cfg, s, e);
  }
}
