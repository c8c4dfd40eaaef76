/** The skipped write (internal/services/order_service.go): when the accrual system repeats
    PROCESSING, the worker requeues the task without writing the row again. The service with
    the shortcut and the simple service that writes every answer are compared run by run. */
module Shortcut {
  import opened Digits
  import opened Orders
  import opened TxRetry
  import opened Ledger
  import opened DumpFile
  import opened System
  import opened Refines
  import opened Safety
  import Money
  import Pool
  import B = Books

  function Fast(pool: Pool.Config): Settings {
    Settings(pool, true)
  }

  function Simple(pool: Pool.Config): Settings {
    Settings(pool, false)
  }

  /** A repeated PROCESSING carries no accrual, or the one its task already has. */
  predicate Plain(s: State, e: Event) {
    IsRepeat(s, e) ==>
      || e.reply.accrual == ""
      || Money.ParseAccrual(e.reply.accrual) == Money.Amount(s.process.value.workers[e.worker].task.accrual)
  }

  predicate IsRepeat(s: State, e: Event) {
    && e.Replied? && HasWorker(s, e.worker) && s.process.value.workers[e.worker].Asking?
    && Repeats(s.process.value.workers[e.worker].task, e.reply)
  }

  ghost predicate PlainRun(cfg: Settings, s: State, events: seq<Event>)
    decreases |events|
  {
    events == [] ||
    (Plain(s, events[0]) && Enabled(cfg, s, events[0]) && PlainRun(cfg, Apply(cfg, s, events[0]), events[1..]))
  }

  // ---------------------------------------------------- the shortcut skips nothing

  /** Writing back the row a live PROCESSING task mirrors changes no table. */
  lemma WritingBackIsNoOp(t: Tables, task: Order)
    requires task.id in t.orders && t.orders[task.id] == task && task.status == Processing
    ensures UpdateOrderTx(t, task) == Done(t)
  {
    assert UpsertOrder(t.orders, task) == t.orders;
  }

  lemma AskingTaskMirrorsRow(s: State, i: nat)
    requires B.Good(View(s)) && HasWorker(s, i) && s.process.value.workers[i].Asking?
    ensures var task := s.process.value.workers[i].task;
            task.id in s.tables.orders && s.tables.orders[task.id] == task
  {
    WorkerReplacesTask(s, i, Pool.Idle);
  }

  lemma TwoMovesOfOneWorker(s: State, i: nat, w1: Pool.Worker, w2: Pool.Worker)
    requires HasWorker(s, i)
    ensures WorkerMoves(WorkerMoves(s, i, w1), i, w2) == WorkerMoves(s, i, w2)
  {
    var workers := s.process.value.workers;
    assert workers[i := w1][i := w2] == workers[i := w2];
  }

  lemma OtherEventsAgree(pool: Pool.Config, s: State, e: Event)
    requires Enabled(Fast(pool), s, e) && !IsRepeat(s, e)
    ensures Enabled(Simple(pool), s, e) && Apply(Simple(pool), s, e) == Apply(Fast(pool), s, e)
  {
    if e.Replied? {
      DecisionsAgree(s.process.value.workers[e.worker].task, e.reply);
    }
  }

  lemma DecisionsAgree(task: Order, reply: Reply)
    requires !Repeats(task, reply)
    ensures Decide(true, task, reply) == Decide(false, task, reply)
  {
  }

  /** What the simple service does with a repeated PROCESSING: a write, then the requeue. */
  lemma RepeatInSimple(pool: Pool.Config, s: State, e: Event)
    requires Enabled(Simple(pool), s, e) && IsRepeat(s, e) && Plain(s, e)
    ensures var task := s.process.value.workers[e.worker].task;
            Apply(Simple(pool), s, e) == WorkerMoves(s, e.worker, Pool.Writing(task, task, 0))
  {
    ShortcutSkipsANoOpWrite(s.process.value.workers[e.worker].task, e.reply);
  }

  lemma RepeatInFast(pool: Pool.Config, s: State, e: Event)
    requires Enabled(Fast(pool), s, e) && IsRepeat(s, e)
    ensures var task := s.process.value.workers[e.worker].task;
            Apply(Fast(pool), s, e) == WorkerMoves(s, e.worker, Pool.Requeueing(task))
  {
    ShortcutSkipsANoOpWrite(s.process.value.workers[e.worker].task, e.reply);
  }

  lemma WriteOfUnchangedTask(cfg: Settings, s: State, i: nat, task: Order)
    requires HasWorker(s, i) && s.process.value.workers[i] == Pool.Writing(task, task, 0)
    requires task.id in s.tables.orders && s.tables.orders[task.id] == task && task.status == Processing
    ensures Apply(cfg, s, WriteAttempted(i, Completes(Committed))) == WorkerMoves(s, i, Pool.Requeueing(task))
  {
    WritingBackIsNoOp(s.tables, task);
  }

  lemma OneStep(cfg: Settings, s: State, e: Event)
    requires Enabled(cfg, s, e)
    ensures Reaches(cfg, s, [e], Apply(cfg, s, e))
  {
    assert [e][1..] == [];
  }

  /** Each event of the fast service is one or two events of the simple one, to the same state. */
  lemma FastStepInSimple(pool: Pool.Config, s: State, e: Event) returns (steps: seq<Event>)
    requires SysInv(Fast(pool), s) && Enabled(Fast(pool), s, e) && Plain(s, e)
    ensures Reaches(Simple(pool), s, steps, Apply(Fast(pool), s, e))
  {
    if IsRepeat(s, e) {
      steps := RepeatStepInSimple(pool, s, e);
    } else {
      steps := [e];
      OtherEventsAgree(pool, s, e);
      OneStep(Simple(pool), s, e);
    }
  }

  lemma RepeatStepInSimple(pool: Pool.Config, s: State, e: Event) returns (steps: seq<Event>)
    requires B.Good(View(s)) && Enabled(Fast(pool), s, e) && IsRepeat(s, e) && Plain(s, e)
    ensures Reaches(Simple(pool), s, steps, Apply(Fast(pool), s, e))
  {
    var i, task := e.worker, s.process.value.workers[e.worker].task;
    var s1 := WorkerMoves(s, i, Pool.Writing(task, task, 0));
    var write := WriteAttempted(i, Completes(Committed));
    assert Apply(Simple(pool), s, e) == s1 by { RepeatInSimple(pool, s, e); }
    AskingTaskMirrorsRow(s, i);
    assert Apply(Simple(pool), s1, write) == Apply(Fast(pool), s, e) by {
      WriteOfUnchangedTask(Simple(pool), s1, i, task);
      TwoMovesOfOneWorker(s, i, Pool.Writing(task, task, 0), Pool.Requeueing(task));
      RepeatInFast(pool, s, e);
    }
    OneStep(Simple(pool), s, e);
    OneStep(Simple(pool), s1, write);
    ReachesJoins(Simple(pool), s, [e], s1, [write], Apply(Fast(pool), s, e));
    steps := [e] + [write];
  }

  /** Every run of the fast service whose repeated PROCESSING replies are plain is a run of the
      simple service to the very same state: tables, balances, queues, hands. */
  lemma {:induction false} FastRefinesSimple(pool: Pool.Config, s: State, events: seq<Event>, s': State)
    returns (steps: seq<Event>)
    requires SysInv(Fast(pool), s)
    requires Reaches(Fast(pool), s, events, s') && PlainRun(Fast(pool), s, events)
    ensures Reaches(Simple(pool), s, steps, s')
    decreases |events|
  {
    if events == [] {
      steps := [];
    } else {
      var s1 := Apply(Fast(pool), s, events[0]);
      EventKeepsInv(Fast(pool), s, events[0]);
      var first := FastStepInSimple(pool, s, events[0]);
      var rest := FastRefinesSimple(pool, s1, events[1..], s');
      ReachesJoins(Simple(pool), s, first, s1, rest, s');
      steps := first + rest;
    }
  }

  // ---------------------------------------- the simple service does nothing more

  /** The simple service in the middle of writing a task back unchanged is, for the fast
      service, still at the question. Nothing else of the state differs. */
  function FoldWorker(w: Pool.Worker): Pool.Worker {
    if w.Writing? && w.order == w.task && w.task.status == Processing then Pool.Asking(w.task) else w
  }

  function FoldAll(workers: seq<Pool.Worker>): seq<Pool.Worker> {
    seq(|workers|, i requires 0 <= i < |workers| => FoldWorker(workers[i]))
  }

  function FoldMemory(m: Pool.Memory): Pool.Memory {
    m.(workers := FoldAll(m.workers))
  }

  function Fold(s: State): State {
    if Up(s) then s.(process := Some(FoldMemory(s.process.value))) else s
  }

  lemma FoldUpdate(workers: seq<Pool.Worker>, i: nat, w: Pool.Worker)
    requires i < |workers|
    ensures FoldAll(workers[i := w]) == FoldAll(workers)[i := FoldWorker(w)]
  {
  }

  lemma FoldMoves(s: State, i: nat, w: Pool.Worker)
    requires HasWorker(s, i)
    ensures Fold(WorkerMoves(s, i, w)) == WorkerMoves(Fold(s), i, FoldWorker(w))
  {
    FoldUpdate(s.process.value.workers, i, w);
  }

  lemma PoolStepFolds(pool: Pool.Config, m: Pool.Memory, pe: Pool.Event)
    requires Pool.Enabled(pool, m, pe)
    ensures Pool.Enabled(pool, FoldMemory(m), pe)
    ensures FoldMemory(Pool.Next(pool, m, pe)) == Pool.Next(pool, FoldMemory(m), pe)
  {
    match pe
    case Works(i, w) => WorkerStepFolds(m, i, w);
    case Dispatches(d) => DispatcherStepFolds(pool, m, d);
    case Reads(r) => ReaderStepFolds(m, r);
    case _ =>
  }

  lemma WorkerStepFolds(m: Pool.Memory, i: nat, w: Pool.WorkerEvent)
    requires Pool.WorkerMay(m, i, w)
    ensures Pool.WorkerMay(FoldMemory(m), i, w)
    ensures FoldMemory(Pool.WorkerNext(m, i, w)) == Pool.WorkerNext(FoldMemory(m), i, w)
  {
    FoldUpdate(m.workers, i, if w == Pool.Takes then Pool.Asking(m.workerCh[0]) else Pool.WorkerDone);
  }

  lemma ReaderStepFolds(m: Pool.Memory, r: Pool.ReaderEvent)
    requires Pool.ReaderMay(m, r)
    ensures Pool.ReaderMay(FoldMemory(m), r)
    ensures FoldMemory(Pool.ReaderNext(m, r)) == Pool.ReaderNext(FoldMemory(m), r)
  {
  }

  lemma DispatcherStepFolds(pool: Pool.Config, m: Pool.Memory, d: Pool.DispatcherEvent)
    requires Pool.DispatcherMay(pool, m, d)
    ensures Pool.DispatcherMay(pool, FoldMemory(m), d)
    ensures FoldMemory(Pool.DispatcherNext(pool, m, d)) == Pool.DispatcherNext(pool, FoldMemory(m), d)
  {
    if d.Hands? {
      FoldUpdate(m.workers, d.worker, Pool.Asking(m.dispatcher.task));
    } else {
      Pool.OtherStepsKeepWorkers(pool, m, Pool.Dispatches(d));
      DispatcherIgnoresWorkers(pool, m, d, FoldAll(m.workers));
    }
  }

  lemma QuietIgnoresWorkers(pool: Pool.Config, m: Pool.Memory, d: Pool.DispatcherEvent, workers: seq<Pool.Worker>)
    requires Pool.DispatcherMay(pool, m, d) && Pool.Quiet(d)
    ensures var m' := m.(workers := workers);
            && Pool.DispatcherMay(pool, m', d)
            && Pool.DispatcherNext(pool, m', d) == Pool.DispatcherNext(pool, m, d).(workers := workers)
  {
  }

  lemma StackIgnoresWorkers(pool: Pool.Config, m: Pool.Memory, d: Pool.DispatcherEvent, workers: seq<Pool.Worker>)
    requires Pool.DispatcherMay(pool, m, d) && (d.Looks? || d.PushesBack?)
    ensures var m' := m.(workers := workers);
            && Pool.DispatcherMay(pool, m', d)
            && Pool.DispatcherNext(pool, m', d) == Pool.DispatcherNext(pool, m, d).(workers := workers)
  {
  }

  lemma DumpIgnoresWorkers(pool: Pool.Config, m: Pool.Memory, d: Pool.DispatcherEvent, workers: seq<Pool.Worker>)
    requires Pool.DispatcherMay(pool, m, d) && (d.Sends? || d.Snapshots? || d.Drains?)
    ensures var m' := m.(workers := workers);
            && Pool.DispatcherMay(pool, m', d)
            && Pool.DispatcherNext(pool, m', d) == Pool.DispatcherNext(pool, m, d).(workers := workers)
  {
  }

  lemma DispatcherIgnoresWorkers(pool: Pool.Config, m: Pool.Memory, d: Pool.DispatcherEvent, workers: seq<Pool.Worker>)
    requires Pool.DispatcherMay(pool, m, d) && !d.Hands?
    ensures var m' := m.(workers := workers);
            && Pool.DispatcherMay(pool, m', d)
            && Pool.DispatcherNext(pool, m', d) == Pool.DispatcherNext(pool, m, d).(workers := workers)
  {
    if Pool.Quiet(d) {
      QuietIgnoresWorkers(pool, m, d, workers);
    } else if d.Looks? || d.PushesBack? {
      StackIgnoresWorkers(pool, m, d, workers);
    } else {
      DumpIgnoresWorkers(pool, m, d, workers);
    }
  }

  /** An attempt to write back an unchanged task, seen by the fast service: nothing yet, a
      repeated PROCESSING, or a reply that failed. */
  lemma UnchangedWriteEnds(t: Tables, w: Pool.Worker, tx: TxAttempt)
    requires w.Writing? && w.order == w.task && w.task.status == Processing
    requires w.task.id in t.orders && t.orders[w.task.id] == w.task
    ensures var (t', w') := AfterWrite(t, w, tx);
            t' == t && (w' == w.(attempt := w.attempt + 1) || w' == Pool.Requeueing(w.task) || w' == Pool.Idle)
  {
    WritingBackIsNoOp(t, w.task);
  }

  lemma UnchangedWriteInFast(pool: Pool.Config, s: State, i: nat, tx: TxAttempt) returns (steps: seq<Event>)
    requires B.Good(View(s)) && Enabled(Simple(pool), s, WriteAttempted(i, tx))
    requires FoldWorker(s.process.value.workers[i]).Asking?
    ensures Reaches(Fast(pool), Fold(s), steps, Fold(AttemptWrite(s, i, tx)))
  {
    var w := s.process.value.workers[i];
    var w' := AfterWrite(s.tables, w, tx).1;
    UnchangedWriteFolds(pool, s, i, tx);
    if w'.Writing? {
      AskingStays(s, i, w.task);
      steps := [];
    } else {
      steps := AnsweredInFast(pool, Fold(s), i, w');
    }
  }

  lemma UnchangedWriteFolds(pool: Pool.Config, s: State, i: nat, tx: TxAttempt)
    requires B.Good(View(s)) && Enabled(Simple(pool), s, WriteAttempted(i, tx))
    requires FoldWorker(s.process.value.workers[i]).Asking?
    ensures var w := s.process.value.workers[i];
            var w' := AfterWrite(s.tables, w, tx).1;
            && Fold(AttemptWrite(s, i, tx)) == WorkerMoves(Fold(s), i, FoldWorker(w'))
            && (w'.Writing? || w' == Pool.Requeueing(w.task) || w' == Pool.Idle)
            && (w'.Writing? ==> FoldWorker(w') == Pool.Asking(w.task))
  {
    WorkerReplacesTask(s, i, Pool.Idle);
    UnchangedWriteEnds(s.tables, s.process.value.workers[i], tx);
    FoldMoves(s, i, AfterWrite(s.tables, s.process.value.workers[i], tx).1);
  }

  lemma AskingStays(s: State, i: nat, task: Order)
    requires HasWorker(s, i) && FoldWorker(s.process.value.workers[i]) == Pool.Asking(task)
    ensures WorkerMoves(Fold(s), i, Pool.Asking(task)) == Fold(s)
  {
    assert FoldAll(s.process.value.workers)[i := Pool.Asking(task)] == FoldAll(s.process.value.workers);
  }

  /** A reply that makes the fast service requeue or drop the task it asks about. */
  lemma AnsweredInFast(pool: Pool.Config, s: State, i: nat, w: Pool.Worker) returns (steps: seq<Event>)
    requires HasWorker(s, i) && s.process.value.workers[i].Asking?
    requires s.process.value.workers[i].task.status == Processing
    requires w == Pool.Requeueing(s.process.value.workers[i].task) || w == Pool.Idle
    ensures Reaches(Fast(pool), s, steps, WorkerMoves(s, i, w))
  {
    var reply := if w.Idle? then Failure else Answer(Known(Processing), "");
    var e := Replied(i, reply);
    if w.Requeueing? { RepeatInFast(pool, s, e); }
    assert Apply(Fast(pool), s, e) == WorkerMoves(s, i, w);
    OneStep(Fast(pool), s, e);
    steps := [e];
  }

  lemma ReplyFolds(pool: Pool.Config, s: State, i: nat, reply: Reply)
    requires Enabled(Simple(pool), s, Replied(i, reply)) && !IsRepeat(s, Replied(i, reply))
    ensures Enabled(Fast(pool), Fold(s), Replied(i, reply))
    ensures Fold(React(Simple(pool), s, i, reply)) == React(Fast(pool), Fold(s), i, reply)
  {
    var task := s.process.value.workers[i].task;
    var plan := Decide(false, task, reply);
    DecisionsAgree(task, reply);
    if !plan.Crash? {
      FoldMoves(s, i, Follow(task, plan));
      NewWritesAreNotFolded(task, reply);
    }
  }

  lemma NewWritesAreNotFolded(task: Order, reply: Reply)
    requires !Repeats(task, reply)
    ensures FoldWorker(Follow(task, Decide(false, task, reply))) == Follow(task, Decide(false, task, reply))
  {
    if Decide(false, task, reply).Write? {
      WrittenOrder(false, task, reply);
    }
  }

  lemma ChangedWriteFolds(pool: Pool.Config, s: State, i: nat, tx: TxAttempt)
    requires Enabled(Simple(pool), s, WriteAttempted(i, tx))
    requires FoldWorker(s.process.value.workers[i]) == s.process.value.workers[i]
    ensures Enabled(Fast(pool), Fold(s), WriteAttempted(i, tx))
    ensures Fold(AttemptWrite(s, i, tx)) == AttemptWrite(Fold(s), i, tx)
  {
    var w' := AfterWrite(s.tables, s.process.value.workers[i], tx).1;
    assert FoldWorker(w') == w';
    FoldMoves(s, i, w');
  }

  lemma PauseFolds(pool: Pool.Config, s: State, i: nat)
    requires Enabled(Simple(pool), s, PauseSent(i))
    ensures Fold(SendPause(s, i)) == SendPause(Fold(s), i)
  {
    FoldUpdate(s.process.value.workers, i, Pool.Requeueing(s.process.value.workers[i].task));
  }

  lemma WorkerOfferFolds(pool: Pool.Config, s: State, i: nat, direct: bool)
    requires Enabled(Simple(pool), s, WorkerOffers(i, direct))
    ensures Enabled(Fast(pool), Fold(s), WorkerOffers(i, direct))
    ensures Fold(OfferFromWorker(Simple(pool), s, i, direct)) == OfferFromWorker(Fast(pool), Fold(s), i, direct)
  {
    FoldUpdate(s.process.value.workers, i, Pool.Idle);
  }

  lemma BootFolds(pool: Pool.Config, s: State, boot: BootOutcome)
    requires !Up(s)
    ensures Fold(Booted(Simple(pool), s, boot)) == Booted(Fast(pool), s, boot)
  {
    var m := Booted(Fast(pool), s, boot).process.value;
    assert FoldAll(m.workers) == m.workers;
  }

  lemma OtherEventsFold(pool: Pool.Config, s: State, e: Event)
    requires Enabled(Simple(pool), s, e)
    requires !e.Replied? && !e.WriteAttempted?
    ensures Enabled(Fast(pool), Fold(s), e)
    ensures Fold(Apply(Simple(pool), s, e)) == Apply(Fast(pool), Fold(s), e)
  {
    match e
    case InPool(pe) => PoolStepFolds(pool, s.process.value, pe);
    case PauseSent(i) => PauseFolds(pool, s, i);
    case WorkerOffers(i, direct) => WorkerOfferFolds(pool, s, i, direct);
    case Boots(boot) => BootFolds(pool, s, boot);
    case _ =>
  }

  lemma RepeatFolds(pool: Pool.Config, s: State, e: Event)
    requires Enabled(Simple(pool), s, e) && IsRepeat(s, e) && Plain(s, e)
    ensures Fold(Apply(Simple(pool), s, e)) == Fold(s)
  {
    var task := s.process.value.workers[e.worker].task;
    RepeatInSimple(pool, s, e);
    FoldMoves(s, e.worker, Pool.Writing(task, task, 0));
    AskingStays(s, e.worker, task);
  }

  /** Each event of the simple service is no event or one event of the fast one. */
  lemma SimpleStepInFast(pool: Pool.Config, s: State, e: Event) returns (steps: seq<Event>)
    requires SysInv(Simple(pool), s) && Enabled(Simple(pool), s, e) && Plain(s, e)
    ensures Reaches(Fast(pool), Fold(s), steps, Fold(Apply(Simple(pool), s, e)))
  {
    if IsRepeat(s, e) {
      RepeatFolds(pool, s, e);
      steps := [];
    } else if e.WriteAttempted? && FoldWorker(s.process.value.workers[e.worker]).Asking? {
      steps := UnchangedWriteInFast(pool, s, e.worker, e.tx);
    } else {
      if e.WriteAttempted? {
        ChangedWriteFolds(pool, s, e.worker, e.tx);
      } else if e.Replied? {
        ReplyFolds(pool, s, e.worker, e.reply);
      } else {
        OtherEventsFold(pool, s, e);
      }
      steps := [e];
      OneStep(Fast(pool), Fold(s), e);
    }
  }

  /** Every run of the simple service with plain repeats is, up to a worker caught in the
      middle of a pointless write, a run of the fast service: the same tables, balances,
      calls, queues and dump file. */
  lemma {:induction false} SimpleRefinesFast(pool: Pool.Config, s: State, events: seq<Event>, s': State)
    returns (steps: seq<Event>)
    requires SysInv(Simple(pool), s)
    requires Reaches(Simple(pool), s, events, s') && PlainRun(Simple(pool), s, events)
    ensures Reaches(Fast(pool), Fold(s), steps, Fold(s'))
    ensures Fold(s').tables == s'.tables && Fold(s').calls == s'.calls && Fold(s').file == s'.file
    ensures Up(s') ==> Fold(s').process.value == s'.process.value.(workers := FoldAll(s'.process.value.workers))
    decreases |events|
  {
    if events == [] {
      steps := [];
    } else {
      var s1 := Apply(Simple(pool), s, events[0]);
      EventKeepsInv(Simple(pool), s, events[0]);
      var first := SimpleStepInFast(pool, s, events[0]);
      var rest := SimpleRefinesFast(pool, s1, events[1..], s');
      ReachesJoins(Fast(pool), Fold(s), first, Fold(s1), rest, Fold(s'));
      steps := first + rest;
    }
  }

  // ------------------------------------------------------- what the shortcut does lose

  /** What the worker of the simple service does next with its task on a repeat. */
  function AfterRepeat(task: Order, accrual: string): Option<Pool.Worker> {
    if accrual == "" then Some(Pool.Writing(task, task, 0))
    else
      match Money.ParseAccrual(accrual)
      case Amount(kopecks) => Some(Pool.Writing(task, task.(accrual := kopecks), 0))
      case Malformed => Some(Pool.Idle)
      case Panics => None
  }

  /** On a repeat the fast service requeues its task unwritten; the simple one sets out to
      write it, drops it if the accrual is malformed, and panics on an empty fraction (a text that JSON
      does not allow; the model takes any). */
  lemma RepeatInBoth(pool: Pool.Config, s: State, e: Event)
    requires IsRepeat(s, e)
    ensures var task := s.process.value.workers[e.worker].task;
            var next := AfterRepeat(task, e.reply.accrual);
            && React(Fast(pool), s, e.worker, e.reply) == WorkerMoves(s, e.worker, Pool.Requeueing(task))
            && React(Simple(pool), s, e.worker, e.reply)
               == if next.Some? then WorkerMoves(s, e.worker, next.value) else Crashed(s)
  {
    var task := s.process.value.workers[e.worker].task;
    ShortcutSkipsANoOpWrite(task, e.reply);
    assert task.(status := Processing) == task;
  }

  /** The simple service's reaction to a reply, and its committed write if it comes to one. */
  function ReplyAndWrite(pool: Pool.Config, s: State, e: Event): Option<State>
    requires IsRepeat(s, e)
  {
    WriteOf(React(Simple(pool), s, e.worker, e.reply), e.worker)
  }

  function WriteOf(s: State, i: nat): Option<State> {
    if HasWorker(s, i) && s.process.value.workers[i].Writing? then Some(AttemptWrite(s, i, Completes(Committed)))
    else None
  }

  /** The state after a committed write of `order` by worker `i`, which then requeues it. */
  function Written(s: State, i: nat, order: Order): State
    requires HasWorker(s, i)
  {
    WorkerMoves(s, i, Pool.Requeueing(order)).(tables := s.tables.(orders := s.tables.orders[order.id := order]))
  }

  lemma WriteOfRepeat(s: State, i: nat, task: Order, order: Order)
    requires HasWorker(s, i) && s.process.value.workers[i] == Pool.Asking(task)
    requires task.status == Processing && order == task.(accrual := order.accrual)
    requires task.id in s.tables.orders && s.tables.orders[task.id] == task
    ensures var s1 := WorkerMoves(s, i, Pool.Writing(task, order, 0));
            WriteOf(s1, i) == Some(Written(s, i, order))
  {
    TwoMovesOfOneWorker(s, i, Pool.Writing(task, order, 0), Pool.Requeueing(order));
    assert UpsertOrder(s.tables.orders, order) == s.tables.orders[task.id := order];
  }

  /** The write changes something exactly when the accrual is another one. */
  lemma WrittenIsRequeued(s: State, i: nat, task: Order, order: Order)
    requires HasWorker(s, i) && order.id == task.id
    requires task.id in s.tables.orders && s.tables.orders[task.id] == task
    ensures Written(s, i, order) == WorkerMoves(s, i, Pool.Requeueing(task)) <==> order == task
  {
    if order == task {
      assert s.tables.orders[task.id := order] == s.tables.orders;
    } else {
      assert Written(s, i, order).tables.orders[task.id] == order;
      assert WorkerMoves(s, i, Pool.Requeueing(task)).tables == s.tables;
    }
  }

  lemma ReplyAndWriteOfRepeat(pool: Pool.Config, s: State, e: Event)
    requires IsRepeat(s, e)
    requires var task := s.process.value.workers[e.worker].task;
             task.id in s.tables.orders && s.tables.orders[task.id] == task
    ensures ReplyAndWrite(pool, s, e)
            == match AfterRepeat(s.process.value.workers[e.worker].task, e.reply.accrual)
               case Some(Writing(_, order, _)) => Some(Written(s, e.worker, order))
               case _ => None
  {
    var i, task := e.worker, s.process.value.workers[e.worker].task;
    RepeatInBoth(pool, s, e);
    var next := AfterRepeat(task, e.reply.accrual);
    if next.Some? && next.value.Writing? {
      WriteOfRepeat(s, i, task, next.value.order);
    }
  }

  /** For every repeat, whatever text its accrual is: the committed write brings the simple
      service where the fast one is exactly when the repeat is plain. */
  lemma ShortcutLosesExactlyTheAccrual(pool: Pool.Config, s: State, e: Event)
    requires B.Good(View(s)) && IsRepeat(s, e)
    ensures ReplyAndWrite(pool, s, e) == Some(React(Fast(pool), s, e.worker, e.reply)) <==> Plain(s, e)
  {
    var i, task := e.worker, s.process.value.workers[e.worker].task;
    AskingTaskMirrorsRow(s, i);
    RepeatInBoth(pool, s, e);
    ReplyAndWriteOfRepeat(pool, s, e);
    var next := AfterRepeat(task, e.reply.accrual);
    if next.Some? && next.value.Writing? {
      WrittenIsRequeued(s, i, task, next.value.order);
    }
  }

  function RowAccrual(t: Tables, id: string): Option<int> {
    if id in t.orders then Some(t.orders[id].accrual) else None
  }

  /** What differs when it is not plain: the simple service stores the reply's accrual, or
      drops the task without a write, or panics; the fast one keeps row and task as they are. */
  lemma AccrualInARepeatIsDropped(pool: Pool.Config, s: State, e: Event)
    requires B.Good(View(s)) && IsRepeat(s, e) && !Plain(s, e)
    ensures var i, task := e.worker, s.process.value.workers[e.worker].task;
            var fast := React(Fast(pool), s, e.worker, e.reply);
            && fast == WorkerMoves(s, i, Pool.Requeueing(task))
            && RowAccrual(fast.tables, task.id) == Some(task.accrual)
            && match Money.ParseAccrual(e.reply.accrual)
               case Amount(kopecks) =>
                 && kopecks != task.accrual && ReplyAndWrite(pool, s, e).Some?
                 && RowAccrual(ReplyAndWrite(pool, s, e).value.tables, task.id) == Some(kopecks)
               case Malformed => React(Simple(pool), s, e.worker, e.reply) == WorkerMoves(s, i, Pool.Idle)
               case Panics => React(Simple(pool), s, e.worker, e.reply) == Crashed(s)
  {
    var i, task := e.worker, s.process.value.workers[e.worker].task;
    AskingTaskMirrorsRow(s, i);
    RepeatInBoth(pool, s, e);
    ReplyAndWriteOfRepeat(pool, s, e);
  }
}
