/** The worker pool as a machine of small steps (internal/processors/pool.go, worker.go).

    One memory is one run of the process, from Start on: the queue reader, the dispatcher and
    the workers each stand at a point of their loops, and every step is one action of one of
    them between two points where another goroutine may run. Appending a task and signalling
    `hasTasks` are separate steps; the snapshot that starts the dump is one atomic read. */
module Pool {
  import opened Orders
  import opened Bags

  datatype Config = Config(workers: nat, bufSize: nat, linkSize: nat)

  /** `run`: at the select, holding a task before the append, before the signal, returned. */
  datatype Reader = Receiving | Appending(task: Order) | Signalling | ReaderDone

  /** `runDispatcher` and `dumpQueue`. `Waiting` is the outer select, `Looking` the head of
      the inner loop, `Sending` the inner select; `Sleeping` remembers the loop it returns to. */
  datatype Dispatcher =
    | Waiting
    | Sleeping(inner: bool)
    | Looking
    | Sending(task: Order)
    | PushingBack(task: Order, shutdown: bool)
    | Snapshotting
    | Draining(orders: seq<Order>)
    | Saving(orders: seq<Order>)
    | DispatcherDone

  /** `Worker.Run` and, inside its action, the stages of ProcessAccrualTask. */
  datatype Worker =
    | Idle
    | Asking(task: Order)
    | Pausing(task: Order, delay: nat)
    | Writing(task: Order, order: Order, attempt: nat)
    | Requeueing(task: Order)
    | WorkerDone

  /** History of one run: what entered the pool, what workers took, what the dump took. */
  datatype Flow = Flow(
    restored: seq<Order>,
    received: multiset<Order>,
    taken: multiset<Order>,
    snapshot: seq<Order>,
    drained: seq<Order>)

  /** How far the end of the run has come: the parent's context is done, the pool's own is,
      and which channels are closed. */
  datatype Stop = Stop(parentDone: bool, cancelled: bool, linkClosed: bool, workerClosed: bool)

  datatype Memory = Memory(
    stop: Stop,
    linkCh: seq<Order>,
    reader: Reader,
    pending: seq<Order>,
    hasTasks: bool,
    dispatcher: Dispatcher,
    workerCh: seq<Order>,
    pauseCh: seq<nat>,
    workers: seq<Worker>,
    wg: int,
    flow: Flow)

  /** The memory after RestoreQueue put `restored` on the stack, and Start. */
  function Started(cfg: Config, restored: seq<Order>): Memory {
    Memory(Stop(false, false, false, false), [], Receiving, restored, restored != [], Waiting, [], [],
           seq(cfg.workers, i => Idle), cfg.workers + 2,
           Flow(restored, multiset{}, multiset{}, [], []))
  }

  // ------------------------------------------------------------------- the steps

  datatype ReaderEvent = Receives | Appends | Signals | ReaderQuits

  datatype DispatcherEvent =
    | Stops
    | Pauses
    | Wakes
    | Rises
    | Looks
    | Sends
    | Hands(worker: nat)
    | Yields
    | GivesUp
    | PushesBack
    | Snapshots
    | Drains

  datatype WorkerEvent = Takes | WorkerQuits

  /** The parent's context ends first; the pool's follows it, and so does the goroutine that
      closes `linkCh`, in either order. */
  datatype Event =
    | ParentEnds
    | Cancel
    | CloseLink
    | CloseWorkerCh
    | Reads(r: ReaderEvent)
    | Dispatches(d: DispatcherEvent)
    | Works(worker: nat, w: WorkerEvent)

  predicate IsIdle(m: Memory, i: nat) {
    i < |m.workers| && m.workers[i].Idle?
  }

  predicate ReaderMay(m: Memory, e: ReaderEvent) {
    match e
    case Receives => m.reader.Receiving? && m.linkCh != []
    case Appends => m.reader.Appending?
    case Signals => m.reader.Signalling?
    case ReaderQuits => m.reader.Receiving? && (m.stop.cancelled || (m.stop.linkClosed && m.linkCh == []))
  }

  function ReaderNext(m: Memory, e: ReaderEvent): Memory
    requires ReaderMay(m, e)
  {
    match e
    case Receives => Received(m.(linkCh := m.linkCh[1..]), m.linkCh[0])
    case Appends => m.(reader := Signalling, pending := m.pending + [m.reader.task])
    case Signals => m.(reader := Receiving, hasTasks := true)
    case ReaderQuits => m.(reader := ReaderDone, wg := m.wg - 1)
  }

  function Received(m: Memory, task: Order): Memory {
    m.(reader := Appending(task), flow := m.flow.(received := m.flow.received + multiset{task}))
  }

  predicate DispatcherMay(cfg: Config, m: Memory, e: DispatcherEvent) {
    match e
    case Stops => m.dispatcher.Waiting? && m.stop.cancelled
    case Pauses => m.dispatcher.Waiting? && m.pauseCh != []
    case Wakes => m.dispatcher.Waiting? && m.hasTasks
    case Rises => m.dispatcher.Sleeping?
    case Looks => m.dispatcher.Looking?
    case Sends => m.dispatcher.Sending? && |m.workerCh| < cfg.bufSize
    case Hands(i) => m.dispatcher.Sending? && m.workerCh == [] && IsIdle(m, i)
    case Yields => m.dispatcher.Sending? && m.pauseCh != []
    case GivesUp => m.dispatcher.Sending? && m.stop.cancelled
    case PushesBack => m.dispatcher.PushingBack?
    case Snapshots => m.dispatcher.Snapshotting?
    case Drains => m.dispatcher.Draining?
  }

  function DispatcherNext(cfg: Config, m: Memory, e: DispatcherEvent): Memory
    requires DispatcherMay(cfg, m, e)
  {
    match e
    case Stops => m.(dispatcher := Snapshotting)
    case Pauses => m.(dispatcher := Sleeping(false), pauseCh := m.pauseCh[1..])
    case Wakes => m.(dispatcher := Looking, hasTasks := false)
    case Rises => m.(dispatcher := if m.dispatcher.inner then Looking else Waiting)
    case Looks =>
      if m.pending == [] then m.(dispatcher := Waiting)
      else
        var last := |m.pending| - 1;
        m.(dispatcher := Sending(m.pending[last]), pending := m.pending[..last])
    case Sends => m.(dispatcher := Looking, workerCh := m.workerCh + [m.dispatcher.task])
    case Hands(i) => Taken(m.(dispatcher := Looking), i, m.dispatcher.task)
    case Yields => m.(dispatcher := PushingBack(m.dispatcher.task, false), pauseCh := m.pauseCh[1..])
    case GivesUp => m.(dispatcher := PushingBack(m.dispatcher.task, true))
    case PushesBack =>
      m.(dispatcher := if m.dispatcher.shutdown then Snapshotting else Sleeping(true),
         pending := m.pending + [m.dispatcher.task])
    case Snapshots => m.(dispatcher := Draining(m.pending), flow := m.flow.(snapshot := m.pending))
    case Drains =>
      if m.workerCh != [] then
        m.(dispatcher := Draining(m.dispatcher.orders + [m.workerCh[0]]), workerCh := m.workerCh[1..],
           flow := m.flow.(drained := m.flow.drained + [m.workerCh[0]]))
      else if m.stop.workerClosed then m
      else m.(dispatcher := Saving(m.dispatcher.orders))
  }

  predicate WorkerMay(m: Memory, i: nat, e: WorkerEvent) {
    && IsIdle(m, i)
    && match e
       case Takes => m.workerCh != []
       case WorkerQuits => m.stop.cancelled || (m.stop.workerClosed && m.workerCh == [])
  }

  function WorkerNext(m: Memory, i: nat, e: WorkerEvent): Memory
    requires WorkerMay(m, i, e)
  {
    match e
    case Takes => Taken(m.(workerCh := m.workerCh[1..]), i, m.workerCh[0])
    case WorkerQuits => m.(workers := m.workers[i := WorkerDone], wg := m.wg - 1)
  }

  predicate Enabled(cfg: Config, m: Memory, e: Event) {
    match e
    case ParentEnds => true
    case Cancel => m.stop.parentDone
    case CloseLink => m.stop.parentDone && !m.stop.linkClosed
    case CloseWorkerCh => m.wg == 0 && !m.stop.workerClosed
    case Reads(r) => ReaderMay(m, r)
    case Dispatches(d) => DispatcherMay(cfg, m, d)
    case Works(i, w) => WorkerMay(m, i, w)
  }

  function Next(cfg: Config, m: Memory, e: Event): Memory
    requires Enabled(cfg, m, e)
  {
    match e
    case ParentEnds => m.(stop := m.stop.(parentDone := true))
    case Cancel => m.(stop := m.stop.(cancelled := true))
    case CloseLink => m.(stop := m.stop.(linkClosed := true))
    case CloseWorkerCh => m.(stop := m.stop.(workerClosed := true))
    case Reads(r) => ReaderNext(m, r)
    case Dispatches(d) => DispatcherNext(cfg, m, d)
    case Works(i, w) => WorkerNext(m, i, w)
  }

  function Taken(m: Memory, i: nat, task: Order): Memory
    requires IsIdle(m, i)
  {
    m.(workers := m.workers[i := Asking(task)], flow := m.flow.(taken := m.flow.taken + multiset{task}))
  }

  /** The non-blocking send on `linkCh`: into the buffer, to a waiting reader (`direct`), or
      nowhere. */
  function Offered(cfg: Config, m: Memory, task: Order, direct: bool): Memory
    requires direct ==> CanOfferDirectly(m)
  {
    if direct then Received(m, task)
    else if |m.linkCh| < cfg.linkSize then m.(linkCh := m.linkCh + [task])
    else m
  }

  predicate CanOfferDirectly(m: Memory) {
    m.reader.Receiving? && m.linkCh == []
  }

  /** The non-blocking send on `pauseCh`, whose buffer holds one delay. */
  function PauseOffered(m: Memory, delay: nat): Memory {
    if m.pauseCh == [] then m.(pauseCh := [delay]) else m
  }

  function WorkerMoves(m: Memory, i: nat, w: Worker): Memory
    requires i < |m.workers|
  {
    m.(workers := m.workers[i := w])
  }

  /** The dump is over and the dispatcher returns. */
  function DumpEnds(m: Memory): Memory {
    m.(dispatcher := DispatcherDone, wg := m.wg - 1)
  }

  // ------------------------------------------------------------------ live tasks

  function ReaderHand(r: Reader): multiset<Order> {
    if r.Appending? then multiset{r.task} else multiset{}
  }

  function TaskInHand(d: Dispatcher): multiset<Order> {
    if d.Sending? || d.PushingBack? then multiset{d.task} else multiset{}
  }

  /** What the stack and the dispatcher's hand hold. */
  function Held(d: Dispatcher, pending: seq<Order>): multiset<Order> {
    multiset(pending) + TaskInHand(d)
  }

  /** Nobody pops the stack after the dump's snapshot: its entries are dead from then on, and
      the tasks are in the dump's list instead. */
  predicate BeforeSnapshot(d: Dispatcher) {
    !d.Draining? && !d.Saving? && !d.DispatcherDone?
  }

  function DispatcherHolds(d: Dispatcher, pending: seq<Order>): multiset<Order> {
    if BeforeSnapshot(d) then Held(d, pending)
    else if d.DispatcherDone? then multiset{}
    else multiset(d.orders)
  }

  function WorkerHand(w: Worker): multiset<Order> {
    if w.Idle? || w.WorkerDone? then multiset{} else multiset{w.task}
  }

  function Inbound(linkCh: seq<Order>, r: Reader): multiset<Order> {
    multiset(linkCh) + ReaderHand(r)
  }

  ghost function Live(m: Memory): multiset<Order> {
    Inbound(m.linkCh, m.reader) + DispatcherHolds(m.dispatcher, m.pending)
    + multiset(m.workerCh) + Gather(m.workers, WorkerHand)
  }

  /** The dispatcher's steps that move no task. */
  predicate Quiet(e: DispatcherEvent) {
    e.Stops? || e.Pauses? || e.Wakes? || e.Rises? || e.Yields? || e.GivesUp?
  }

  lemma QuietStepsMoveNothing(cfg: Config, m: Memory, e: DispatcherEvent)
    requires DispatcherMay(cfg, m, e) && Quiet(e)
    ensures var m' := DispatcherNext(cfg, m, e);
            && m'.pending == m.pending && TaskInHand(m'.dispatcher) == TaskInHand(m.dispatcher)
            && BeforeSnapshot(m.dispatcher) && BeforeSnapshot(m'.dispatcher)
  {
    if e.Yields? || e.GivesUp? {
      assert DispatcherNext(cfg, m, e).dispatcher.PushingBack?;
    } else {
      assert TaskInHand(m.dispatcher) == multiset{};
    }
  }

  /** The totals with one task `x` set apart. */
  lemma LiveWith(inbound: multiset<Order>, holds: multiset<Order>, m: Memory, x: multiset<Order>)
    ensures var c, w := multiset(m.workerCh), Gather(m.workers, WorkerHand);
            && (inbound + x) + holds + c + w == inbound + holds + c + w + x
            && inbound + (holds + x) + c + w == inbound + holds + c + w + x
  {
    InFourParts(inbound, holds, multiset(m.workerCh), Gather(m.workers, WorkerHand), x);
  }

  // what the places of one step hold before and after it

  lemma ReceivedFrom(linkCh: seq<Order>)
    requires linkCh != []
    ensures Inbound(linkCh[1..], Appending(linkCh[0])) == Inbound(linkCh, Receiving)
  {
    TakeFirst(linkCh);
  }

  lemma AppendedFrom(linkCh: seq<Order>, task: Order)
    ensures Inbound(linkCh, Appending(task)) == Inbound(linkCh, Signalling) + multiset{task}
  {
  }

  lemma HeldAfterPush(d: Dispatcher, pending: seq<Order>, task: Order)
    ensures Held(d, pending + [task]) == Held(d, pending) + multiset{task}
    ensures DispatcherHolds(d, pending + [task])
            == if BeforeSnapshot(d) then DispatcherHolds(d, pending) + multiset{task} else DispatcherHolds(d, pending)
  {
    AddLast(pending, task);
    InTwoParts(multiset(pending), TaskInHand(d), multiset{task});
  }

  lemma HeldAfterPop(pending: seq<Order>)
    requires pending != []
    ensures var last := |pending| - 1;
            && Held(Sending(pending[last]), pending[..last]) == Held(Looking, pending)
            && DispatcherHolds(Sending(pending[last]), pending[..last]) == DispatcherHolds(Looking, pending)
  {
    TakeLast(pending);
  }

  /** Giving up a task in hand, to wherever it goes. */
  lemma HeldAfterGiving(d: Dispatcher, d': Dispatcher, pending: seq<Order>)
    requires d.Sending? || d.PushingBack?
    requires BeforeSnapshot(d') && TaskInHand(d') == multiset{}
    ensures Held(d, pending) == Held(d', pending) + multiset{d.task}
    ensures DispatcherHolds(d, pending) == DispatcherHolds(d', pending) + multiset{d.task}
  {
  }

  lemma AppendingMoves(m: Memory)
    requires ReaderMay(m, Appends)
    ensures Live(ReaderNext(m, Appends)) <= Live(m)
  {
    AppendedFrom(m.linkCh, m.reader.task);
    HeldAfterPush(m.dispatcher, m.pending, m.reader.task);
    LiveWith(Inbound(m.linkCh, Signalling), DispatcherHolds(m.dispatcher, m.pending), m, multiset{m.reader.task});
  }

  lemma ReceivingMoves(m: Memory)
    requires ReaderMay(m, Receives)
    ensures Live(ReaderNext(m, Receives)) == Live(m)
  {
    ReceivedFrom(m.linkCh);
  }

  lemma ReaderMovesTasks(m: Memory, e: ReaderEvent)
    requires ReaderMay(m, e)
    ensures Live(ReaderNext(m, e)) <= Live(m)
  {
    if e == Receives {
      ReceivingMoves(m);
    } else if e == Appends {
      AppendingMoves(m);
    } else {
      assert ReaderHand(ReaderNext(m, e).reader) == ReaderHand(m.reader);
    }
  }

  lemma PushingBackMoves(cfg: Config, m: Memory)
    requires DispatcherMay(cfg, m, PushesBack)
    ensures var m' := DispatcherNext(cfg, m, PushesBack);
            && DispatcherHolds(m'.dispatcher, m'.pending) == DispatcherHolds(m.dispatcher, m.pending)
            && Held(m'.dispatcher, m'.pending) == Held(m.dispatcher, m.pending)
  {
    var d' := DispatcherNext(cfg, m, PushesBack).dispatcher;
    HeldAfterGiving(m.dispatcher, d', m.pending);
    HeldAfterPush(d', m.pending, m.dispatcher.task);
  }

  lemma SendingMoves(cfg: Config, m: Memory)
    requires DispatcherMay(cfg, m, Sends)
    ensures Live(DispatcherNext(cfg, m, Sends)) == Live(m)
  {
    var task := multiset{m.dispatcher.task};
    HeldAfterGiving(m.dispatcher, Looking, m.pending);
    AddLast(m.workerCh, m.dispatcher.task);
    InFourParts(Inbound(m.linkCh, m.reader), DispatcherHolds(Looking, m.pending),
                multiset(m.workerCh), Gather(m.workers, WorkerHand), task);
  }

  lemma HandingMoves(cfg: Config, m: Memory, i: nat)
    requires DispatcherMay(cfg, m, Hands(i))
    ensures Live(DispatcherNext(cfg, m, Hands(i))) == Live(m)
  {
    var task := m.dispatcher.task;
    HeldAfterGiving(m.dispatcher, Looking, m.pending);
    IdleWorkerTakes(m.workers, i, task);
    InFourParts(Inbound(m.linkCh, m.reader), DispatcherHolds(Looking, m.pending),
                multiset(m.workerCh), Gather(m.workers, WorkerHand), multiset{task});
  }

  lemma IdleWorkerTakes(workers: seq<Worker>, i: nat, task: Order)
    requires i < |workers| && workers[i].Idle?
    ensures Gather(workers[i := Asking(task)], WorkerHand) == Gather(workers, WorkerHand) + multiset{task}
  {
    GatherUpdate(workers, i, Asking(task), WorkerHand);
  }

  lemma DrainingMoves(cfg: Config, m: Memory)
    requires DispatcherMay(cfg, m, Drains)
    ensures Live(DispatcherNext(cfg, m, Drains)) == Live(m)
  {
    if m.workerCh != [] {
      var task := m.workerCh[0];
      TakeFirst(m.workerCh);
      AddLast(m.dispatcher.orders, task);
      InFourParts(Inbound(m.linkCh, m.reader), multiset(m.dispatcher.orders),
                  multiset(m.workerCh[1..]), Gather(m.workers, WorkerHand), multiset{task});
    }
  }

  lemma PoppingMoves(cfg: Config, m: Memory)
    requires DispatcherMay(cfg, m, Looks)
    ensures var m' := DispatcherNext(cfg, m, Looks);
            && DispatcherHolds(m'.dispatcher, m'.pending) == DispatcherHolds(m.dispatcher, m.pending)
            && Held(m'.dispatcher, m'.pending) == Held(m.dispatcher, m.pending)
  {
    if m.pending == [] {
      assert DispatcherNext(cfg, m, Looks).dispatcher == Waiting;
    } else {
      HeldAfterPop(m.pending);
    }
  }

  /** The dispatcher's steps between its hand, the stack and the dump's list. */
  lemma DispatcherKeepsHolding(cfg: Config, m: Memory, e: DispatcherEvent)
    requires DispatcherMay(cfg, m, e) && (Quiet(e) || e.Looks? || e.PushesBack? || e.Snapshots?)
    ensures var m' := DispatcherNext(cfg, m, e);
            && DispatcherHolds(m'.dispatcher, m'.pending) == DispatcherHolds(m.dispatcher, m.pending)
            && Held(m'.dispatcher, m'.pending) == Held(m.dispatcher, m.pending)
  {
    if e.Looks? {
      PoppingMoves(cfg, m);
    } else if e.PushesBack? {
      PushingBackMoves(cfg, m);
    } else if Quiet(e) {
      QuietStepsMoveNothing(cfg, m, e);
    }
  }

  lemma DispatcherKeepsOtherPlaces(cfg: Config, m: Memory, e: DispatcherEvent)
    requires DispatcherMay(cfg, m, e) && (Quiet(e) || e.Looks? || e.PushesBack? || e.Snapshots?)
    ensures var m' := DispatcherNext(cfg, m, e);
            && m'.linkCh == m.linkCh && m'.reader == m.reader && m'.workerCh == m.workerCh
            && m'.workers == m.workers && m'.wg == m.wg && m'.stop == m.stop
            && m'.flow == m.flow.(snapshot := m'.flow.snapshot)
  {
  }

  lemma DispatcherMovesTasks(cfg: Config, m: Memory, e: DispatcherEvent)
    requires DispatcherMay(cfg, m, e)
    ensures Live(DispatcherNext(cfg, m, e)) == Live(m)
  {
    if e.Sends? {
      SendingMoves(cfg, m);
    } else if e.Hands? {
      HandingMoves(cfg, m, e.worker);
    } else if e.Drains? {
      DrainingMoves(cfg, m);
    } else {
      DispatcherKeepsHolding(cfg, m, e);
      DispatcherKeepsOtherPlaces(cfg, m, e);
    }
  }

  lemma WorkerMovesTasks(m: Memory, i: nat, e: WorkerEvent)
    requires WorkerMay(m, i, e)
    ensures Live(WorkerNext(m, i, e)) == Live(m)
  {
    if e == Takes {
      var task := m.workerCh[0];
      TakeFirst(m.workerCh);
      IdleWorkerTakes(m.workers, i, task);
      InFourParts(Inbound(m.linkCh, m.reader), DispatcherHolds(m.dispatcher, m.pending),
                  multiset(m.workerCh[1..]), Gather(m.workers, WorkerHand), multiset{task});
    } else {
      GatherUpdate(m.workers, i, WorkerDone, WorkerHand);
    }
  }

  /** No step of the pool alone brings a task to life or duplicates one. */
  lemma PoolStepMovesTasks(cfg: Config, m: Memory, e: Event)
    requires Enabled(cfg, m, e)
    ensures Live(Next(cfg, m, e)) <= Live(m)
  {
    match e
    case Reads(r) => ReaderMovesTasks(m, r);
    case Dispatches(d) => DispatcherMovesTasks(cfg, m, d);
    case Works(i, w) => WorkerMovesTasks(m, i, w);
    case _ =>
  }

  lemma OfferMovesTask(cfg: Config, m: Memory, task: Order, direct: bool)
    requires direct ==> CanOfferDirectly(m)
    ensures Live(Offered(cfg, m, task, direct)) <= Live(m) + multiset{task}
  {
    OfferedInbound(m.linkCh, m.reader, task);
    LiveWith(Inbound(m.linkCh, m.reader), DispatcherHolds(m.dispatcher, m.pending), m, multiset{task});
  }

  lemma OfferedInbound(linkCh: seq<Order>, r: Reader, task: Order)
    ensures Inbound(linkCh + [task], r) == Inbound(linkCh, r) + multiset{task}
    ensures r.Receiving? ==> Inbound(linkCh, Appending(task)) == Inbound(linkCh, r) + multiset{task}
  {
    AddLast(linkCh, task);
    InTwoParts(multiset(linkCh), ReaderHand(r), multiset{task});
  }

  lemma WorkerMoveExchangesHands(m: Memory, i: nat, w: Worker)
    requires i < |m.workers|
    ensures WorkerHand(m.workers[i]) <= Live(m)
    ensures Live(WorkerMoves(m, i, w)) == Live(m) - WorkerHand(m.workers[i]) + WorkerHand(w)
  {
    GatherUpdate(m.workers, i, w, WorkerHand);
    Exchange(Inbound(m.linkCh, m.reader) + DispatcherHolds(m.dispatcher, m.pending) + multiset(m.workerCh),
             Gather(m.workers, WorkerHand), WorkerHand(m.workers[i]), WorkerHand(w));
  }

  lemma Exchange(rest: multiset<Order>, all: multiset<Order>, out: multiset<Order>, next: multiset<Order>)
    requires out <= all
    ensures rest + (all - out + next) == (rest + all) - out + next
  {
  }

  // -------------------------------------------------------------- conservation

  /** Tasks received and restored are where they should be. */
  ghost predicate Conserved(m: Memory) {
    multiset(m.flow.restored) + m.flow.received
    == ReaderHand(m.reader) + Held(m.dispatcher, m.pending) + multiset(m.workerCh)
       + m.flow.taken + multiset(m.flow.drained)
  }

  lemma ReaderConserves(m: Memory, e: ReaderEvent)
    requires ReaderMay(m, e) && Conserved(m)
    ensures Conserved(ReaderNext(m, e))
  {
    if e == Receives {
      ReceivingConserves(multiset(m.flow.restored), m.flow.received, Held(m.dispatcher, m.pending),
                         multiset(m.workerCh), m.flow.taken, multiset(m.flow.drained), multiset{m.linkCh[0]});
    } else if e == Appends {
      AppendingConserves(m);
    }
  }

  lemma AppendingConserves(m: Memory)
    requires ReaderMay(m, Appends) && Conserved(m)
    ensures Conserved(ReaderNext(m, Appends))
  {
    var task := multiset{m.reader.task};
    HeldAfterPush(m.dispatcher, m.pending, m.reader.task);
    InFiveParts(multiset{}, Held(m.dispatcher, m.pending), multiset(m.workerCh), m.flow.taken,
                multiset(m.flow.drained), task);
    assert multiset{} + task == task;
  }

  lemma ReceivingConserves(restored: multiset<Order>, received: multiset<Order>, h: multiset<Order>, c: multiset<Order>,
                           t: multiset<Order>, d: multiset<Order>, x: multiset<Order>)
    requires restored + received == multiset{} + h + c + t + d
    ensures restored + (received + x) == x + h + c + t + d
  {
    InTwoParts(restored, received, x);
    InFiveParts(multiset{}, h, c, t, d, x);
    assert multiset{} + x == x;
  }

  lemma DispatcherConserves(cfg: Config, m: Memory, e: DispatcherEvent)
    requires DispatcherMay(cfg, m, e) && Conserved(m)
    ensures Conserved(DispatcherNext(cfg, m, e))
  {
    if e.Sends? {
      SendingConserves(cfg, m);
    } else if e.Hands? {
      HandingConserves(cfg, m, e.worker);
    } else if e.Drains? {
      DrainingConserves(cfg, m);
    } else {
      DispatcherKeepsHolding(cfg, m, e);
      DispatcherKeepsOtherPlaces(cfg, m, e);
    }
  }

  lemma SendingConserves(cfg: Config, m: Memory)
    requires DispatcherMay(cfg, m, Sends) && Conserved(m)
    ensures Conserved(DispatcherNext(cfg, m, Sends))
  {
    HeldAfterGiving(m.dispatcher, Looking, m.pending);
    AddLast(m.workerCh, m.dispatcher.task);
    InFiveParts(ReaderHand(m.reader), Held(Looking, m.pending), multiset(m.workerCh), m.flow.taken,
                multiset(m.flow.drained), multiset{m.dispatcher.task});
  }

  lemma HandingConserves(cfg: Config, m: Memory, i: nat)
    requires DispatcherMay(cfg, m, Hands(i)) && Conserved(m)
    ensures Conserved(DispatcherNext(cfg, m, Hands(i)))
  {
    HeldAfterGiving(m.dispatcher, Looking, m.pending);
    InFiveParts(ReaderHand(m.reader), Held(Looking, m.pending), multiset(m.workerCh), m.flow.taken,
                multiset(m.flow.drained), multiset{m.dispatcher.task});
  }

  lemma DrainingConserves(cfg: Config, m: Memory)
    requires DispatcherMay(cfg, m, Drains) && Conserved(m)
    ensures Conserved(DispatcherNext(cfg, m, Drains))
  {
    if m.workerCh != [] {
      TakeFirst(m.workerCh);
      AddLast(m.flow.drained, m.workerCh[0]);
      InFiveParts(ReaderHand(m.reader), Held(m.dispatcher, m.pending), multiset(m.workerCh[1..]), m.flow.taken,
                  multiset(m.flow.drained), multiset{m.workerCh[0]});
    }
  }

  lemma WorkerConserves(m: Memory, i: nat, e: WorkerEvent)
    requires WorkerMay(m, i, e) && Conserved(m)
    ensures Conserved(WorkerNext(m, i, e))
  {
    if e == Takes {
      TakeFirst(m.workerCh);
      InFiveParts(ReaderHand(m.reader), Held(m.dispatcher, m.pending), multiset(m.workerCh[1..]), m.flow.taken,
                  multiset(m.flow.drained), multiset{m.workerCh[0]});
    }
  }

  // ------------------------------------------------------------ wakeup, shutdown

  ghost function Running(workers: seq<Worker>): nat {
    |Gather(workers, Mark)|
  }

  function Mark(w: Worker): multiset<bool> {
    if w.WorkerDone? then multiset{} else multiset{true}
  }

  /** The wait group counts the goroutines that have not returned. */
  ghost predicate WaitGroupCounts(m: Memory) {
    && m.wg == Running(m.workers) + (if m.reader.ReaderDone? then 0 else 1)
               + (if m.dispatcher.DispatcherDone? then 0 else 1)
    && (m.stop.workerClosed ==> m.wg == 0)
  }

  /** No lost wakeup: a dispatcher at (or sleeping before) its outer select with tasks on the
      stack has a signal waiting, or the reader is about to send one. */
  predicate NoLostWakeup(m: Memory) {
    (m.dispatcher.Waiting? || (m.dispatcher.Sleeping? && !m.dispatcher.inner)) && m.pending != []
    ==> m.hasTasks || m.reader.Signalling?
  }

  /** The dump's list is the snapshot of the stack followed by what was drained, and it is
      saved only once the channel is empty. */
  predicate DumpIsOrdered(m: Memory) {
    && (BeforeSnapshot(m.dispatcher) ==> m.flow.snapshot == [] && m.flow.drained == [])
    && (m.dispatcher.Draining? || m.dispatcher.Saving? ==>
          m.dispatcher.orders == m.flow.snapshot + m.flow.drained)
    && (m.dispatcher.Saving? || m.dispatcher.DispatcherDone? ==> m.workerCh == [])
    && (!BeforeSnapshot(m.dispatcher) ==> m.flow.snapshot <= m.pending && m.stop.cancelled)
    && (m.dispatcher.Snapshotting? || (m.dispatcher.PushingBack? && m.dispatcher.shutdown) ==> m.stop.cancelled)
  }

  predicate Bounded(cfg: Config, m: Memory) {
    && |m.workerCh| <= cfg.bufSize && |m.linkCh| <= cfg.linkSize && |m.pauseCh| <= 1
    && |m.workers| == cfg.workers && (m.stop.linkClosed || m.stop.cancelled ==> m.stop.parentDone)
  }

  ghost predicate PoolInv(cfg: Config, m: Memory) {
    WaitGroupCounts(m) && NoLostWakeup(m) && DumpIsOrdered(m) && Conserved(m) && Bounded(cfg, m)
  }

  lemma StartedIsGood(cfg: Config, restored: seq<Order>)
    ensures PoolInv(cfg, Started(cfg, restored))
  {
    AllRunning(Started(cfg, restored).workers);
  }

  lemma StartedHolds(cfg: Config, restored: seq<Order>)
    ensures Live(Started(cfg, restored)) == multiset(restored)
  {
    GatherNothing(Started(cfg, restored).workers, WorkerHand);
  }

  lemma {:induction false} AllRunning(workers: seq<Worker>)
    requires forall i :: 0 <= i < |workers| ==> !workers[i].WorkerDone?
    ensures Running(workers) == |workers|
  {
    if workers != [] {
      AllRunning(workers[..|workers| - 1]);
    }
  }

  lemma MoveKeepsCount(m: Memory, i: nat, w: Worker)
    requires i < |m.workers|
    ensures Running(m.workers[i := w])
            == Running(m.workers) - |Mark(m.workers[i])| + |Mark(w)|
  {
    GatherUpdate(m.workers, i, w, Mark);
  }

  lemma ReaderKeepsInv(cfg: Config, m: Memory, e: ReaderEvent)
    requires ReaderMay(m, e) && PoolInv(cfg, m)
    ensures PoolInv(cfg, ReaderNext(m, e))
  {
    ReaderConserves(m, e);
  }

  lemma DispatcherKeepsCounts(cfg: Config, m: Memory, e: DispatcherEvent)
    requires DispatcherMay(cfg, m, e) && WaitGroupCounts(m)
    ensures WaitGroupCounts(DispatcherNext(cfg, m, e))
  {
    if e.Hands? {
      MoveKeepsCount(m, e.worker, Asking(m.dispatcher.task));
    } else if !e.Sends? && !e.Drains? {
      DispatcherKeepsOtherPlaces(cfg, m, e);
    }
  }

  lemma DispatcherKeepsBounds(cfg: Config, m: Memory, e: DispatcherEvent)
    requires DispatcherMay(cfg, m, e) && Bounded(cfg, m)
    ensures Bounded(cfg, DispatcherNext(cfg, m, e))
  {
  }

  lemma DispatcherKeepsWakeup(cfg: Config, m: Memory, e: DispatcherEvent)
    requires DispatcherMay(cfg, m, e) && NoLostWakeup(m)
    ensures NoLostWakeup(DispatcherNext(cfg, m, e))
  {
  }

  lemma DispatcherKeepsDumpOrder(cfg: Config, m: Memory, e: DispatcherEvent)
    requires DispatcherMay(cfg, m, e) && DumpIsOrdered(m)
    ensures DumpIsOrdered(DispatcherNext(cfg, m, e))
  {
    if e == Drains && m.workerCh != [] {
      assert m.flow.snapshot + m.flow.drained + [m.workerCh[0]]
          == m.flow.snapshot + (m.flow.drained + [m.workerCh[0]]);
    }
  }

  lemma WorkerKeepsInv(cfg: Config, m: Memory, i: nat, e: WorkerEvent)
    requires WorkerMay(m, i, e) && PoolInv(cfg, m)
    ensures PoolInv(cfg, WorkerNext(m, i, e))
  {
    WorkerConserves(m, i, e);
    if e == Takes {
      MoveKeepsCount(m, i, Asking(m.workerCh[0]));
    } else {
      MoveKeepsCount(m, i, WorkerDone);
    }
  }

  lemma PoolStepKeepsInv(cfg: Config, m: Memory, e: Event)
    requires Enabled(cfg, m, e) && PoolInv(cfg, m)
    ensures PoolInv(cfg, Next(cfg, m, e))
  {
    match e
    case Reads(r) => ReaderKeepsInv(cfg, m, r);
    case Dispatches(d) =>
      DispatcherKeepsCounts(cfg, m, d);
      DispatcherKeepsBounds(cfg, m, d);
      DispatcherKeepsWakeup(cfg, m, d);
      DispatcherKeepsDumpOrder(cfg, m, d);
      DispatcherConserves(cfg, m, d);
    case Works(i, w) => WorkerKeepsInv(cfg, m, i, w);
    case _ =>
  }

  /** Only taking a task and quitting change a worker in a step of the pool alone. */
  lemma OtherStepsKeepWorkers(cfg: Config, m: Memory, e: Event)
    requires Enabled(cfg, m, e) && !e.Works? && !(e.Dispatches? && e.d.Hands?)
    ensures Next(cfg, m, e).workers == m.workers
  {
    if e.Dispatches? && !e.d.Sends? && !e.d.Drains? {
      DispatcherKeepsOtherPlaces(cfg, m, e.d);
    }
  }

  // -------------------------- what the actions inside a worker or a caller keep

  lemma OfferKeepsInv(cfg: Config, m: Memory, task: Order, direct: bool)
    requires PoolInv(cfg, m) && !m.stop.linkClosed && (direct ==> CanOfferDirectly(m))
    ensures PoolInv(cfg, Offered(cfg, m, task, direct))
  {
    if direct {
      ReceivingConserves(multiset(m.flow.restored), m.flow.received, Held(m.dispatcher, m.pending),
                         multiset(m.workerCh), m.flow.taken, multiset(m.flow.drained), multiset{task});
    }
  }

  lemma PauseOfferMovesNothing(m: Memory, delay: nat)
    ensures Live(PauseOffered(m, delay)) == Live(m) && PauseOffered(m, delay).workers == m.workers
  {
  }

  lemma PauseOfferKeepsInv(cfg: Config, m: Memory, delay: nat)
    requires PoolInv(cfg, m)
    ensures PoolInv(cfg, PauseOffered(m, delay)) && Live(PauseOffered(m, delay)) == Live(m)
  {
  }

  lemma WorkerMoveKeepsInv(cfg: Config, m: Memory, i: nat, w: Worker)
    requires PoolInv(cfg, m) && i < |m.workers| && !m.workers[i].WorkerDone? && !w.WorkerDone?
    ensures PoolInv(cfg, WorkerMoves(m, i, w))
  {
    MoveKeepsCount(m, i, w);
  }

  /** At the save nothing is lost: the channel is empty, and what entered the pool is in the
      list, with the workers, in the reader's hand, or came on the stack after the snapshot. */
  ghost predicate ListIsComplete(m: Memory)
    requires m.dispatcher.Saving?
  {
    && m.workerCh == [] && m.flow.snapshot <= m.pending
    && m.dispatcher.orders == m.flow.snapshot + m.flow.drained
    && multiset(m.flow.restored) + m.flow.received
       == multiset(m.dispatcher.orders) + m.flow.taken
          + ReaderHand(m.reader) + multiset(m.pending[|m.flow.snapshot|..])
  }

  lemma SavedListIsComplete(cfg: Config, m: Memory)
    requires PoolInv(cfg, m) && m.dispatcher.Saving?
    ensures ListIsComplete(m)
  {
    var late := m.pending[|m.flow.snapshot|..];
    assert m.pending == m.flow.snapshot + late;
    assert multiset(m.pending) == multiset(m.flow.snapshot) + multiset(late);
    assert multiset(m.dispatcher.orders) == multiset(m.flow.snapshot) + multiset(m.flow.drained);
  }

  lemma DumpEndKeepsInv(cfg: Config, m: Memory)
    requires PoolInv(cfg, m) && m.dispatcher.Saving?
    ensures PoolInv(cfg, DumpEnds(m))
  {
    assert Held(m.dispatcher, m.pending) == Held(DispatcherDone, m.pending);
  }

  // ---------------------------------------------------------------- the stack

  /** What lies on the stack stays there under whatever comes on it, until the dispatcher
      takes its topmost task as the top of the whole stack. */
  lemma OnlyTheTopIsTaken(cfg: Config, m: Memory, e: Event, base: seq<Order>, task: Order)
    requires Enabled(cfg, m, e) && base + [task] <= m.pending
    ensures var m' := Next(cfg, m, e);
            || base + [task] <= m'.pending
            || (&& e == Dispatches(Looks) && m.pending == base + [task]
                && m'.dispatcher == Sending(task) && m'.pending == base)
  {
    if e == Dispatches(Looks) {
      var under, last := base + [task], |m.pending| - 1;
      assert |under| <= last ==> m.pending[..last][..|under|] == under;
    } else {
      OthersOnlyAppend(cfg, m, e);
    }
  }

  lemma OthersOnlyAppend(cfg: Config, m: Memory, e: Event)
    requires Enabled(cfg, m, e) && e != Dispatches(Looks)
    ensures m.pending <= Next(cfg, m, e).pending
  {
    if e.Dispatches? { DispatcherOnlyAppends(cfg, m, e.d); }
  }

  lemma DispatcherOnlyAppends(cfg: Config, m: Memory, e: DispatcherEvent)
    requires DispatcherMay(cfg, m, e) && !e.Looks?
    ensures m.pending <= DispatcherNext(cfg, m, e).pending
  {
    if Quiet(e) { QuietStepsMoveNothing(cfg, m, e); }
  }

  /** After the snapshot the dispatcher never looks at the stack again, and nobody else takes
      from it: what is or comes on it is dead. */
  lemma StackIsDeadAfterSnapshot(cfg: Config, m: Memory, e: Event)
    requires Enabled(cfg, m, e) && !BeforeSnapshot(m.dispatcher)
    ensures var m' := Next(cfg, m, e); !BeforeSnapshot(m'.dispatcher) && m.pending <= m'.pending
  {
    if e.Dispatches? {
      assert e.d == Drains;
    }
  }

  // ---------------------------------------------------- closing and draining workerCh

  lemma {:induction false} NoneRunning(workers: seq<Worker>, i: nat)
    requires Running(workers) == 0 && i < |workers|
    ensures workers[i].WorkerDone?
  {
    var n := |workers| - 1;
    assert Mark(workers[n]) == multiset{} && Gather(workers[..n], Mark) == multiset{};
    if i < n {
      NoneRunning(workers[..n], i);
    }
  }

  /** `workerCh` is closed only after reader, dispatcher and all workers have returned; so no
      send can meet a closed channel, and the drain loop never sees one. */
  lemma ClosedOnlyAfterAllReturned(cfg: Config, m: Memory)
    requires PoolInv(cfg, m) && m.stop.workerClosed
    ensures m.reader.ReaderDone? && m.dispatcher.DispatcherDone?
    ensures forall i :: 0 <= i < |m.workers| ==> m.workers[i].WorkerDone?
  {
    forall i | 0 <= i < |m.workers|
      ensures m.workers[i].WorkerDone?
    {
      NoneRunning(m.workers, i);
    }
  }

  /** While the dispatcher drains, nobody else sends on `workerCh`: each of its own steps
      shortens the channel, or ends the loop at an empty one, and no other step lengthens it. */
  lemma DrainTerminates(cfg: Config, m: Memory, e: Event)
    requires PoolInv(cfg, m) && m.dispatcher.Draining? && Enabled(cfg, m, e)
    ensures !m.stop.workerClosed
    ensures var m' := Next(cfg, m, e);
            && |m'.workerCh| <= |m.workerCh|
            && (e.Dispatches? ==>
                  || (m'.dispatcher == Saving(m.dispatcher.orders) && m.workerCh == [] == m'.workerCh)
                  || (m'.dispatcher.Draining? && |m'.workerCh| < |m.workerCh|))
            && (!e.Dispatches? ==> m'.dispatcher == m.dispatcher)
  {
    assert !m.stop.workerClosed by {
      if m.stop.workerClosed { ClosedOnlyAfterAllReturned(cfg, m); }
    }
    if e.Dispatches? {
      assert e.d == Drains;
    } else {
      OthersDoNotSend(cfg, m, e);
    }
  }

  lemma OthersDoNotSend(cfg: Config, m: Memory, e: Event)
    requires Enabled(cfg, m, e) && !e.Dispatches?
    ensures |Next(cfg, m, e).workerCh| <= |m.workerCh| && Next(cfg, m, e).dispatcher == m.dispatcher
  {
  }
}
