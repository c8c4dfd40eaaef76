/** The whole service as one transition system: uploads, the worker pool, the tables, the dump
    file, crashes and restarts, in any interleaving.

    One event is one atomic action: a transaction attempt, a channel operation, a critical
    section. Replies, failures, timing and the outcome of every commit are chosen by the
    environment through the event's arguments. */
module System {
  import opened Digits
  import opened Orders
  import opened TxRetry
  import opened Ledger
  import opened Luhn
  import opened DumpFile
  import Pool

  datatype Settings = Settings(pool: Pool.Config, skipRepeats: bool)

  /** How a call of Store ends; `Lost` is a call cut off by the end of the process. */
  datatype Answer = Accepted | AlreadyYours | AnotherUsers | WrongFormat | Refused | Broken | Lost

  datatype Phase = Inserting(attempt: nat) | LookingUp | Offering | Answered(answer: Answer)

  /** One call of Store, with the order it made. */
  datatype Call = Call(order: Order, phase: Phase)

  /** `calls` keeps every call ever made, answered or not. */
  datatype State = State(
    tables: Tables,
    calls: seq<Call>,
    file: seq<Order>,
    process: Option<Pool.Memory>)

  const INITIAL := State(EMPTY_TABLES, [], [], None)

  // ------------------------------------------------------------------ environment

  /** One attempt of a transaction: it does not begin, is hit by an error, or its body runs
      to the end and a commit is tried. */
  datatype TxAttempt =
    | BeginFails
    | Hit(retriable: bool, cancelled: bool)
    | Completes(commit: Commit)

  datatype Event =
    | Register(user: string)
    | Withdraw(withdrawal: Withdrawal)
    | StoreBegins(id: string, user: string)
    | InsertAttempted(call: nat, tx: TxAttempt)
    | LookupAttempted(call: nat, fails: bool)
    | CallOffers(call: nat, direct: bool)
    | InPool(e: Pool.Event)
    | Replied(worker: nat, reply: Reply)
    | PauseSent(worker: nat)
    | WriteAttempted(worker: nat, tx: TxAttempt)
    | WorkerOffers(worker: nat, direct: bool)
    | Saves(save: SaveOutcome)
    | Crashes
    | Boots(boot: BootOutcome)

  // ------------------------------------------------------------------------ steps

  predicate Up(s: State) {
    s.process.Some?
  }

  predicate InPhase(s: State, c: nat) {
    Up(s) && c < |s.calls| && !s.calls[c].phase.Answered?
  }

  predicate HasWorker(s: State, i: nat) {
    Up(s) && i < |s.process.value.workers|
  }

  predicate Enabled(cfg: Settings, s: State, e: Event) {
    match e
    case Register(user) => Up(s) && AddUserTx(s.tables, user).Done?
    case Withdraw(w) => Up(s) && ValidNumber(w.order) && FitsInt64(w.sum) && AddWithdrawnTx(s.tables, w).Done?
    case StoreBegins(_, _) => Up(s)
    case InsertAttempted(c, _) => InPhase(s, c) && s.calls[c].phase.Inserting?
    case LookupAttempted(c, _) => InPhase(s, c) && s.calls[c].phase.LookingUp?
    case CallOffers(c, direct) =>
      InPhase(s, c) && s.calls[c].phase.Offering? && (direct ==> Pool.CanOfferDirectly(s.process.value))
    case InPool(pe) => Up(s) && Pool.Enabled(cfg.pool, s.process.value, pe)
    case Replied(i, _) => HasWorker(s, i) && s.process.value.workers[i].Asking?
    case PauseSent(i) => HasWorker(s, i) && s.process.value.workers[i].Pausing?
    case WriteAttempted(i, _) => HasWorker(s, i) && s.process.value.workers[i].Writing?
    case WorkerOffers(i, direct) =>
      && HasWorker(s, i) && s.process.value.workers[i].Requeueing?
      && (direct ==> Pool.CanOfferDirectly(s.process.value))
    case Saves(_) => Up(s) && s.process.value.dispatcher.Saving?
    case Crashes => Up(s)
    case Boots(_) => !Up(s)
  }

  function Apply(cfg: Settings, s: State, e: Event): State
    requires Enabled(cfg, s, e)
  {
    match e
    case Register(user) => s.(tables := AddUserTx(s.tables, user).state)
    case Withdraw(w) => s.(tables := AddWithdrawnTx(s.tables, w).state)
    case StoreBegins(id, user) => s.(calls := s.calls + [NewCall(id, user)])
    case InsertAttempted(c, tx) => AttemptInsert(s, c, tx)
    case LookupAttempted(c, fails) => CallMoves(s, c, LookedUp(s.tables, s.calls[c].order, fails))
    case CallOffers(c, direct) => OfferFromCall(cfg, s, c, direct)
    case InPool(pe) => s.(process := Some(Pool.Next(cfg.pool, s.process.value, pe)))
    case Replied(i, reply) => React(cfg, s, i, reply)
    case PauseSent(i) => SendPause(s, i)
    case WriteAttempted(i, tx) => AttemptWrite(s, i, tx)
    case WorkerOffers(i, direct) => OfferFromWorker(cfg, s, i, direct)
    case Saves(save) => SaveDump(s, save)
    case Crashes => Crashed(s)
    case Boots(boot) => Booted(cfg, s, boot)
  }

  // ------------------------------------------------------------------------ uploads

  /** Store up to the insert: the Luhn check, NewOrder and Validate. */
  function NewCall(id: string, user: string): Call {
    var order := Order(id, user, New, 0);
    if !ValidNumber(id) then Call(order, Answered(WrongFormat))
    else if !Valid(order) then Call(order, Answered(Refused))
    else Call(order, Inserting(0))
  }

  function CallMoves(s: State, c: nat, phase: Phase): State
    requires c < |s.calls|
  {
    s.(calls := s.calls[c := s.calls[c].(phase := phase)])
  }

  /** One attempt of AddOrder: the tables and the phase it leaves. */
  function AfterInsert(t: Tables, o: Order, attempt: nat, tx: TxAttempt): (Tables, Phase) {
    match tx
    case BeginFails => (t, Answered(Broken))
    case Hit(retriable, cancelled) =>
      if retriable && !cancelled && attempt + 1 < RETRYING_ATTEMPTS then (t, Inserting(attempt + 1))
      else (t, Answered(Broken))
    case Completes(commit) =>
      match AddOrderTx(t, o)
      case Failed(_, _) => (t, LookingUp)
      case Done(t') =>
        match commit
        case Committed => (t', Offering)
        case AppliedButFailed => (t', Answered(Broken))
        case NotApplied => (t, Answered(Broken))
  }

  function AttemptInsert(s: State, c: nat, tx: TxAttempt): State
    requires c < |s.calls| && s.calls[c].phase.Inserting?
  {
    var (tables, phase) := AfterInsert(s.tables, s.calls[c].order, s.calls[c].phase.attempt, tx);
    CallMoves(s, c, phase).(tables := tables)
  }

  function LookedUp(tables: Tables, order: Order, fails: bool): Phase {
    if fails then Answered(Broken)
    else if GetOrderRow(tables, order.id, order.user).Some? then Answered(AlreadyYours)
    else Answered(AnotherUsers)
  }

  /** A send on the closed `linkCh` panics; the router's Recoverer turns that into the answer
      of a server error, the row stays and the task is lost. */
  function OfferFromCall(cfg: Settings, s: State, c: nat, direct: bool): State
    requires Up(s) && c < |s.calls| && (direct ==> Pool.CanOfferDirectly(s.process.value))
  {
    var m := s.process.value;
    if m.stop.linkClosed then CallMoves(s, c, Answered(Broken))
    else CallMoves(s, c, Answered(Accepted)).(
           process := Some(Pool.Offered(cfg.pool, m, s.calls[c].order, direct)))
  }

  // ------------------------------------------------------------------------ workers

  function WorkerMoves(s: State, i: nat, w: Pool.Worker): State
    requires HasWorker(s, i)
  {
    s.(process := Some(Pool.WorkerMoves(s.process.value, i, w)))
  }

  function React(cfg: Settings, s: State, i: nat, reply: Reply): State
    requires HasWorker(s, i) && s.process.value.workers[i].Asking?
  {
    var task := s.process.value.workers[i].task;
    var plan := Decide(cfg.skipRepeats, task, reply);
    if plan.Crash? then Crashed(s) else WorkerMoves(s, i, Follow(task, plan))
  }

  function Follow(task: Order, plan: Plan): Pool.Worker {
    match plan
    case Drop => Pool.Idle
    case PauseAndRequeue(delay) => Pool.Pausing(task, delay)
    case Requeue => Pool.Requeueing(task)
    case Write(order) => Pool.Writing(task, order, 0)
    case Crash => Pool.Idle
  }

  function SendPause(s: State, i: nat): State
    requires HasWorker(s, i) && s.process.value.workers[i].Pausing?
  {
    var w := s.process.value.workers[i];
    s.(process := Some(Pool.WorkerMoves(Pool.PauseOffered(s.process.value, w.delay), i, Pool.Requeueing(w.task))))
  }

  /** One attempt of UpdateOrder: the tables it leaves and what the worker does next. */
  function AfterWrite(t: Tables, w: Pool.Worker, tx: TxAttempt): (Tables, Pool.Worker)
    requires w.Writing?
  {
    match tx
    case BeginFails => (t, Pool.Idle)
    case Hit(retriable, cancelled) =>
      if retriable && !cancelled && w.attempt + 1 < RETRYING_ATTEMPTS then (t, w.(attempt := w.attempt + 1))
      else (t, Pool.Idle)
    case Completes(commit) =>
      match UpdateOrderTx(t, w.order)
      case Failed(_, _) => (t, Pool.Idle)
      case Done(t') =>
        match commit
        case Committed => (t', if w.order.status == Processing then Pool.Requeueing(w.order) else Pool.Idle)
        case AppliedButFailed => (t', Pool.Idle)
        case NotApplied => (t, Pool.Idle)
  }

  function AttemptWrite(s: State, i: nat, tx: TxAttempt): State
    requires HasWorker(s, i) && s.process.value.workers[i].Writing?
  {
    var (tables, w) := AfterWrite(s.tables, s.process.value.workers[i], tx);
    WorkerMoves(s, i, w).(tables := tables)
  }

  /** In a worker nothing recovers the panic of a send on the closed `linkCh`: the process ends. */
  function OfferFromWorker(cfg: Settings, s: State, i: nat, direct: bool): State
    requires HasWorker(s, i) && s.process.value.workers[i].Requeueing?
    requires direct ==> Pool.CanOfferDirectly(s.process.value)
  {
    var m := s.process.value;
    if m.stop.linkClosed then Crashed(s)
    else s.(process := Some(Pool.Offered(cfg.pool, Pool.WorkerMoves(m, i, Pool.Idle), m.workers[i].task, direct)))
  }

  // ---------------------------------------------------------- dump, crash, restart

  function SaveDump(s: State, save: SaveOutcome): State
    requires Up(s) && s.process.value.dispatcher.Saving?
  {
    s.(file := FileAfterSave(s.file, s.process.value.dispatcher.orders, save),
       process := Some(Pool.DumpEnds(s.process.value)))
  }

  function Cut(c: Call): Call {
    if c.phase.Answered? then c else c.(phase := Answered(Lost))
  }

  /** The end of the process, at any point: only the tables and the file stay. */
  function Crashed(s: State): State {
    s.(process := None, calls := seq(|s.calls|, i requires 0 <= i < |s.calls| => Cut(s.calls[i])))
  }

  /** RestoreQueue, then Start. */
  function Booted(cfg: Settings, s: State, boot: BootOutcome): State {
    var (file, restored) := AfterRestore(s.file, boot);
    s.(file := file, process := Some(Pool.Started(cfg.pool, restored)))
  }

  // ------------------------------------------------------------------------ runs

  /** `s'` is reached from `s` by the events in order. */
  ghost predicate Reaches(cfg: Settings, s: State, events: seq<Event>, s': State)
    decreases |events|
  {
    if events == [] then s' == s
    else Enabled(cfg, s, events[0]) && Reaches(cfg, Apply(cfg, s, events[0]), events[1..], s')
  }

  lemma {:induction false} ReachesJoins(cfg: Settings, a: State, es: seq<Event>, b: State, fs: seq<Event>, c: State)
    requires Reaches(cfg, a, es, b) && Reaches(cfg, b, fs, c)
    ensures Reaches(cfg, a, es + fs, c)
    decreases |es|
  {
    if es == [] {
      assert es + fs == fs;
    } else {
      ReachesJoins(cfg, Apply(cfg, a, es[0]), es[1..], b, fs, c);
      assert (es + fs)[1..] == es[1..] + fs;
    }
  }
}
