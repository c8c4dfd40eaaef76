/** The order service's methods do what the system's steps do: one task, and one upload, taken
    step by step in System with nothing but transactions of others in between, leave the
    tables and channels, and give the answer, that the methods of Service promise. */
module Agreement {
  import opened Digits
  import opened Orders
  import opened TxRetry
  import opened Ledger
  import opened System
  import opened Storage
  import opened Attempts
  import Service
  import Pool

  /** The channel to the queue reader as the service sees it; `waits` says that the reader
      has reached its receive. */
  function LinkOf(cfg: Settings, m: Pool.Memory, waits: bool): Service.Link {
    Service.Link(cfg.pool.linkSize, m.linkCh, waits, [])
  }

  /** From `m` to `m'` the channel came to `link`: what was handed over is in the reader's
      hand, and counts as received. */
  predicate LinkCameTo(m: Pool.Memory, m': Pool.Memory, link: Service.Link) {
    && m'.linkCh == link.buffer
    && match |link.handed|
       case 0 => m'.reader == m.reader && m'.flow == m.flow
       case 1 =>
         && m'.reader == Pool.Appending(link.handed[0])
         && m'.flow == m.flow.(received := m.flow.received + multiset{link.handed[0]})
       case _ => false
  }

  lemma OffersAgree(cfg: Settings, m: Pool.Memory, task: Order, direct: bool)
    requires direct ==> Pool.CanOfferDirectly(m)
    ensures LinkCameTo(m, Pool.Offered(cfg.pool, m, task, direct), Service.Offered(LinkOf(cfg, m, direct), task))
  {
  }

  // ---------------------------------------------------------------------- one task

  /** The requeue, if the worker has come to it. */
  function Requeued(cfg: Settings, s: State, i: nat, direct: bool): State
    requires HasWorker(s, i) && (direct ==> Pool.CanOfferDirectly(s.process.value))
  {
    if s.process.value.workers[i].Requeueing? then OfferFromWorker(cfg, s, i, direct) else s
  }

  /** The steps of one task, from its reply on. */
  function TaskInSteps(cfg: Settings, s: State, i: nat, reply: Reply, env: TxEnv, direct: bool): State
    requires HasWorker(s, i) && s.process.value.workers[i].Asking?
    requires direct ==> Pool.CanOfferDirectly(s.process.value)
  {
    var s1 := React(cfg, s, i, reply);
    if !Up(s1) then s1
    else
      match s1.process.value.workers[i]
      case Pausing(_, _) => Requeued(cfg, SendPause(s1, i), i, direct)
      case Writing(_, _, _) =>
        var (t, w) := WriteLoop(s1.tables, s1.process.value.workers[i], env);
        Requeued(cfg, WorkerMoves(s1, i, w).(tables := t), i, direct)
      case _ => Requeued(cfg, s1, i, direct)
  }

  /** A worker that has reached its requeue, or has nothing to do any more, and then no task. */
  lemma RequeueAgrees(cfg: Settings, s: State, i: nat, direct: bool)
    requires HasWorker(s, i) && (direct ==> Pool.CanOfferDirectly(s.process.value))
    requires !s.process.value.stop.linkClosed
    requires s.process.value.workers[i].Idle? || s.process.value.workers[i].Requeueing?
    ensures var m := s.process.value;
            var s' := Requeued(cfg, s, i, direct);
            && Up(s') && s'.tables == s.tables && s'.process.value.pauseCh == m.pauseCh
            && s'.process.value.workers == m.workers[i := Pool.Idle]
            && LinkCameTo(m, s'.process.value,
                          if m.workers[i].Idle? then LinkOf(cfg, m, direct)
                          else Service.Offered(LinkOf(cfg, m, direct), m.workers[i].task))
  {
    var m := s.process.value;
    if m.workers[i].Requeueing? {
      OffersAgree(cfg, Pool.WorkerMoves(m, i, Pool.Idle), m.workers[i].task, direct);
    } else {
      assert m.workers[i := Pool.Idle] == m.workers;
    }
  }

  /** Only the worker, and perhaps the pause channel, differ from where the task began. */
  predicate SameQueue(m: Pool.Memory, m': Pool.Memory, i: nat) {
    && i < |m.workers| && i < |m'.workers|
    && m'.linkCh == m.linkCh && m'.reader == m.reader && m'.flow == m.flow && m'.stop == m.stop
    && m'.workers == m.workers[i := m'.workers[i]]
  }

  lemma RequeueAgreesFrom(cfg: Settings, m: Pool.Memory, s: State, i: nat, direct: bool)
    requires HasWorker(s, i) && SameQueue(m, s.process.value, i)
    requires !m.stop.linkClosed && (direct ==> Pool.CanOfferDirectly(m))
    requires s.process.value.workers[i].Idle? || s.process.value.workers[i].Requeueing?
    ensures var w := s.process.value.workers[i];
            var s' := Requeued(cfg, s, i, direct);
            && Up(s') && s'.tables == s.tables && s'.process.value.pauseCh == s.process.value.pauseCh
            && s'.process.value.workers == m.workers[i := Pool.Idle]
            && LinkCameTo(m, s'.process.value,
                          if w.Idle? then LinkOf(cfg, m, direct) else Service.Offered(LinkOf(cfg, m, direct), w.task))
  {
    RequeueAgrees(cfg, s, i, direct);
    assert m.workers[i := s.process.value.workers[i]][i := Pool.Idle] == m.workers[i := Pool.Idle];
  }

  /** Where the task stands before its requeue, by the decision on the reply. */
  function BeforeRequeue(s: State, i: nat, plan: Plan, env: TxEnv): State
    requires HasWorker(s, i) && s.process.value.workers[i].Asking? && !plan.Crash?
  {
    var task := s.process.value.workers[i].task;
    var s1 := WorkerMoves(s, i, Follow(task, plan));
    match plan
    case PauseAndRequeue(_) => SendPause(s1, i)
    case Write(_) =>
      var after := WriteLoop(s.tables, Pool.Writing(task, plan.order, 0), env);
      WorkerMoves(s1, i, after.1).(tables := after.0)
    case _ => s1
  }

  lemma BeforeRequeueAgrees(s: State, i: nat, plan: Plan, env: TxEnv)
    requires |env| == 3 && !plan.Crash?
    requires HasWorker(s, i) && s.process.value.workers[i].Asking?
    ensures var m, s' := s.process.value, BeforeRequeue(s, i, plan, env);
            && HasWorker(s', i) && SameQueue(m, s'.process.value, i)
            && match plan
               case Write(_) =>
                 var end := Loop(s.tables, UpdateBody(plan.order), env);
                 && s'.tables == end.db && s'.process.value.pauseCh == m.pauseCh
                 && s'.process.value.workers[i] == AfterUpdate(plan.order, end.err)
               case PauseAndRequeue(delay) =>
                 && s'.tables == s.tables
                 && s'.process.value.pauseCh == (if m.pauseCh == [] then [delay] else m.pauseCh)
                 && s'.process.value.workers[i] == Pool.Requeueing(m.workers[i].task)
               case Requeue =>
                 && s'.tables == s.tables && s'.process.value.pauseCh == m.pauseCh
                 && s'.process.value.workers[i] == Pool.Requeueing(m.workers[i].task)
               case Drop =>
                 && s'.tables == s.tables && s'.process.value.pauseCh == m.pauseCh
                 && s'.process.value.workers[i] == Pool.Idle
  {
    if plan.Write? {
      WriteIsTheLoop(s.tables, Pool.Writing(s.process.value.workers[i].task, plan.order, 0), env);
    }
  }

  lemma StepsBeforeRequeue(cfg: Settings, s: State, i: nat, reply: Reply, env: TxEnv, direct: bool)
    requires HasWorker(s, i) && s.process.value.workers[i].Asking?
    requires direct ==> Pool.CanOfferDirectly(s.process.value)
    ensures var plan := Decide(cfg.skipRepeats, s.process.value.workers[i].task, reply);
            TaskInSteps(cfg, s, i, reply, env, direct)
            == if plan.Crash? then Crashed(s) else Requeued(cfg, BeforeRequeue(s, i, plan, env), i, direct)
  {
  }

  /** The steps of one task, composed, are ProcessAccrualTask. */
  lemma TaskStepsAgree(cfg: Settings, s: State, i: nat, reply: Reply, env: TxEnv, direct: bool)
    requires cfg.skipRepeats && |env| == 3
    requires HasWorker(s, i) && s.process.value.workers[i].Asking? && !s.process.value.stop.linkClosed
    requires direct ==> Pool.CanOfferDirectly(s.process.value)
    ensures var m := s.process.value;
            var s' := TaskInSteps(cfg, s, i, reply, env, direct);
            var (tables, link, pauses, result) :=
              Service.AfterTask(s.tables, LinkOf(cfg, m, direct), m.pauseCh, m.workers[i].task, reply, env);
            && s'.tables == tables
            && (Up(s') <==> result != Service.Panicked)
            && (Up(s') ==>
                  && LinkCameTo(m, s'.process.value, link)
                  && s'.process.value.pauseCh == pauses
                  && s'.process.value.workers == m.workers[i := Pool.Idle])
  {
    var m := s.process.value;
    var plan := Decide(true, m.workers[i].task, reply);
    StepsBeforeRequeue(cfg, s, i, reply, env, direct);
    if !plan.Crash? {
      BeforeRequeueAgrees(s, i, plan, env);
      RequeueAgreesFrom(cfg, m, BeforeRequeue(s, i, plan, env), i, direct);
    }
  }

  // -------------------------------------------------------------------- one upload

  /** The steps of one upload, from the call on. */
  function UploadInSteps(cfg: Settings, s: State, id: string, user: string, env: TxEnv,
                         lookups: seq<Read<Tables>>, direct: bool): State
    requires Up(s) && lookups != [] && (direct ==> Pool.CanOfferDirectly(s.process.value))
  {
    var c, call := |s.calls|, NewCall(id, user);
    var s1 := s.(calls := s.calls + [call]);
    var (t, phase) := InsertLoop(s.tables, call.order, call.phase, env);
    var s2 := CallMoves(s1, c, phase).(tables := t);
    if phase.LookingUp? then
      var last := LastRead(lookups);
      var met := TablesMet(t, lookups, last + 1);
      CallMoves(s2, c, LookedUp(met, call.order, lookups[last].failure.Some?)).(tables := met)
    else if phase.Offering? then OfferFromCall(cfg, s2, c, direct)
    else s2
  }

  lemma UploadStepsAgree(cfg: Settings, s: State, id: string, user: string, env: TxEnv,
                         lookups: seq<Read<Tables>>, direct: bool)
    requires Up(s) && !s.process.value.stop.linkClosed && Fair(env) && FairReads(lookups)
    requires direct ==> Pool.CanOfferDirectly(s.process.value)
    ensures var m := s.process.value;
            var s' := UploadInSteps(cfg, s, id, user, env, lookups, direct);
            var (tables, link, answer) :=
              Service.AfterStore(s.tables, LinkOf(cfg, m, direct), id, user, env, lookups);
            && s'.tables == tables && Up(s')
            && s'.calls == s.calls + [Call(Order(id, user, New, 0), Answered(answer))]
            && LinkCameTo(m, s'.process.value, link)
  {
    var call := NewCall(id, user);
    if call.phase.Inserting? {
      InsertIsTheLoop(s.tables, call.order, call.phase, env);
    }
  }
}
