/** What can happen next: which goroutine waits for what, and that a shutdown can always come to
    its end. Nothing here says that it does; that would need fair scheduling. */
module Progress {
  import opened Digits
  import opened Orders
  import opened Ledger
  import opened Luhn
  import opened DumpFile
  import opened System
  import opened Safety
  import opened Theorems
  import opened Flows
  import Pool

  /** The dispatcher's own act in `s`, if it has one. */
  ghost predicate DispatcherCanAct(cfg: Settings, s: State) {
    (exists d :: Enabled(cfg, s, Act(d))) || Enabled(cfg, s, Saves(Saved))
  }

  lemma CanActBy(cfg: Settings, s: State, d: Pool.DispatcherEvent)
    requires Enabled(cfg, s, Act(d))
    ensures DispatcherCanAct(cfg, s)
  {
  }

  /** A worker stands at its receive. */
  ghost predicate SomeIdle(m: Pool.Memory) {
    exists i :: 0 <= i < |m.workers| && m.workers[i].Idle?
  }

  lemma OuterSelectBlocks(cfg: Settings, s: State)
    requires Up(s) && s.process.value.dispatcher.Waiting?
    ensures var m := s.process.value;
            DispatcherCanAct(cfg, s) <==> m.stop.cancelled || m.pauseCh != [] || m.hasTasks
  {
    var m := s.process.value;
    if m.stop.cancelled { CanActBy(cfg, s, Pool.Stops); }
    if m.pauseCh != [] { CanActBy(cfg, s, Pool.Pauses); }
    if m.hasTasks { CanActBy(cfg, s, Pool.Wakes); }
  }

  lemma InnerSelectBlocks(cfg: Settings, s: State)
    requires Up(s) && s.process.value.dispatcher.Sending?
    ensures var m := s.process.value;
            DispatcherCanAct(cfg, s) <==>
              || m.stop.cancelled || m.pauseCh != [] || |m.workerCh| < cfg.pool.bufSize
              || (m.workerCh == [] && SomeIdle(m))
  {
    var m := s.process.value;
    if m.stop.cancelled { CanActBy(cfg, s, Pool.GivesUp); }
    if m.pauseCh != [] { CanActBy(cfg, s, Pool.Yields); }
    if |m.workerCh| < cfg.pool.bufSize { CanActBy(cfg, s, Pool.Sends); }
    if i :| m.workerCh == [] && 0 <= i < |m.workers| && m.workers[i].Idle? { CanActBy(cfg, s, Pool.Hands(i)); }
  }

  /** The dispatcher is blocked only at its two selects: at the outer one without a signal, a
      delay or the end of the context, at the inner one with a full channel, nobody to take
      the task, no delay and no end; and when it has returned. */
  lemma DispatcherBlocks(cfg: Settings, s: State)
    requires Up(s)
    ensures var m := s.process.value;
            DispatcherCanAct(cfg, s) <==>
              match m.dispatcher
              case Waiting => m.stop.cancelled || m.pauseCh != [] || m.hasTasks
              case Sending(_) =>
                || m.stop.cancelled || m.pauseCh != [] || |m.workerCh| < cfg.pool.bufSize
                || (m.workerCh == [] && SomeIdle(m))
              case DispatcherDone => false
              case _ => true
  {
    match s.process.value.dispatcher
    case Waiting => OuterSelectBlocks(cfg, s);
    case Sending(_) => InnerSelectBlocks(cfg, s);
    case Sleeping(_) => CanActBy(cfg, s, Pool.Rises);
    case Looking => CanActBy(cfg, s, Pool.Looks);
    case PushingBack(_, _) => CanActBy(cfg, s, Pool.PushesBack);
    case Snapshotting => CanActBy(cfg, s, Pool.Snapshots);
    case Draining(_) => CanActBy(cfg, s, Pool.Drains);
    case _ =>
  }

  /** The reader is blocked only at its select, with nothing to receive, the channel open and
      the context not done; and when it has returned. */
  lemma ReaderBlocks(cfg: Settings, s: State)
    requires Up(s)
    ensures var m := s.process.value;
            (exists r :: Enabled(cfg, s, InPool(Pool.Reads(r)))) <==>
              match m.reader
              case Receiving => m.linkCh != [] || m.stop.cancelled || m.stop.linkClosed
              case ReaderDone => false
              case _ => true
  {
    var m := s.process.value;
    match m.reader
    case Receiving =>
      if m.linkCh != [] {
        assert Enabled(cfg, s, InPool(Pool.Reads(Pool.Receives)));
      } else if m.stop.cancelled || m.stop.linkClosed {
        assert Enabled(cfg, s, InPool(Pool.Reads(Pool.ReaderQuits)));
      }
    case Appending(_) => assert Enabled(cfg, s, InPool(Pool.Reads(Pool.Appends)));
    case Signalling => assert Enabled(cfg, s, InPool(Pool.Reads(Pool.Signals)));
    case ReaderDone =>
  }

  /** An idle worker is blocked only with nothing to take, the channel open and the context not
      done; and one with a task never is. */
  lemma WorkerBlocks(cfg: Settings, s: State, i: nat)
    requires HasWorker(s, i)
    ensures var m, w := s.process.value, s.process.value.workers[i];
            && (w.Idle? ==>
                  ((exists e :: Enabled(cfg, s, InPool(Pool.Works(i, e)))) <==>
                     m.workerCh != [] || m.stop.cancelled || m.stop.workerClosed))
            && (w.Asking? ==> forall reply :: Enabled(cfg, s, Replied(i, reply)))
            && (w.Pausing? ==> Enabled(cfg, s, PauseSent(i)))
            && (w.Writing? ==> forall tx :: Enabled(cfg, s, WriteAttempted(i, tx)))
            && (w.Requeueing? ==> Enabled(cfg, s, WorkerOffers(i, false)))
  {
    var m := s.process.value;
    if m.workerCh != [] {
      assert m.workers[i].Idle? ==> Enabled(cfg, s, InPool(Pool.Works(i, Pool.Takes)));
    } else if m.stop.cancelled || m.stop.workerClosed {
      assert m.workers[i].Idle? ==> Enabled(cfg, s, InPool(Pool.Works(i, Pool.WorkerQuits)));
    }
  }

  /** A select takes any of its cases that is ready, and no other. */
  lemma SelectsTakeAnyReadyCase(cfg: Settings, s: State)
    requires Up(s)
    ensures var m := s.process.value;
            && (m.dispatcher.Waiting? ==>
                  && (Enabled(cfg, s, Act(Pool.Stops)) <==> m.stop.cancelled)
                  && (Enabled(cfg, s, Act(Pool.Pauses)) <==> m.pauseCh != [])
                  && (Enabled(cfg, s, Act(Pool.Wakes)) <==> m.hasTasks))
            && (m.dispatcher.Sending? ==>
                  && (Enabled(cfg, s, Act(Pool.Sends)) <==> |m.workerCh| < cfg.pool.bufSize)
                  && (Enabled(cfg, s, Act(Pool.Yields)) <==> m.pauseCh != [])
                  && (Enabled(cfg, s, Act(Pool.GivesUp)) <==> m.stop.cancelled))
            && (m.reader.Receiving? ==>
                  && (Enabled(cfg, s, InPool(Pool.Reads(Pool.Receives))) <==> m.linkCh != [])
                  && (Enabled(cfg, s, InPool(Pool.Reads(Pool.ReaderQuits)))
                      <==> m.stop.cancelled || (m.stop.linkClosed && m.linkCh == [])))
  {
  }

  /** The same for a worker at its receive, and for a task handed to it directly. */
  lemma WorkersTakeAnyReadyCase(cfg: Settings, s: State, i: nat)
    requires HasWorker(s, i) && s.process.value.workers[i].Idle?
    ensures var m := s.process.value;
            && (Enabled(cfg, s, InPool(Pool.Works(i, Pool.Takes))) <==> m.workerCh != [])
            && (Enabled(cfg, s, InPool(Pool.Works(i, Pool.WorkerQuits)))
                <==> m.stop.cancelled || (m.stop.workerClosed && m.workerCh == []))
            && (m.dispatcher.Sending? ==> (Enabled(cfg, s, Act(Pool.Hands(i))) <==> m.workerCh == []))
  {
  }

  /** A call that was not answered is never blocked; it hands its task over directly exactly
      when the reader waits at an empty channel. */
  lemma CallsCanGoOn(cfg: Settings, s: State, c: nat)
    requires Up(s) && c < |s.calls|
    ensures var m, phase := s.process.value, s.calls[c].phase;
            && (phase.Inserting? ==> forall tx :: Enabled(cfg, s, InsertAttempted(c, tx)))
            && (phase.LookingUp? ==> forall fails :: Enabled(cfg, s, LookupAttempted(c, fails)))
            && (phase.Offering? ==>
                  && Enabled(cfg, s, CallOffers(c, false))
                  && (Enabled(cfg, s, CallOffers(c, true)) <==> m.reader.Receiving? && m.linkCh == []))
  {
  }

  /** Uploads begin, processes end and start, contexts end and channels close in this order
      and no other, at any time. */
  lemma EnvironmentIsFree(cfg: Settings, s: State)
    ensures forall id, user :: Enabled(cfg, s, StoreBegins(id, user)) <==> Up(s)
    ensures Enabled(cfg, s, Crashes) <==> Up(s)
    ensures forall boot :: Enabled(cfg, s, Boots(boot)) <==> !Up(s)
    ensures Enabled(cfg, s, InPool(Pool.ParentEnds)) <==> Up(s)
    ensures Up(s) ==>
              var stop := s.process.value.stop;
              && (Enabled(cfg, s, InPool(Pool.Cancel)) <==> stop.parentDone)
              && (Enabled(cfg, s, InPool(Pool.CloseLink)) <==> stop.parentDone && !stop.linkClosed)
              && (Enabled(cfg, s, InPool(Pool.CloseWorkerCh)) <==> s.process.value.wg == 0 && !stop.workerClosed)
              && (forall save :: Enabled(cfg, s, Saves(save)) <==> s.process.value.dispatcher.Saving?)
  {
  }

  /** A send on the closed channel: an upload is answered "broken", its row and the process
      stay, its task is gone; a worker ends the process. */
  lemma SendOnClosedChannel(cfg: Settings, s: State)
    requires Up(s) && s.process.value.stop.linkClosed
    ensures forall c: nat, direct :: Enabled(cfg, s, CallOffers(c, direct)) ==>
              Apply(cfg, s, CallOffers(c, direct))
              == s.(calls := s.calls[c := s.calls[c].(phase := Answered(Broken))])
    ensures forall i: nat, direct :: Enabled(cfg, s, WorkerOffers(i, direct)) ==>
              var s' := Apply(cfg, s, WorkerOffers(i, direct));
              !Up(s') && s'.tables == s.tables && s'.file == s.file && |s'.calls| == |s.calls|
  {
  }

  /** A withdrawal can commit exactly when its order number passes the check and the balance
      strictly exceeds its sum; it then leaves its row and its debit, and nothing else. */
  lemma WithdrawalsThatCommit(cfg: Settings, s: State, w: Withdrawal)
    requires Reachable(cfg, s) && Up(s) && FitsInt64(w.sum)
    ensures Enabled(cfg, s, Withdraw(w)) <==>
              && ValidNumber(w.order) && w.user in s.tables.users
              && Balance(s.tables, w.user) > w.sum && FitsInt64(Balance(s.tables, w.user) - w.sum)
    ensures Enabled(cfg, s, Withdraw(w)) ==>
              Apply(cfg, s, Withdraw(w))
              == s.(tables := s.tables.(withdrawals := s.tables.withdrawals + [w],
                                        users := s.tables.users[w.user := s.tables.users[w.user] - w.sum]))
  {
    assert Sound(s.tables) by { ReachableIsGood(cfg, s); }
    WithdrawalIsGuarded(s.tables, w);
    if w.sum == INT64_MIN { assert Wrap64(-w.sum) == INT64_MIN; }
  }

  /** A user registers once, with nothing. */
  lemma RegistrationsThatCommit(cfg: Settings, s: State, user: string)
    requires Up(s)
    ensures Enabled(cfg, s, Register(user)) <==> user !in s.tables.users
    ensures Enabled(cfg, s, Register(user)) ==>
              Apply(cfg, s, Register(user)) == s.(tables := s.tables.(users := s.tables.users[user := 0]))
  {
  }

  // --------------------------------------------------------------- a shutdown can end

  /** The dispatcher's act towards its dump, once the context is done. */
  function Towards(d: Pool.Dispatcher): Pool.DispatcherEvent
    requires !d.Saving? && !d.DispatcherDone?
  {
    match d
    case Waiting => Pool.Stops
    case Sleeping(_) => Pool.Rises
    case Looking => Pool.Looks
    case Sending(_) => Pool.GivesUp
    case PushingBack(_, _) => Pool.PushesBack
    case Snapshotting => Pool.Snapshots
    case Draining(_) => Pool.Drains
  }

  function StepsLeft(m: Pool.Memory): nat {
    match m.dispatcher
    case PushingBack(_, shutdown) => |m.workerCh| + if shutdown then 3 else 8
    case Sleeping(_) => |m.workerCh| + 7
    case Looking => |m.workerCh| + 6
    case Sending(_) => |m.workerCh| + 4
    case Waiting => |m.workerCh| + 3
    case Snapshotting => |m.workerCh| + 2
    case Draining(_) => |m.workerCh| + 1
    case _ => 0
  }

  lemma ActTowards(cfg: Settings, s: State)
    requires Up(s) && s.process.value.stop.cancelled && !s.process.value.stop.workerClosed
    requires !s.process.value.dispatcher.Saving? && !s.process.value.dispatcher.DispatcherDone?
    ensures var e := Act(Towards(s.process.value.dispatcher));
            && Enabled(cfg, s, e) && Up(Apply(cfg, s, e))
            && Apply(cfg, s, e).process.value.stop == s.process.value.stop
            && StepsLeft(Apply(cfg, s, e).process.value) < StepsLeft(s.process.value)
            && !Apply(cfg, s, e).process.value.dispatcher.DispatcherDone?
  {
  }

  /** From every moment after the cancellation the dispatcher's own acts lead to the save. */
  lemma {:induction false} DispatcherCanDump(cfg: Settings, s: State) returns (events: seq<Event>, s': State)
    requires Up(s) && s.process.value.stop.cancelled && !s.process.value.stop.workerClosed
    requires !s.process.value.dispatcher.DispatcherDone?
    ensures Reaches(cfg, s, events, s') && StaysUp(cfg, s, events)
    ensures forall i :: 0 <= i < |events| ==> ByDispatcher(events[i])
    ensures Up(s') && s'.process.value.dispatcher.Saving?
    decreases StepsLeft(s.process.value)
  {
    if s.process.value.dispatcher.Saving? {
      events, s' := [], s;
    } else {
      var e := Act(Towards(s.process.value.dispatcher));
      ActTowards(cfg, s);
      var rest;
      rest, s' := DispatcherCanDump(cfg, Apply(cfg, s, e));
      events := [e] + rest;
      assert events[1..] == rest;
    }
  }

  /** In every reachable state of a process whose dispatcher has not returned, a shutdown can
      come to its end by the dispatcher alone: the context ends, and the list is saved. */
  lemma ShutdownCanEnd(cfg: Settings, s: State) returns (events: seq<Event>, s': State)
    requires Reachable(cfg, s) && Up(s) && !s.process.value.dispatcher.DispatcherDone?
    ensures Reaches(cfg, s, events, s') && StaysUp(cfg, s, events)
    ensures |events| >= 2 && events[0] == InPool(Pool.ParentEnds) && events[1] == InPool(Pool.Cancel)
    ensures forall i :: 2 <= i < |events| ==> ByDispatcher(events[i])
    ensures Up(s') && Enabled(cfg, s', Saves(Saved))
  {
    var s1 := Apply(cfg, s, InPool(Pool.ParentEnds));
    var s2 := Apply(cfg, s1, InPool(Pool.Cancel));
    assert !s.process.value.stop.workerClosed by {
      ReachableIsGood(cfg, s);
      if s.process.value.stop.workerClosed { Pool.ClosedOnlyAfterAllReturned(cfg.pool, s.process.value); }
    }
    var rest;
    rest, s' := DispatcherCanDump(cfg, s2);
    events := [InPool(Pool.ParentEnds), InPool(Pool.Cancel)] + rest;
    assert events[1..] == [InPool(Pool.Cancel)] + rest && events[1..][1..] == rest;
    assert Reaches(cfg, s1, events[1..], s') && StaysUp(cfg, s1, events[1..]);
  }
}
