/** What a run of one process does with tasks and signals, told by its events alone: the
    channels are first in, first out; and between two of its acts the dispatcher of a pause, of
    a shutdown or of an empty stack hands nothing out. */
module Flows {
  import opened Orders
  import opened Ledger
  import opened System
  import opened Safety
  import opened Theorems
  import Pool

  /** The dispatcher's act `d` as an event of the system. */
  function Act(d: Pool.DispatcherEvent): Event {
    InPool(Pool.Dispatches(d))
  }

  predicate ByDispatcher(e: Event) {
    e.InPool? && e.e.Dispatches?
  }

  predicate Never(events: seq<Event>, e: Event) {
    forall i :: 0 <= i < |events| ==> events[i] != e
  }

  predicate IsSuffix(xs: seq<Order>, ys: seq<Order>) {
    |xs| <= |ys| && ys[|ys| - |xs|..] == xs
  }

  // ------------------------------------------------------- linkCh: offers and the reader

  /** What comes into the reader's hand in one step. */
  function ComesIn(s: State, s': State): seq<Order> {
    if Up(s) && Up(s') && s.process.value.reader.Receiving? && s'.process.value.reader.Appending?
    then [s'.process.value.reader.task] else []
  }

  /** The task offered to `linkCh` by one event, if the channel takes it: the channel is open,
      and the reader waits or the buffer has room. */
  function Accepts(cfg: Settings, s: State, e: Event): seq<Order>
    requires Enabled(cfg, s, e) && Up(s)
  {
    var m := s.process.value;
    if m.stop.linkClosed then []
    else
      match e
      case CallOffers(c, direct) => if direct || |m.linkCh| < cfg.pool.linkSize then [s.calls[c].order] else []
      case WorkerOffers(i, direct) => if direct || |m.linkCh| < cfg.pool.linkSize then [m.workers[i].task] else []
      case _ => []
  }

  ghost function Received(cfg: Settings, s: State, events: seq<Event>): seq<Order>
    requires StaysUp(cfg, s, events)
    decreases |events|
  {
    if events == [] then []
    else
      var s1 := Apply(cfg, s, events[0]);
      ComesIn(s, s1) + Received(cfg, s1, events[1..])
  }

  ghost function Accepted(cfg: Settings, s: State, events: seq<Event>): seq<Order>
    requires StaysUp(cfg, s, events)
    decreases |events|
  {
    if events == [] then []
    else Accepts(cfg, s, events[0]) + Accepted(cfg, Apply(cfg, s, events[0]), events[1..])
  }

  lemma EventKeepsLinkOrder(cfg: Settings, s: State, e: Event)
    requires Enabled(cfg, s, e) && Up(s) && Up(Apply(cfg, s, e))
    ensures var s1 := Apply(cfg, s, e);
            ComesIn(s, s1) + s1.process.value.linkCh == s.process.value.linkCh + Accepts(cfg, s, e)
  {
    match e
    case InPool(pe) => PoolEventKeepsLinkOrder(cfg.pool, s.process.value, pe);
    case _ =>
  }

  lemma PoolEventKeepsLinkOrder(cfg: Pool.Config, m: Pool.Memory, e: Pool.Event)
    requires Pool.Enabled(cfg, m, e)
    ensures var m' := Pool.Next(cfg, m, e);
            (if m.reader.Receiving? && m'.reader.Appending? then [m'.reader.task] else []) + m'.linkCh == m.linkCh
  {
    if e.Dispatches? { DispatcherKeepsLink(cfg, m, e.d); }
  }

  lemma DispatcherKeepsLink(cfg: Pool.Config, m: Pool.Memory, e: Pool.DispatcherEvent)
    requires Pool.DispatcherMay(cfg, m, e)
    ensures Pool.DispatcherNext(cfg, m, e).linkCh == m.linkCh && Pool.DispatcherNext(cfg, m, e).reader == m.reader
  {
  }

  /** Over any run of a process, what came into the reader's hand and then what is left in
      `linkCh` is what was there and then what was accepted, in order. */
  lemma {:induction false} LinkIsFirstInFirstOut(cfg: Settings, s: State, events: seq<Event>, s': State)
    requires Reaches(cfg, s, events, s') && StaysUp(cfg, s, events)
    ensures Up(s')
    ensures Received(cfg, s, events) + s'.process.value.linkCh == s.process.value.linkCh + Accepted(cfg, s, events)
    decreases |events|
  {
    if events != [] {
      var s1 := Apply(cfg, s, events[0]);
      EventKeepsLinkOrder(cfg, s, events[0]);
      LinkIsFirstInFirstOut(cfg, s1, events[1..], s');
      Chained(s.process.value.linkCh, Accepts(cfg, s, events[0]), ComesIn(s, s1), s1.process.value.linkCh,
              Accepted(cfg, s1, events[1..]), Received(cfg, s1, events[1..]), s'.process.value.linkCh);
    }
  }

  lemma Chained(ch: seq<Order>, in1: seq<Order>, out1: seq<Order>, ch1: seq<Order>,
                in2: seq<Order>, out2: seq<Order>, ch2: seq<Order>)
    requires out1 + ch1 == ch + in1 && out2 + ch2 == ch1 + in2
    ensures (out1 + out2) + ch2 == ch + (in1 + in2)
  {
    calc {
      (out1 + out2) + ch2;
      out1 + (out2 + ch2);
      out1 + (ch1 + in2);
      (out1 + ch1) + in2;
      (ch + in1) + in2;
      ch + (in1 + in2);
    }
  }

  // -------------------------------------------- workerCh: the dispatcher and the workers

  /** The task that the dispatcher gives away in one event, to the channel or to a worker. */
  function GivesAway(cfg: Settings, s: State, e: Event): seq<Order>
    requires Enabled(cfg, s, e) && Up(s)
  {
    if ByDispatcher(e) && (e.e.d.Sends? || e.e.d.Hands?) then [s.process.value.dispatcher.task] else []
  }

  /** The task that leaves the channel, or passes it by, in one event: into a worker's hand, or
      onto the list of the dump. */
  function Takes(cfg: Settings, s: State, e: Event, s': State): seq<Order>
    requires Enabled(cfg, s, e) && Up(s)
  {
    if !e.InPool? || !Up(s') then []
    else
      var m, m' := s.process.value, s'.process.value;
      match e.e
      case Works(i, w) => if i < |m'.workers| && m'.workers[i].Asking? then [m'.workers[i].task] else []
      case Dispatches(Hands(i)) => if i < |m'.workers| && m'.workers[i].Asking? then [m'.workers[i].task] else []
      case Dispatches(Drains) =>
        if m'.dispatcher.Draining? && m'.dispatcher.orders != [] && m'.workerCh != m.workerCh
        then [m'.dispatcher.orders[|m'.dispatcher.orders| - 1]] else []
      case _ => []
  }

  ghost function Given(cfg: Settings, s: State, events: seq<Event>): seq<Order>
    requires StaysUp(cfg, s, events)
    decreases |events|
  {
    if events == [] then []
    else GivesAway(cfg, s, events[0]) + Given(cfg, Apply(cfg, s, events[0]), events[1..])
  }

  ghost function Taken(cfg: Settings, s: State, events: seq<Event>): seq<Order>
    requires StaysUp(cfg, s, events)
    decreases |events|
  {
    if events == [] then []
    else
      var s1 := Apply(cfg, s, events[0]);
      Takes(cfg, s, events[0], s1) + Taken(cfg, s1, events[1..])
  }

  lemma EventKeepsWorkOrder(cfg: Settings, s: State, e: Event)
    requires Enabled(cfg, s, e) && Up(s) && Up(Apply(cfg, s, e))
    ensures var s1 := Apply(cfg, s, e);
            Takes(cfg, s, e, s1) + s1.process.value.workerCh == s.process.value.workerCh + GivesAway(cfg, s, e)
  {
    if e.InPool? && e.e.Dispatches? && !e.e.d.Sends? && !e.e.d.Hands? && !e.e.d.Drains? {
      Pool.DispatcherKeepsOtherPlaces(cfg.pool, s.process.value, e.e.d);
    }
  }

  /** Over any run of a process, the tasks that came to workers or onto the dump's list, and
      then those left in `workerCh`, are those that were there and then those the dispatcher
      gave away, in order. */
  lemma {:induction false} WorkIsFirstInFirstOut(cfg: Settings, s: State, events: seq<Event>, s': State)
    requires Reaches(cfg, s, events, s') && StaysUp(cfg, s, events)
    ensures Up(s')
    ensures Taken(cfg, s, events) + s'.process.value.workerCh == s.process.value.workerCh + Given(cfg, s, events)
    decreases |events|
  {
    if events != [] {
      var s1 := Apply(cfg, s, events[0]);
      EventKeepsWorkOrder(cfg, s, events[0]);
      WorkIsFirstInFirstOut(cfg, s1, events[1..], s');
      Chained(s.process.value.workerCh, GivesAway(cfg, s, events[0]), Takes(cfg, s, events[0], s1),
              s1.process.value.workerCh, Given(cfg, s1, events[1..]), Taken(cfg, s1, events[1..]),
              s'.process.value.workerCh);
    }
  }

  // -------------------------------------------------- the dispatcher between two of its acts

  /** From `s` to `s'` nothing left the stack and nothing came into `workerCh`. */
  predicate HandsNothingOut(s: State, s': State) {
    && Up(s) && Up(s')
    && s.process.value.pending <= s'.process.value.pending
    && IsSuffix(s'.process.value.workerCh, s.process.value.workerCh)
  }

  lemma NothingOutTwice(a: State, b: State, c: State)
    requires HandsNothingOut(a, b) && HandsNothingOut(b, c)
    ensures HandsNothingOut(a, c)
  {
  }

  /** An event that is no act of the dispatcher leaves it where it is and takes no task off
      the stack, and at most takes the head of `workerCh`. */
  lemma OthersHandNothingOut(cfg: Settings, s: State, e: Event)
    requires Enabled(cfg, s, e) && Up(s) && Up(Apply(cfg, s, e))
    requires !ByDispatcher(e) && !e.Saves?
    ensures HandsNothingOut(s, Apply(cfg, s, e))
    ensures Apply(cfg, s, e).process.value.dispatcher == s.process.value.dispatcher
  {
    if e.InPool? {
      PoolOthersHandNothingOut(cfg.pool, s.process.value, e.e);
    } else {
      OffersHandNothingOut(cfg, s, e);
    }
  }

  lemma PoolOthersHandNothingOut(cfg: Pool.Config, m: Pool.Memory, e: Pool.Event)
    requires Pool.Enabled(cfg, m, e) && !e.Dispatches?
    ensures var m' := Pool.Next(cfg, m, e);
            && m.pending <= m'.pending && m'.dispatcher == m.dispatcher
            && IsSuffix(m'.workerCh, m.workerCh)
  {
  }

  lemma OffersHandNothingOut(cfg: Settings, s: State, e: Event)
    requires Enabled(cfg, s, e) && Up(s) && Up(Apply(cfg, s, e))
    requires !e.InPool? && !e.Saves?
    ensures var m, m' := s.process.value, Apply(cfg, s, e).process.value;
            m'.pending == m.pending && m'.workerCh == m.workerCh && m'.dispatcher == m.dispatcher
  {
  }

  /** Giving up a task, or stopping at the outer select, is on its way to the dump. */
  predicate GivingUp(d: Pool.Dispatcher) {
    d.Snapshotting? || (d.PushingBack? && d.shutdown)
  }

  /** The dispatcher is asleep, or puts its task back before it sleeps. */
  predicate Resting(d: Pool.Dispatcher) {
    d.Sleeping? || (d.PushingBack? && !d.shutdown)
  }

  /** The task in the dispatcher's hand before the run is in it still, or on the stack. */
  predicate KeepsHand(s: State, s': State) {
    && Up(s) && Up(s')
    && (s.process.value.dispatcher.PushingBack? ==>
          || s'.process.value.dispatcher == s.process.value.dispatcher
          || s.process.value.dispatcher.task in s'.process.value.pending)
  }

  lemma StepOnTheWay(cfg: Settings, s: State, e: Event)
    requires Enabled(cfg, s, e) && Up(s) && Up(Apply(cfg, s, e))
    requires || (GivingUp(s.process.value.dispatcher) && e != Act(Pool.Snapshots))
             || (Resting(s.process.value.dispatcher) && e != Act(Pool.Rises))
    ensures var d, d' := s.process.value.dispatcher, Apply(cfg, s, e).process.value.dispatcher;
            && (GivingUp(d) ==> GivingUp(d')) && (Resting(d) ==> Resting(d'))
            && (ByDispatcher(e) ==> e == Act(Pool.PushesBack) && d.PushingBack? && !d'.PushingBack?
                                    && Apply(cfg, s, e).process.value.pending == s.process.value.pending + [d.task])
            && (!ByDispatcher(e) ==> d' == d)
    ensures HandsNothingOut(s, Apply(cfg, s, e))
  {
    if !ByDispatcher(e) { OthersHandNothingOut(cfg, s, e); }
  }

  /** A dispatcher on its way to the dump that has not come there, or to the end of its rest. */
  ghost predicate NotThereYet(d: Pool.Dispatcher, events: seq<Event>) {
    || (GivingUp(d) && Never(events, Act(Pool.Snapshots)))
    || (Resting(d) && Never(events, Act(Pool.Rises)))
  }

  lemma NotThereAfterOne(cfg: Settings, s: State, events: seq<Event>)
    requires StaysUp(cfg, s, events) && events != [] && NotThereYet(s.process.value.dispatcher, events)
    ensures var s1 := Apply(cfg, s, events[0]);
            && Up(s1) && StaysUp(cfg, s1, events[1..])
            && NotThereYet(s1.process.value.dispatcher, events[1..])
  {
    StepOnTheWay(cfg, s, events[0]);
    assert forall i :: 0 <= i < |events[1..]| ==> events[1..][i] == events[i + 1];
  }

  /** A run from such a dispatcher: what it leaves. */
  lemma {:induction false} RunOnTheWay(cfg: Settings, s: State, events: seq<Event>, s': State)
    requires Reaches(cfg, s, events, s') && StaysUp(cfg, s, events)
    requires NotThereYet(s.process.value.dispatcher, events)
    ensures HandsNothingOut(s, s') && KeepsHand(s, s')
    ensures GivingUp(s.process.value.dispatcher) ==> GivingUp(s'.process.value.dispatcher)
    ensures Resting(s.process.value.dispatcher) ==> Resting(s'.process.value.dispatcher)
    ensures !s.process.value.dispatcher.PushingBack? ==> !s'.process.value.dispatcher.PushingBack?
    decreases |events|
  {
    if events != [] {
      var s1 := Apply(cfg, s, events[0]);
      StepOnTheWay(cfg, s, events[0]);
      NotThereAfterOne(cfg, s, events);
      RunOnTheWay(cfg, s1, events[1..], s');
      NothingOutTwice(s, s1, s');
      StackKeeps(s, s1, s', s.process.value.dispatcher);
    }
  }

  /** What the dispatcher does in it. */
  lemma {:induction false} ActsOnTheWay(cfg: Settings, s: State, events: seq<Event>, i: nat)
    requires StaysUp(cfg, s, events) && NotThereYet(s.process.value.dispatcher, events)
    requires i < |events| && ByDispatcher(events[i])
    ensures events[i] == Act(Pool.PushesBack)
    decreases |events|
  {
    if i == 0 {
      StepOnTheWay(cfg, s, events[0]);
    } else {
      NotThereAfterOne(cfg, s, events);
      ActsOnTheWay(cfg, Apply(cfg, s, events[0]), events[1..], i - 1);
    }
  }

  lemma StackKeeps(s: State, s1: State, s': State, d: Pool.Dispatcher)
    requires Up(s) && Up(s1) && Up(s') && d == s.process.value.dispatcher
    requires s1.process.value.pending <= s'.process.value.pending && KeepsHand(s1, s')
    requires s1.process.value.dispatcher == d
          || (d.PushingBack? ==> s1.process.value.pending == s.process.value.pending + [d.task])
    ensures KeepsHand(s, s')
  {
    if d.PushingBack? && s1.process.value.dispatcher != d {
      var p := s1.process.value.pending;
      assert p[|p| - 1] == d.task && s'.process.value.pending[|p| - 1] == d.task;
    }
  }

  /** Shutdown: once the dispatcher has stopped, or given up the task in its hand, it does
      nothing before its snapshot but put that task back; meanwhile nothing leaves the stack
      and `workerCh` does not grow, whatever the others do. The snapshot can always be taken
      then, and is its only act once the task is back on the stack. */
  lemma ShutdownGoesToTheDump(cfg: Settings, s: State, e: Event, s1: State, events: seq<Event>, s': State)
    requires Up(s) && Enabled(cfg, s, e) && s1 == Apply(cfg, s, e)
    requires e == Act(Pool.Stops) || e == Act(Pool.GivesUp)
    requires Reaches(cfg, s1, events, s') && StaysUp(cfg, s1, events) && Never(events, Act(Pool.Snapshots))
    ensures HandsNothingOut(s, s')
    ensures forall i :: 0 <= i < |events| && ByDispatcher(events[i]) ==> events[i] == Act(Pool.PushesBack)
    ensures e == Act(Pool.GivesUp) ==>
              || Enabled(cfg, s', Act(Pool.PushesBack))
              || s.process.value.dispatcher.task in s'.process.value.pending
    ensures e == Act(Pool.Stops) ==> !Enabled(cfg, s', Act(Pool.PushesBack))
    ensures Enabled(cfg, s', Act(Pool.Snapshots)) <==> !Enabled(cfg, s', Act(Pool.PushesBack))
    ensures forall d :: Enabled(cfg, s', Act(d)) ==> d == Pool.PushesBack || d == Pool.Snapshots
  {
    assert HandsNothingOut(s, s1) && GivingUp(s1.process.value.dispatcher);
    RunOnTheWay(cfg, s1, events, s');
    forall i | 0 <= i < |events| && ByDispatcher(events[i])
      ensures events[i] == Act(Pool.PushesBack)
    {
      ActsOnTheWay(cfg, s1, events, i);
    }
    NothingOutTwice(s, s1, s');
    OnlyActOnTheWay(cfg, s');
  }

  lemma OnlyActOnTheWay(cfg: Settings, s: State)
    requires Up(s) && (GivingUp(s.process.value.dispatcher) || Resting(s.process.value.dispatcher))
    ensures Enabled(cfg, s, Act(Pool.PushesBack)) <==> s.process.value.dispatcher.PushingBack?
    ensures Enabled(cfg, s, Act(Pool.Snapshots)) <==> s.process.value.dispatcher.Snapshotting?
    ensures Enabled(cfg, s, Act(Pool.Rises)) <==> s.process.value.dispatcher.Sleeping?
    ensures forall d :: Enabled(cfg, s, Act(d)) ==> d == Pool.PushesBack || d == Pool.Snapshots || d == Pool.Rises
  {
  }

  /** A pause: the dispatcher that takes a delay from `pauseCh`, and so empties it, does nothing
      before it rises but put the task in its hand back; meanwhile nothing leaves the stack
      and `workerCh` does not grow. */
  lemma PauseHandsNothingOut(cfg: Settings, s: State, e: Event, s1: State, events: seq<Event>, s': State)
    requires Reachable(cfg, s) && Up(s) && Enabled(cfg, s, e) && s1 == Apply(cfg, s, e)
    requires e == Act(Pool.Pauses) || e == Act(Pool.Yields)
    requires Reaches(cfg, s1, events, s') && StaysUp(cfg, s1, events) && Never(events, Act(Pool.Rises))
    ensures s1.process.value.pauseCh == []
    ensures HandsNothingOut(s, s')
    ensures forall i :: 0 <= i < |events| && ByDispatcher(events[i]) ==> events[i] == Act(Pool.PushesBack)
    ensures e == Act(Pool.Yields) ==>
              || Enabled(cfg, s', Act(Pool.PushesBack))
              || s.process.value.dispatcher.task in s'.process.value.pending
    ensures e == Act(Pool.Pauses) ==> !Enabled(cfg, s', Act(Pool.PushesBack))
    ensures Enabled(cfg, s', Act(Pool.Rises)) <==> !Enabled(cfg, s', Act(Pool.PushesBack))
    ensures forall d :: Enabled(cfg, s', Act(d)) ==> d == Pool.PushesBack || d == Pool.Rises
  {
    assert |s.process.value.pauseCh| <= 1 by { ReachableIsGood(cfg, s); }
    assert HandsNothingOut(s, s1) && Resting(s1.process.value.dispatcher);
    RunOnTheWay(cfg, s1, events, s');
    forall i | 0 <= i < |events| && ByDispatcher(events[i])
      ensures events[i] == Act(Pool.PushesBack)
    {
      ActsOnTheWay(cfg, s1, events, i);
    }
    NothingOutTwice(s, s1, s');
    OnlyActOnTheWay(cfg, s');
  }

  // ----------------------------------------------------------------------- wakeups

  /** The dispatcher is not in its inner loop. */
  predicate Outside(d: Pool.Dispatcher) {
    || d.Waiting? || (d.Sleeping? && !d.inner)
    || d.Snapshotting? || d.Draining? || d.Saving? || d.DispatcherDone?
  }

  lemma StepOutside(cfg: Settings, s: State, e: Event)
    requires Enabled(cfg, s, e) && Up(s) && Up(Apply(cfg, s, e))
    requires Outside(s.process.value.dispatcher) && e != Act(Pool.Wakes)
    ensures Outside(Apply(cfg, s, e).process.value.dispatcher)
    ensures HandsNothingOut(s, Apply(cfg, s, e))
    ensures ByDispatcher(e) ==> !e.e.d.Looks? && !e.e.d.Sends? && !e.e.d.Hands?
  {
    if ByDispatcher(e) {
      PoolStepOutside(cfg.pool, s.process.value, e.e.d);
    } else if !e.Saves? {
      OthersHandNothingOut(cfg, s, e);
    }
  }

  lemma PoolStepOutside(cfg: Pool.Config, m: Pool.Memory, d: Pool.DispatcherEvent)
    requires Pool.DispatcherMay(cfg, m, d) && Outside(m.dispatcher) && d != Pool.Wakes
    ensures var m' := Pool.DispatcherNext(cfg, m, d);
            && Outside(m'.dispatcher) && m'.pending == m.pending && IsSuffix(m'.workerCh, m.workerCh)
            && !d.Looks? && !d.Sends? && !d.Hands?
  {
  }

  lemma {:induction false} RunOutside(cfg: Settings, s: State, events: seq<Event>, s': State)
    requires Reaches(cfg, s, events, s') && StaysUp(cfg, s, events)
    requires Outside(s.process.value.dispatcher) && Never(events, Act(Pool.Wakes))
    ensures HandsNothingOut(s, s')
    ensures forall i :: 0 <= i < |events| && ByDispatcher(events[i]) ==>
              !events[i].e.d.Looks? && !events[i].e.d.Sends? && !events[i].e.d.Hands?
    decreases |events|
  {
    if events != [] {
      var s1 := Apply(cfg, s, events[0]);
      StepOutside(cfg, s, events[0]);
      assert forall i :: 0 <= i < |events[1..]| ==> events[1..][i] == events[i + 1];
      RunOutside(cfg, s1, events[1..], s');
      NothingOutTwice(s, s1, s');
    }
  }

  /** After it found the stack empty, or was started, the dispatcher looks at the stack and
      gives tasks away only after a wakeup. */
  lemma AsleepUntilWoken(cfg: Settings, s: State, e: Event, s1: State, events: seq<Event>, s': State)
    requires Enabled(cfg, s, e) && s1 == Apply(cfg, s, e)
    requires e.Boots? || (e == Act(Pool.Looks) && s.process.value.pending == [])
    requires Reaches(cfg, s1, events, s') && StaysUp(cfg, s1, events) && Never(events, Act(Pool.Wakes))
    ensures HandsNothingOut(s1, s')
    ensures forall i :: 0 <= i < |events| && ByDispatcher(events[i]) ==>
              !events[i].e.d.Looks? && !events[i].e.d.Sends? && !events[i].e.d.Hands?
  {
    RunOutside(cfg, s1, events, s');
  }

  lemma {:induction false} NoSignalNoWakeup(cfg: Settings, s: State, events: seq<Event>)
    requires StaysUp(cfg, s, events) && !s.process.value.hasTasks
    requires Never(events, InPool(Pool.Reads(Pool.Signals)))
    ensures Never(events, Act(Pool.Wakes))
    decreases |events|
  {
    if events != [] {
      var s1 := Apply(cfg, s, events[0]);
      assert forall i :: 0 <= i < |events[1..]| ==> events[1..][i] == events[i + 1];
      SignalStaysAway(cfg, s, events[0]);
      NoSignalNoWakeup(cfg, s1, events[1..]);
      forall i | 0 <= i < |events|
        ensures events[i] != Act(Pool.Wakes)
      {
        if i > 0 { assert events[i] == events[1..][i - 1]; }
      }
    }
  }

  lemma SignalStaysAway(cfg: Settings, s: State, e: Event)
    requires Enabled(cfg, s, e) && Up(s) && Up(Apply(cfg, s, e))
    requires !s.process.value.hasTasks && e != InPool(Pool.Reads(Pool.Signals))
    ensures e != Act(Pool.Wakes) && !Apply(cfg, s, e).process.value.hasTasks
  {
  }

  /** A signal wakes the dispatcher once: after a wakeup there is no other before the reader
      signals again. */
  lemma OneWakeupPerSignal(cfg: Settings, s: State, s1: State, events: seq<Event>)
    requires Up(s) && Enabled(cfg, s, Act(Pool.Wakes)) && s1 == Apply(cfg, s, Act(Pool.Wakes))
    requires StaysUp(cfg, s1, events) && Never(events, InPool(Pool.Reads(Pool.Signals)))
    ensures Never(events, Act(Pool.Wakes))
  {
    NoSignalNoWakeup(cfg, s1, events);
  }
}
