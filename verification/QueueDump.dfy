/** The parts of the worker pool that run alone (internal/processors/pool.go): the dump after
    cancellation, when no worker takes tasks any more, and the restore before Start. */
module QueueDump {
  import opened Digits
  import opened Orders
  import opened DumpFile
  import Pool

  class WorkerPool {
    var pendingTasks: seq<Order>
    var workerCh: seq<Order>
    var hasTasks: bool
    const dumper: AvroFileStorage

    constructor (dumper: AvroFileStorage)
      ensures this.dumper == dumper && pendingTasks == [] && workerCh == [] && !hasTasks
    {
      this.dumper := dumper;
      pendingTasks, workerCh, hasTasks := [], [], false;
    }

    /** The stack from the bottom, then the channel from its head, goes to the file; the
        channel is empty afterwards and the stack is left as it was. */
    method DumpQueue(save: SaveOutcome) returns (saved: bool)
      modifies this`workerCh, dumper
      ensures dumper.records
              == FileAfterSave(old(dumper.records), Records(old(pendingTasks) + old(workerCh)), save)
      ensures save == Saved ==> saved && dumper.Holds(old(pendingTasks) + old(workerCh))
      ensures workerCh == []
    {
      var orders: seq<Order> := [];
      for i := 0 to |pendingTasks|
        invariant orders == pendingTasks[..i]
      {
        orders := orders + [pendingTasks[i]];
      }
      var queueIsEmpty := false;
      while !queueIsEmpty
        invariant orders + workerCh == pendingTasks + old(workerCh)
        invariant dumper.records == old(dumper.records)
        invariant queueIsEmpty ==> workerCh == []
        decreases !queueIsEmpty, |workerCh|
      {
        if workerCh != [] {
          assert orders + workerCh == orders + [workerCh[0]] + workerCh[1..];
          orders, workerCh := orders + [workerCh[0]], workerCh[1..];
        } else {
          queueIsEmpty := true;
        }
      }
      assert orders == pendingTasks + old(workerCh);
      saved := dumper.Save(orders, save);
    }

    /** A successful restore and erase appends the saved orders to the stack in order and
        leaves a wakeup iff there were any. A failure, and a file with a record that is no
        order, leaves stack, signal and file alone. The signal channel is empty before Start,
        so the send cannot block. */
    method RestoreQueue(boot: BootOutcome)
      requires !hasTasks
      modifies this`pendingTasks, this`hasTasks, dumper
      ensures forall orders :: old(dumper.records) == Records(orders) ==>
                var (file, restored) := AfterRestore(orders, boot);
                && dumper.records == Records(file)
                && pendingTasks == old(pendingTasks) + restored
                && (hasTasks <==> restored != [])
      ensures boot != HeaderUnreadable
              && (exists i :: 0 <= i < |old(dumper.records)| && AvroToModel(old(dumper.records)[i]).None?)
              ==> dumper.records == old(dumper.records) && pendingTasks == old(pendingTasks) && !hasTasks
    {
      var found := dumper.Restore(boot == RestoreFails, boot == HeaderUnreadable);
      ghost var records := dumper.records;
      ghost var before := pendingTasks;
      forall orders | records == Records(orders)
        ensures found == if boot == RestoreFails then None else Some(AllFields(AfterRead(orders, boot)))
      {
        assert AllFields([]) == [];
        SavedOrdersComeBack(orders, AllFields(orders));
        if found.Some? && boot != HeaderUnreadable { SavedOrdersComeBack(orders, found.value); }
      }
      if found.None? {
        return;
      }
      var erased := dumper.Erase(boot == EraseFails);
      if !erased {
        return;
      }
      for i := 0 to |found.value|
        invariant pendingTasks == before + Tasks(found.value[..i])
        invariant dumper.records == [] && !hasTasks
      {
        assert found.value[..i + 1] == found.value[..i] + [found.value[i]];
        pendingTasks := pendingTasks + [TaskOf(found.value[i])];
      }
      assert found.value[..|found.value|] == found.value;
      if |found.value| > 0 {
        hasTasks := true;
      }
      forall orders | records == Records(orders)
        ensures pendingTasks == before + AfterRestore(orders, boot).1
      {
        TasksOfFields(AfterRead(orders, boot));
      }
    }
  }

  /** What reading the file yields when it does not fail. */
  function AfterRead(orders: seq<Order>, boot: BootOutcome): seq<Order> {
    if boot == HeaderUnreadable then [] else orders
  }

  function Tasks(found: seq<Restored>): seq<Order> {
    seq(|found|, i requires 0 <= i < |found| => TaskOf(found[i]))
  }

  lemma TasksOfFields(orders: seq<Order>)
    ensures Tasks(AllFields(orders)) == orders
  {
    forall i | 0 <= i < |orders|
      ensures TaskOf(AllFields(orders)[i]) == orders[i]
    {
      TaskOfFields(orders[i]);
    }
  }

  /** A restored order as a task. The program keeps the status as text; a text that is no
      status of ours cannot come from Save, and stands for NEW here. */
  function TaskOf(r: Restored): Order {
    Order(r.id, r.user,
          if r.status == StatusText(Processing) then Processing
          else if r.status == StatusText(Invalid) then Invalid
          else if r.status == StatusText(Processed) then Processed
          else New,
          r.accrual)
  }

  lemma TaskOfFields(o: Order)
    ensures TaskOf(Fields(o)) == o
  {
    FieldsDetermineTheOrder(o, o.(status := TaskOf(Fields(o)).status));
  }

  // --------------------------------------- the same dump, as steps of the pool

  /** The dispatcher alone, from the snapshot to the save. */
  function Undisturbed(cfg: Pool.Config, m: Pool.Memory): Pool.Memory
    requires m.dispatcher.Draining? && !m.stop.workerClosed
    decreases |m.workerCh|
  {
    var m' := Pool.DispatcherNext(cfg, m, Pool.Drains);
    if m.workerCh == [] then m' else Undisturbed(cfg, m')
  }

  /** When nobody else takes a step, the pool saves the list that DumpQueue saves. */
  lemma {:induction false} UndisturbedDrain(cfg: Pool.Config, m: Pool.Memory)
    requires m.dispatcher.Draining? && !m.stop.workerClosed
    ensures Undisturbed(cfg, m).dispatcher == Pool.Saving(m.dispatcher.orders + m.workerCh)
    decreases |m.workerCh|
  {
    if m.workerCh != [] {
      UndisturbedDrain(cfg, Pool.DispatcherNext(cfg, m, Pool.Drains));
      assert m.dispatcher.orders + [m.workerCh[0]] + m.workerCh[1..] == m.dispatcher.orders + m.workerCh;
    }
  }

  lemma UndisturbedDump(cfg: Pool.Config, m: Pool.Memory)
    requires m.dispatcher.Snapshotting? && !m.stop.workerClosed
    ensures Undisturbed(cfg, Pool.DispatcherNext(cfg, m, Pool.Snapshots)).dispatcher
            == Pool.Saving(m.pending + m.workerCh)
  {
    UndisturbedDrain(cfg, Pool.DispatcherNext(cfg, m, Pool.Snapshots));
  }
}
