/** The order service (internal/services/order_service.go): Store and ProcessAccrualTask as one
    caller runs them from beginning to end, while others use the same database. */
module Service {
  import opened Digits
  import opened Orders
  import opened TxRetry
  import opened Ledger
  import opened Luhn
  import opened Storage
  import opened System
  import Money
  import B = Books

  /** The channel from the service to the queue reader, as far as the service sees it: what
      is buffered, whether the reader stands waiting, and what it was handed directly. */
  datatype Link = Link(size: nat, buffer: seq<Order>, readerWaits: bool, handed: seq<Order>)
  {
    /** A receiver waits only while nothing is buffered. */
    predicate Valid() {
      readerWaits ==> buffer == []
    }

    /** Everything that was sent and not dropped and not yet received from the buffer. */
    function Stream(): seq<Order> {
      handed + buffer
    }

    predicate HasRoom() {
      readerWaits || |buffer| < size
    }
  }

  /** What a non-blocking send leaves. */
  function Offered(ch: Link, order: Order): (ch': Link)
    requires ch.Valid()
    ensures ch'.Valid() && ch'.size == ch.size
    ensures ch'.Stream() == if ch.HasRoom() then ch.Stream() + [order] else ch.Stream()
    ensures |ch.buffer| <= ch.size ==> |ch'.buffer| <= ch.size
    ensures !ch'.readerWaits && (!ch.readerWaits ==> ch'.handed == ch.handed) && (ch.readerWaits ==> ch'.buffer == [])
  {
    if ch.readerWaits then ch.(readerWaits := false, handed := ch.handed + [order])
    else if |ch.buffer| < ch.size then ch.(buffer := ch.buffer + [order])
    else ch
  }

  datatype TaskResult = Returned(ok: bool) | Panicked

  /** What one task leaves of the tables and the two channels, and how it ends. */
  function AfterTask(t: Tables, link: Link, pauses: seq<nat>, task: Order, reply: Reply, env: TxEnv)
    : (Tables, Link, seq<nat>, TaskResult)
    requires link.Valid() && env != []
  {
    match Decide(true, task, reply)
    case Write(o) =>
      var end := Loop(t, UpdateBody(o), env);
      var requeued := if end.err.None? && o.status == Processing then Offered(link, o) else link;
      (end.db, requeued, pauses, Returned(end.err.None?))
    case PauseAndRequeue(delay) =>
      (t, Offered(link, task), if pauses == [] then [delay] else pauses, Returned(false))
    case Requeue => (t, Offered(link, task), pauses, Returned(true))
    case Drop => (t, link, pauses, Returned(false))
    case Crash => (t, link, pauses, Panicked)
  }

  /** Nothing was written, sent or paused. */
  predicate NothingDone(t: Tables, link: Link, pauses: seq<nat>, t': Tables, link': Link, pauses': seq<nat>) {
    t' == t && link' == link && pauses' == pauses
  }

  /** One retried write of `o`, then a requeue iff it succeeded with PROCESSING. */
  ghost predicate Wrote(t: Tables, link: Link, pauses: seq<nat>, o: Order, env: TxEnv,
                        t': Tables, link': Link, pauses': seq<nat>, result: TaskResult)
    requires link.Valid() && env != []
  {
    var end := Loop(t, UpdateBody(o), env);
    && t' == end.db && pauses' == pauses && result == Returned(end.err.None?)
    && link' == if end.err.None? && o.status == Processing then Offered(link, o) else link
  }

  /** What each reply of the accrual system does to its task, the tables and the channels. */
  ghost predicate DoneAsReplied(t: Tables, link: Link, pauses: seq<nat>, task: Order, reply: Reply, env: TxEnv,
                                t': Tables, link': Link, pauses': seq<nat>, result: TaskResult)
    requires link.Valid() && env != []
  {
    match reply
    case Busy(delay) =>
      && t' == t && link' == Offered(link, task) && result == Returned(false)
      && pauses' == if pauses == [] then [delay] else pauses
    case Failure => NothingDone(t, link, pauses, t', link', pauses') && result == Returned(false)
    case Answer(Unrecognised, _) => NothingDone(t, link, pauses, t', link', pauses') && result == Returned(false)
    case Answer(status, accrual) =>
      if status == Known(Processing) && task.status == Processing then
        t' == t && link' == Offered(link, task) && pauses' == pauses && result == Returned(true)
      else if accrual != "" && !Money.ParseAccrual(accrual).Amount? then
        && NothingDone(t, link, pauses, t', link', pauses')
        && result == if Money.ParseAccrual(accrual).Panics? then Panicked else Returned(false)
      else
        forall s, k :: AsksFor(reply, s) && Gives(accrual, task.accrual, k) ==>
                         Wrote(t, link, pauses, Order(task.id, task.user, s, k), env, t', link', pauses', result)
  }

  lemma TaskIsDoneAsReplied(t: Tables, link: Link, pauses: seq<nat>, task: Order, reply: Reply, env: TxEnv)
    requires link.Valid() && env != []
    ensures var (t', link', pauses', result) := AfterTask(t, link, pauses, task, reply, env);
            DoneAsReplied(t, link, pauses, task, reply, env, t', link', pauses', result)
  {
    DecisionPerReply(true, task, reply);
  }

  /** What one upload leaves of the tables and the channel, and what its caller is told. */
  function AfterStore(t: Tables, link: Link, id: string, user: string, env: TxEnv, lookups: seq<Read<Tables>>)
    : (Tables, Link, Answer)
    requires link.Valid() && env != [] && lookups != []
  {
    var order := Order(id, user, New, 0);
    if !ValidNumber(id) then (t, link, WrongFormat)
    else if !Valid(order) then (t, link, Refused)
    else
      var end := Loop(t, InsertBody(order), env);
      if end.err.None? then (end.db, Offered(link, order), Accepted)
      else if end.err != Some(BodyFailed(OrderExists)) then (end.db, link, Broken)
      else
        var last := LastRead(lookups);
        var met := TablesMet(end.db, lookups, last + 1);
        var answer := if lookups[last].failure.Some? then Broken
                      else if GetOrderRow(met, id, user).Some? then AlreadyYours
                      else AnotherUsers;
        (met, link, answer)
  }

  class OrderService {
    const db: SQLStorage
    var linkCh: Link
    var pauseCh: seq<nat>

    constructor (db: SQLStorage, linkSize: nat)
      ensures this.db == db && linkCh == Link(linkSize, [], false, []) && pauseCh == []
    {
      this.db, linkCh, pauseCh := db, Link(linkSize, [], false, []), [];
    }

    /** A waiting reader gets the order at once, whatever the buffer's size; otherwise the
        order is buffered if there is room, and dropped if not. */
    method SendOrderToProcessor(order: Order)
      requires linkCh.Valid()
      modifies this`linkCh
      ensures linkCh == Offered(old(linkCh), order)
    {
      if linkCh.readerWaits {
        linkCh := linkCh.(readerWaits := false, handed := linkCh.handed + [order]);
      } else if |linkCh.buffer| < linkCh.size {
        linkCh := linkCh.(buffer := linkCh.buffer + [order]);
      }
    }

    /** The caller is told what the rows say, although others commit between the insert and
        the lookup: accepted iff its own insert was committed and acknowledged, "yours" or
        "another's" iff a row was in the way and the lookup completed, by the row's owner.
        An insert whose commit failed too late leaves its row behind a "broken" answer. */
    method Store(id: string, user: string, env: TxEnv, lookups: seq<Read<Tables>>) returns (answer: Answer)
      requires Fair(env) && FairReads(lookups) && linkCh.Valid()
      modifies this`linkCh, db
      ensures B.Extends(old(db.tables), db.tables)
      ensures answer == WrongFormat <==> !ValidNumber(id)
      ensures answer == Refused <==> ValidNumber(id) && (id == "" || user == "")
      ensures answer == WrongFormat || answer == Refused ==> db.tables == old(db.tables)
      ensures answer != WrongFormat && answer != Refused ==>
                var end := Loop(old(db.tables), InsertBody(Order(id, user, New, 0)), env);
                var inTheWay := end.err == Some(BodyFailed(OrderExists));
                var found := inTheWay && lookups[LastRead(lookups)].failure.None?;
                && db.tables == (if inTheWay then TablesMet(end.db, lookups, LastRead(lookups) + 1) else end.db)
                && (answer == Accepted <==> end.err.None?)
                && (answer == AlreadyYours || answer == AnotherUsers <==> found)
                && (answer == Broken <==> end.err.Some? && !found)
                && (TookEffect(env, end.turns, end.err) ==>
                      && id !in old(db.tables).orders
                      && id in db.tables.orders && db.tables.orders[id] == Order(id, user, New, 0))
      ensures (db.tables, linkCh, answer) == AfterStore(old(db.tables), old(linkCh), id, user, env, lookups)
      ensures answer == AlreadyYours ==> id in db.tables.orders && db.tables.orders[id].user == user
      ensures answer == AnotherUsers ==> id in db.tables.orders && db.tables.orders[id].user != user
    {
      var luhn := IsValidLuhn(id);
      if !luhn {
        return WrongFormat;
      }
      var order := Order(id, user, New, 0);
      if !Valid(order) {
        return Refused;
      }
      ghost var start := db.tables;
      var err := db.AddOrder(order, env);
      InsertOutcome(start, order, env);
      if err.Some? {
        if err != Some(BodyFailed(OrderExists)) {
          return Broken;
        }
        ghost var inserted := db.tables;
        var row, failed := db.GetOrder(id, user, lookups);
        B.ExtendsIsTransitive(start, inserted, db.tables);
        if failed {
          return Broken;
        }
        return if row.Some? then AlreadyYours else AnotherUsers;
      }
      SendOrderToProcessor(order);
      answer := Accepted;
    }

    /** One task: the decision on the reply, the write with its credit, and the requeue. */
    method ProcessAccrualTask(task: Order, reply: Reply, env: TxEnv) returns (ok: bool, panicked: bool)
      requires Fair(env) && linkCh.Valid()
      modifies this`linkCh, this`pauseCh, db
      ensures (db.tables, linkCh, pauseCh, if panicked then Panicked else Returned(ok))
              == AfterTask(old(db.tables), old(linkCh), old(pauseCh), task, reply, env)
      ensures DoneAsReplied(old(db.tables), old(linkCh), old(pauseCh), task, reply, env,
                            db.tables, linkCh, pauseCh, if panicked then Panicked else Returned(ok))
    {
      TaskIsDoneAsReplied(db.tables, linkCh, pauseCh, task, reply, env);
      panicked := false;
      var order := task;
      match reply {
        case Busy(delay) =>
          if pauseCh == [] {
            pauseCh := [delay];
          }
          SendOrderToProcessor(order);
          return false, false;
        case Failure =>
          return false, false;
        case Answer(status, accrual) =>
          if status == Known(Processing) && order.status == Processing {
            SendOrderToProcessor(order);
            return true, false;
          }
          var targetStatus := status;
          if status == Registered {
            targetStatus := Known(New);
          }
          var changed := SetStatus(order, targetStatus);
          if changed.None? {
            return false, false;
          }
          order := changed.value;
          if accrual != "" {
            var parsed := Money.ParseAccrual(accrual);
            if !parsed.Amount? {
              return false, parsed.Panics?;
            }
            order := order.(accrual := parsed.kopecks);
          }
          assert Decide(true, task, reply) == Write(order);
          var err := db.UpdateOrder(order, env);
          if err.Some? {
            return false, false;
          }
          if order.status == Processing {
            SendOrderToProcessor(order);
          }
          return true, false;
      }
    }
  }
}
