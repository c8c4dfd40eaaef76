/** Orders, the accrual system's replies, and the decision a worker takes on a reply
    (internal/models/order.go, internal/services/order_service.go). */
module Orders {
  import opened Digits
  import opened Money

  /** The statuses a row can have. */
  datatype Status = New | Processing | Invalid | Processed

  /** An order, its table row and the task made from it have the same fields here. */
  datatype Order = Order(id: string, user: string, status: Status, accrual: int)

  /** Open orders may still change; the accrual system's two final statuses are not open. */
  predicate Open(status: Status) {
    status == New || status == Processing
  }

  predicate Valid(o: Order) {
    o.user != "" && o.id != "" && o.accrual >= 0
  }

  /** The status text of a reply. */
  datatype ReplyStatus = Known(status: Status) | Registered | Unrecognised

  /** What the accrual client reports about one order; an empty `accrual` means the field
      is absent. */
  datatype Reply =
    | Busy(delay: nat)
    | Failure
    | Answer(status: ReplyStatus, accrual: string)

  /** What the worker does next with its task. */
  datatype Plan =
    | Drop
    | PauseAndRequeue(delay: nat)
    | Requeue
    | Write(order: Order)
    | Crash

  function SetStatus(o: Order, status: ReplyStatus): Option<Order> {
    match status
    case Known(s) => Some(o.(status := s))
    case Registered => None
    case Unrecognised => None
  }

  /** The service's own name for a registered order is NEW. */
  function TargetStatus(status: ReplyStatus): ReplyStatus {
    if status == Registered then Known(New) else status
  }

  /** The first half of ProcessAccrualTask, up to the database write. `skipRepeats` is the
      program's shortcut for a repeated PROCESSING; without it every answer is written. */
  function Decide(skipRepeats: bool, task: Order, reply: Reply): Plan {
    match reply
    case Busy(delay) => PauseAndRequeue(delay)
    case Failure => Drop
    case Answer(status, accrual) =>
      if skipRepeats && status == Known(Processing) && task.status == Processing then Requeue
      else
        match SetStatus(task, TargetStatus(status))
        case None => Drop
        case Some(order) =>
          if accrual == "" then Write(order)
          else
            match ParseAccrual(accrual)
            case Amount(kopecks) => Write(order.(accrual := kopecks))
            case Malformed => Drop
            case Panics => Crash
  }

  /** An answer that repeats PROCESSING. */
  predicate Repeats(task: Order, reply: Reply) {
    reply.Answer? && reply.status == Known(Processing) && task.status == Processing
  }

  /** For a repeated PROCESSING, always writing would write the task back unchanged exactly
      when the reply carries no accrual or the accrual the task already has. */
  lemma ShortcutSkipsANoOpWrite(task: Order, reply: Reply)
    requires Repeats(task, reply)
    ensures Decide(true, task, reply) == Requeue
    ensures Decide(false, task, reply) == Write(task)
            <==> reply.accrual == "" || ParseAccrual(reply.accrual) == Amount(task.accrual)
  {
    assert task.(status := Processing) == task;
  }

  /** The status a reply asks for, if it is one of an order: REGISTERED counts as NEW. */
  predicate AsksFor(reply: Reply, s: Status) {
    reply.Answer? && (reply.status == Known(s) || (reply.status == Registered && s == New))
  }

  /** The accrual a reply gives a task whose own is `own`: none leaves it as it is. */
  predicate Gives(accrual: string, own: int, k: int) {
    if accrual == "" then k == own else ParseAccrual(accrual) == Amount(k)
  }

  /** The decision, reply by reply. Outside the shortcut an order is written exactly when the
      reply has a status of ours and its accrual, if any, can be read; it is then the task's
      order with that status and accrual. */
  lemma DecisionPerReply(skipRepeats: bool, task: Order, reply: Reply)
    ensures var plan := Decide(skipRepeats, task, reply);
            match reply
            case Busy(delay) => plan == PauseAndRequeue(delay)
            case Failure => plan == Drop
            case Answer(Unrecognised, _) => plan == Drop
            case Answer(_, accrual) =>
              if skipRepeats && Repeats(task, reply) then plan == Requeue
              else
                && (forall s, k :: AsksFor(reply, s) && Gives(accrual, task.accrual, k) ==>
                      plan == Write(Order(task.id, task.user, s, k)))
                && (plan.Write? <==> accrual == "" || ParseAccrual(accrual).Amount?)
                && (plan.Drop? <==> accrual != "" && ParseAccrual(accrual).Malformed?)
                && (plan.Crash? <==> accrual != "" && ParseAccrual(accrual).Panics?)
  {
  }

  /** A written order keeps the task's identity and owner, and a final reply is written as such. */
  lemma WrittenOrder(skipRepeats: bool, task: Order, reply: Reply)
    requires Decide(skipRepeats, task, reply).Write?
    ensures var o := Decide(skipRepeats, task, reply).order;
            && o.id == task.id && o.user == task.user
            && AsksFor(reply, o.status) && Gives(reply.accrual, task.accrual, o.accrual)
  {
  }
}
