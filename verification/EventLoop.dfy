/**
 The event loop of `GrpcContext` and its cross-thread work queue, one atomic access per step.

 One thread (the consumer) runs `process_work`; any number of other threads (producers)
 enqueue operations, hold and return work units, and call `stop`. Steps of different threads
 interleave arbitrarily; atomics are sequentially consistent.
 */
module EventLoop {
  import opened Sequences
  import opened LinkedCells

  type Pid = nat

  /** Where a thread other than the consumer stands inside `add_remote_operation`,
      `stop` or `work_finished`. A thread that is in none of them is absent from the map. */
  datatype Producer =
    | Starting(op: Op)              // work counted, `enqueue` about to load `head`
    | Loaded(op: Op, seen: Ptr)      // `old_value` read, `item->next` not yet written
    | Linked(op: Op, seen: Ptr)      // `item->next` written, CAS to come
    | Signalling                    // queue activated by this thread, `trigger_work_alarm` to come
    | StopPending                   // `work_finished` saw the count reach zero, `stop` to come
    | StopMarking                   // `stopped` exchanged, `try_mark_active` to come
  {
    predicate HoldsOp() { Starting? || Loaded? || Linked? }
  }

  datatype Mode = Run | Poll | Drain

  /** Where the consumer stands inside `process_work`. */
  datatype Consumer =
    | Outside
    | Entering                      // work count seen non-zero, `reset` to come
    | Top
    | LoadingHead | CasInactive     // `try_mark_inactive`
    | Exchanging                    // `head.exchange(nullptr)`
    | Reversing(list: Ptr, newHead: Ptr, newTail: Ptr)
    | TakingLocal                   // `queue{std::move(local_work_queue)}`
    | Processing                    // loop of `process_local_queue`
    | Running(fromTag: bool)        // inside `operation->complete`
    | StopCheck
    | Polling(pending: bool)        // `get_next_event`
  {
    predicate Dequeuing() { LoadingHead? || CasInactive? || Exchanging? || Reversing? }
  }

  /** What an observer sees of the queue: successful pushes, wake-ups, deactivations,
      local pushes and the operations completed. */
  datatype Event =
    | Pushed(pid: Pid, op: Op)
    | Woke(pid: Pid)
    | Deactivated
    | LocalPushed(op: Op)
    | Completed(op: Op)

  /** The memory of the queues. */
  datatype Memory = Memory(
    head: Ptr,                      // remote_work_queue.head
    next: Cells,                    // the `next` field of every operation
    local: CellQueue,               // local_work_queue
    queue: CellQueue)               // the local variable of process_local_queue

  /** The counters and flags of the context and of its completion queue. */
  datatype Counters = Counters(
    checkRemote: bool,              // check_remote_work
    alarms: nat,                    // HAS_REMOTE_WORK_TAG events in the completion queue
    tags: nat,                      // gRPC operations in flight or ready in the completion queue
    guards: nat,                    // work units held by trackers and by unfinished operations
    work: int,                      // outstanding_work
    stopped: bool,
    stopDue: bool)                  // the consumer's own `work_finished`, or its entry, found the count
                                    // at zero; its write to `stopped` is to come

  datatype State = State(
    mem: Memory,
    live: set<Op>,                  // operations submitted and not yet given to `complete`
    producers: map<Pid, Producer>,
    consumer: Consumer,
    mode: Mode,
    ctx: Counters,
    log: seq<Event>)

  predicate Initial(c: State) {
    && c.mem.head == Inactive && c.mem.local == EMPTY_QUEUE && c.mem.queue == EMPTY_QUEUE
    && c.live == {} && c.producers == map[] && c.consumer == Outside
    && !c.ctx.checkRemote && c.ctx.alarms == 0 && c.ctx.tags == 0 && c.ctx.guards == 0 && c.ctx.work == 0 && !c.ctx.stopDue
    && c.log == []
  }

  /** Steps of a thread that is not running the loop. */
  datatype ProducerStep =
    | Submit(op: Op, prepaid: bool) // count the work (unless a held unit pays) and start `enqueue`
    | EnqueueLoad
    | EnqueueLink
    | EnqueueCas                    // the CAS succeeds
    | EnqueueRetry                  // the CAS fails, spuriously or not, and reloads `old_value`
    | Signal
    | StopExchange
    | StopMark
    | GuardEnd

  /** `move_remote_work_to_local_queue`. */
  datatype DequeueStep = LoadHead | TryDeactivate | ExchangeHead | ReverseOne | AppendBatch

  /** What may happen inside `operation->complete`, and how it ends. */
  datatype HandlerStep =
    | PushLocal(op: Op, prepaid: bool)
    | StopSelf
    | GuardEndSelf
    | Finish
    | Throw

  /** The rest of `process_work`. */
  datatype LoopStep =
    | StopOwn                       // the consumer's own write to `stopped`
    | Enter(mode: Mode)
    | ResetOnEntry
    | BeginRound
    | TakeLocal
    | PopFront
    | CheckStop
    | PollAlarm
    | PollTag
    | PollTimeout

  datatype AmbientStep = GuardStart | TagStart | Reset

  datatype Step =
    | Produce(pid: Pid, produce: ProducerStep)
    | Dequeue(dequeue: DequeueStep)
    | Handle(handle: HandlerStep)
    | Loop(loop: LoopStep)
    | Ambient(ambient: AmbientStep)

  // ---- guards --------------------------------------------------------------------------

  predicate CanProduce(c: State, p: Pid, s: ProducerStep) {
    match s
    case Submit(op, prepaid) =>
      p !in c.producers && op !in c.live && (prepaid ==> c.ctx.guards > 0)
    case EnqueueLoad => p in c.producers && c.producers[p].Starting?
    case EnqueueLink => p in c.producers && c.producers[p].Loaded?
    case EnqueueCas =>
      p in c.producers && c.producers[p].Linked? && c.mem.head == c.producers[p].seen
    case EnqueueRetry => p in c.producers && c.producers[p].Linked?
    case Signal => p in c.producers && c.producers[p].Signalling?
    case StopExchange => p in c.producers ==> c.producers[p].StopPending?
    case StopMark => p in c.producers && c.producers[p].StopMarking?
    case GuardEnd => p !in c.producers && c.ctx.guards > 0
  }

  predicate CanDequeue(c: State, s: DequeueStep) {
    !c.ctx.stopDue &&
    match s
    case LoadHead => c.consumer == LoadingHead
    case TryDeactivate => c.consumer == CasInactive
    case ExchangeHead => c.consumer == Exchanging
    case ReverseOne =>
      c.consumer.Reversing? && c.consumer.list.At? && c.consumer.list.op in c.mem.next
    case AppendBatch =>
      && c.consumer.Reversing? && c.consumer.list == Null
      && (c.mem.local.head != Null ==> c.mem.local.tail.At?)
  }

  predicate CanHandle(c: State, s: HandlerStep) {
    && c.consumer.Running? && !c.ctx.stopDue
    && match s
       case PushLocal(op, prepaid) =>
         && op !in c.live && (prepaid ==> c.ctx.guards > 0)
         && (c.mem.local.tail != Null ==> c.mem.local.tail.At?)
       case StopSelf => true
       case GuardEndSelf => c.ctx.guards > 0
       case Finish => true
       case Throw => c.mode != Drain
  }

  predicate CanLoop(c: State, s: LoopStep) {
    (c.ctx.stopDue <==> s == StopOwn) &&
    match s
    case StopOwn => true
    case Enter(m) => c.consumer == Outside
    case ResetOnEntry => c.consumer == Entering
    case BeginRound => c.consumer == Top
    case TakeLocal => c.consumer == TakingLocal
    case PopFront =>
      && c.consumer == Processing
      && (c.mem.queue.head != Null ==> c.mem.queue.head.At? && c.mem.queue.head.op in c.mem.next)
    case CheckStop => c.consumer == StopCheck
    case PollAlarm => c.consumer.Polling? && c.ctx.alarms > 0
    case PollTag => c.consumer.Polling? && c.ctx.tags > 0
    case PollTimeout =>
      && c.consumer.Polling?
      && (c.consumer.pending || c.mode == Poll || (c.mode == Drain && c.ctx.tags == 0 && c.ctx.alarms == 0))
  }

  predicate Enabled(c: State, s: Step) {
    match s
    case Produce(p, a) => CanProduce(c, p, a)
    case Dequeue(a) => CanDequeue(c, a)
    case Handle(a) => CanHandle(c, a)
    case Loop(a) => CanLoop(c, a)
    case Ambient(_) => true
  }

  // ---- effects -------------------------------------------------------------------------

  /** `push_back`: `item->next = nullptr`, then the item becomes the tail. */
  function PushBackCells(next: Cells, q: CellQueue, op: Op): (r: (Cells, CellQueue))
    requires q.tail != Null ==> q.tail.At?
  {
    var cleared := next[op := Null];
    if q.tail == Null then (cleared, CellQueue(At(op), At(op)))
    else (cleared[q.tail.op := At(op)], CellQueue(q.head, At(op)))
  }

  /** `append`: links the tail of a non-empty queue to the other head. */
  function AppendCells(next: Cells, q: CellQueue, other: CellQueue): (r: (Cells, CellQueue))
    requires q.head != Null ==> q.tail.At?
  {
    if other.head == Null then (next, q)
    else if q.head == Null then (next, other)
    else (next[q.tail.op := other.head], CellQueue(q.head, other.tail))
  }

  function PopFrontCells(next: Cells, q: CellQueue): (r: CellQueue)
    requires q.head.At? && q.head.op in next
  {
    var h := next[q.head.op];
    CellQueue(h, if h == Null then Null else q.tail)
  }

  function Pay(x: Counters, prepaid: bool): Counters
    requires prepaid ==> x.guards > 0
  {
    if prepaid then x.(guards := x.guards - 1) else x.(work := x.work + 1)
  }

  /** `work_finished` on the consumer's own thread: having reached zero, the consumer will stop the
      context next, without touching the remote queue. */
  function FinishOwnWork(x: Counters): Counters {
    x.(work := x.work - 1, stopDue := x.work == 1)
  }

  function ApplyProduce(c: State, p: Pid, s: ProducerStep): State
    requires CanProduce(c, p, s)
  {
    match s
    case Submit(op, prepaid) =>
      c.(producers := c.producers[p := Starting(op)], live := c.live + {op}, ctx := Pay(c.ctx, prepaid))
    case EnqueueLoad =>
      c.(producers := c.producers[p := Loaded(c.producers[p].op, c.mem.head)])
    case EnqueueLink =>
      var me := c.producers[p];
      c.(mem := c.mem.(next := c.mem.next[me.op := ItemOf(me.seen)]),
         producers := c.producers[p := Linked(me.op, me.seen)])
    case EnqueueCas =>
      var me := c.producers[p];
      var d := c.(mem := c.mem.(head := At(me.op)));
      if me.seen == Inactive then
        d.(producers := c.producers[p := Signalling], log := c.log + [Pushed(p, me.op), Woke(p)])
      else
        d.(producers := c.producers - {p}, log := c.log + [Pushed(p, me.op)])
    case EnqueueRetry =>
      c.(producers := c.producers[p := Loaded(c.producers[p].op, c.mem.head)])
    case Signal =>
      c.(ctx := c.ctx.(alarms := c.ctx.alarms + 1), producers := c.producers - {p})
    case StopExchange =>
      if c.ctx.stopped then c.(producers := c.producers - {p})
      else c.(ctx := c.ctx.(stopped := true), producers := c.producers[p := StopMarking])
    case StopMark =>
      if c.mem.head == Inactive then
        c.(mem := c.mem.(head := Null), producers := c.producers[p := Signalling], log := c.log + [Woke(p)])
      else
        c.(producers := c.producers - {p})
    case GuardEnd =>
      var d := c.(ctx := c.ctx.(guards := c.ctx.guards - 1, work := c.ctx.work - 1));
      if c.ctx.work == 1 then d.(producers := c.producers[p := StopPending]) else d
  }

  function ApplyDequeue(c: State, s: DequeueStep): State
    requires CanDequeue(c, s)
  {
    match s
    case LoadHead => c.(consumer := if c.mem.head == Null then CasInactive else Exchanging)
    case TryDeactivate =>
      if c.mem.head == Null then
        c.(mem := c.mem.(head := Inactive), ctx := c.ctx.(checkRemote := false), consumer := TakingLocal,
           log := c.log + [Deactivated])
      else
        c.(consumer := Exchanging)
    case ExchangeHead =>
      c.(mem := c.mem.(head := Null), consumer := Reversing(c.mem.head, Null, c.mem.head))
    case ReverseOne =>
      var me := c.consumer;
      c.(mem := c.mem.(next := c.mem.next[me.list.op := me.newHead]),
         consumer := Reversing(c.mem.next[me.list.op], me.list, me.newTail))
    case AppendBatch =>
      var batch := CellQueue(c.consumer.newHead, c.consumer.newTail);
      var (n, l) := AppendCells(c.mem.next, c.mem.local, batch);
      c.(mem := c.mem.(next := n, local := l), ctx := c.ctx.(checkRemote := batch.head != Null),
         consumer := TakingLocal)
  }

  function ApplyHandle(c: State, s: HandlerStep): State
    requires CanHandle(c, s)
  {
    match s
    case PushLocal(op, prepaid) =>
      var (n, l) := PushBackCells(c.mem.next, c.mem.local, op);
      c.(mem := c.mem.(next := n, local := l), live := c.live + {op}, ctx := Pay(c.ctx, prepaid),
         log := c.log + [LocalPushed(op)])
    case StopSelf => c.(ctx := c.ctx.(stopped := true))
    case GuardEndSelf => c.(ctx := FinishOwnWork(c.ctx.(guards := c.ctx.guards - 1)))
    case Finish =>
      c.(ctx := FinishOwnWork(c.ctx), consumer := if c.consumer.fromTag then Top else Processing)
    case Throw =>
      c.(ctx := FinishOwnWork(c.ctx), consumer := Outside, mem := c.mem.(queue := EMPTY_QUEUE))
  }

  function ApplyLoop(c: State, s: LoopStep): State
    requires CanLoop(c, s)
  {
    match s
    case StopOwn => c.(ctx := c.ctx.(stopped := true, stopDue := false))
    case Enter(m) =>
      if m == Drain then c.(consumer := Top, mode := Drain)
      else if c.ctx.work == 0 then c.(ctx := c.ctx.(stopDue := true))
      else c.(consumer := Entering, mode := m)
    case ResetOnEntry => c.(ctx := c.ctx.(stopped := false), consumer := Top)
    case BeginRound => c.(consumer := if c.ctx.checkRemote then LoadingHead else TakingLocal)
    case TakeLocal =>
      c.(mem := c.mem.(queue := c.mem.local, local := EMPTY_QUEUE), consumer := Processing)
    case PopFront =>
      if c.mem.queue.head == Null then c.(consumer := StopCheck)
      else
        var op := c.mem.queue.head.op;
        c.(mem := c.mem.(queue := PopFrontCells(c.mem.next, c.mem.queue)), live := c.live - {op},
           consumer := Running(false), log := c.log + [Completed(op)])
    case CheckStop =>
      if c.ctx.stopped && c.mode != Drain then c.(consumer := Outside)
      else c.(consumer := Polling(c.ctx.checkRemote || c.mem.local.head != Null))
    case PollAlarm =>
      c.(ctx := c.ctx.(alarms := c.ctx.alarms - 1, checkRemote := true), consumer := Top)
    case PollTag => c.(ctx := c.ctx.(tags := c.ctx.tags - 1), consumer := Running(true))
    case PollTimeout => c.(consumer := if c.consumer.pending then Top else Outside)
  }

  function ApplyAmbient(c: State, s: AmbientStep): State {
    match s
    case GuardStart => c.(ctx := c.ctx.(guards := c.ctx.guards + 1, work := c.ctx.work + 1))
    case TagStart => c.(ctx := c.ctx.(tags := c.ctx.tags + 1, work := c.ctx.work + 1))
    case Reset => c.(ctx := c.ctx.(stopped := false))
  }

  function Apply(c: State, s: Step): State
    requires Enabled(c, s)
  {
    match s
    case Produce(p, a) => ApplyProduce(c, p, a)
    case Dequeue(a) => ApplyDequeue(c, a)
    case Handle(a) => ApplyHandle(c, a)
    case Loop(a) => ApplyLoop(c, a)
    case Ambient(a) => ApplyAmbient(c, a)
  }

  /** A run: every step is enabled where it is taken. */
  predicate CanRun(c: State, steps: seq<Step>)
    decreases |steps|
  {
    steps == [] || (Enabled(c, steps[0]) && CanRun(Apply(c, steps[0]), steps[1..]))
  }

  function After(c: State, steps: seq<Step>): State
    requires CanRun(c, steps)
    decreases |steps|
  {
    if steps == [] then c else After(Apply(c, steps[0]), steps[1..])
  }
}
